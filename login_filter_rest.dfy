/**
 * The request gate in front of the protected paths. Its verdict compares the
 * session's login time with the time of the last context refresh; a request
 * it rejects gets a `location: /` header and never reaches its handler, a
 * request it forwards goes down the chain unchanged.
 */
module LoginFilterRest {
  import opened Wrappers

  const RESPONSE_HEADER_LOCATION: string := "location"

  datatype Verdict = Reject | Forward

  /**
   * The gate's decision for a session whose `loginTime` attribute is
   * `loginTime` (None when the attribute is absent) after a refresh at
   * `refreshTime`.
   */
  function Decide(loginTime: Option<int>, refreshTime: int): (v: Verdict)
    ensures v == Forward <==> loginTime.Some? && refreshTime <= loginTime.value
  {
    if loginTime.None? || loginTime.value < refreshTime then Reject else Forward
  }

  /** The effect of the gate on the exchange: headers it adds, and whether it calls the rest of the chain. */
  datatype FilterOutcome = FilterOutcome(addedHeaders: seq<(string, string)>, chainInvoked: bool)

  /**
   * `doFilterInternal`: either the `location: /` header is added and the
   * chain is not invoked, or nothing is added and the chain is invoked;
   * exactly one of the two, and the second exactly when the session logged
   * in at or after the last refresh.
   */
  function DoFilterInternal(loginTime: Option<int>, refreshTime: int): (o: FilterOutcome)
    ensures o.chainInvoked <==> loginTime.Some? && refreshTime <= loginTime.value
    ensures o.chainInvoked <==> o.addedHeaders == []
    ensures !o.chainInvoked ==> o.addedHeaders == [(RESPONSE_HEADER_LOCATION, "/")]
  {
    match Decide(loginTime, refreshTime)
    case Reject => FilterOutcome([(RESPONSE_HEADER_LOCATION, "/")], false)
    case Forward => FilterOutcome([], true)
  }

  /** A session without the attribute, or one that logged in before the refresh, is rejected; any other is forwarded. */
  lemma DecideRejectsExactlyStale(loginTime: Option<int>, refreshTime: int)
    ensures loginTime.None? ==> Decide(loginTime, refreshTime) == Reject
    ensures loginTime.Some? && loginTime.value < refreshTime ==> Decide(loginTime, refreshTime) == Reject
    ensures loginTime.Some? && refreshTime <= loginTime.value ==> Decide(loginTime, refreshTime) == Forward
  {
  }

  /** Raising the watermark never lets through a session it used to reject. */
  lemma DecideMonotone(loginTime: Option<int>, refreshTime: int, laterRefreshTime: int)
    requires refreshTime <= laterRefreshTime
    ensures Decide(loginTime, refreshTime) == Reject ==> Decide(loginTime, laterRefreshTime) == Reject
    ensures Decide(loginTime, laterRefreshTime) == Forward ==> Decide(loginTime, refreshTime) == Forward
  {
  }

  /** The logout sentinel -1 is rejected under any watermark that is not negative. */
  lemma LoggedOutSentinelRejected(refreshTime: int)
    requires 0 <= refreshTime
    ensures Decide(Some(-1), refreshTime) == Reject
  {
  }
}
