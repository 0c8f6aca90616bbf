/**
 * The user store and its derived queries. The store is the sequence of rows
 * in insertion order; `findAll` is the sequence itself, and the single-result
 * queries `findByName` and `findBySessionId` are lookups that presuppose at
 * most one matching row (with two matches the derived query has no answer).
 */
module ChatUserRepository {
  import opened Wrappers
  import opened Entities

  /** The column a single-result query filters on. */
  datatype Column = Name | Session

  function ColumnOf(u: ChatUser, c: Column): string
  {
    match c
    case Name => u.name
    case Session => u.sessionId
  }

  /** At most one stored row holds `v` in column `c`. */
  predicate AtMostOne(users: seq<ChatUser>, c: Column, v: string)
  {
    forall i, j | 0 <= i < j < |users| :: !(ColumnOf(users[i], c) == v && ColumnOf(users[j], c) == v)
  }

  /** The store invariant that login maintains: no two rows share a name. */
  predicate UniqueNames(users: seq<ChatUser>)
  {
    forall i, j | 0 <= i < j < |users| :: users[i].name != users[j].name
  }

  /**
   * The single-result lookup on column `c`: the row holding `v`, or None when
   * no row does. Under the precondition the answer is the only such row.
   */
  function FindBy(users: seq<ChatUser>, c: Column, v: string): (r: Option<ChatUser>)
    requires AtMostOne(users, c, v)
    ensures r.None? <==> forall u | u in users :: ColumnOf(u, c) != v
    ensures r.Some? ==> r.value in users && ColumnOf(r.value, c) == v
    ensures r.Some? ==> forall i | 0 <= i < |users| && ColumnOf(users[i], c) == v :: users[i] == r.value
  {
    if users == [] then None
    else if ColumnOf(users[0], c) == v then Some(users[0])
    else
      assert AtMostOne(users[1..], c, v) by {
        forall i, j | 0 <= i < j < |users[1..]|
          ensures !(ColumnOf(users[1..][i], c) == v && ColumnOf(users[1..][j], c) == v)
        {
          assert users[1..][i] == users[i + 1] && users[1..][j] == users[j + 1];
        }
      }
      var r := FindBy(users[1..], c, v);
      assert forall i | 1 <= i < |users| :: users[i] == users[1..][i - 1];
      assert users == [users[0]] + users[1..];
      r
  }

  /** `findByName`: the user with name `name`, or None (null) when there is none. */
  function FindByName(users: seq<ChatUser>, name: string): (r: Option<ChatUser>)
    requires AtMostOne(users, Name, name)
    ensures r.None? <==> forall u | u in users :: u.name != name
    ensures r.Some? ==> r.value in users && r.value.name == name
  {
    FindBy(users, Name, name)
  }

  /** `findBySessionId`: the user bound to `session`, or None (null) when there is none. */
  function FindBySessionId(users: seq<ChatUser>, session: SessionId): (r: Option<ChatUser>)
    requires AtMostOne(users, Session, session)
    ensures r.None? <==> forall u | u in users :: u.sessionId != session
    ensures r.Some? ==> r.value in users && r.value.sessionId == session
  {
    FindBy(users, Session, session)
  }

  /** With unique names, every name lookup is defined. */
  lemma UniqueNamesAllowLookup(users: seq<ChatUser>, name: string)
    requires UniqueNames(users)
    ensures AtMostOne(users, Name, name)
  {
  }

  /** A store with a first row is uniquely named iff its tail is and no tail row shares the first name. */
  lemma UniqueNamesCons(users: seq<ChatUser>)
    requires users != []
    ensures UniqueNames(users) <==> UniqueNames(users[1..]) && forall v | v in users[1..] :: v.name != users[0].name
  {
  }

  /**
   * `delete`: the store without the row `u`. Rows are told apart by content;
   * with unique names at most one row equals `u` (see DeleteKeepsUniqueNames).
   */
  function Delete(users: seq<ChatUser>, u: ChatUser): (r: seq<ChatUser>)
    ensures forall v :: v in r <==> v in users && v != u
    ensures u !in users ==> r == users
  {
    if users == [] then []
    else
      assert forall v :: v in users <==> v == users[0] || v in users[1..] by {
        assert users == [users[0]] + users[1..];
      }
      if users[0] == u then Delete(users[1..], u)
      else [users[0]] + Delete(users[1..], u)
  }

  /** Deleting a stored row from a uniquely named store removes exactly that row and keeps the names unique. */
  lemma {:induction false} DeleteKeepsUniqueNames(users: seq<ChatUser>, u: ChatUser)
    requires UniqueNames(users)
    ensures UniqueNames(Delete(users, u))
    ensures u in users ==> |Delete(users, u)| == |users| - 1
  {
    if users != [] {
      UniqueNamesCons(users);
      DeleteKeepsUniqueNames(users[1..], u);
      var rest := Delete(users[1..], u);
      assert forall v :: v in users <==> v == users[0] || v in users[1..] by {
        assert users == [users[0]] + users[1..];
      }
      if users[0] != u {
        var r := [users[0]] + rest;
        assert r[1..] == rest;
        UniqueNamesCons(r);
      }
    }
  }
}
