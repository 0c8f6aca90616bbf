/**
 * The message store and its three derived queries: the five newest messages
 * by posting time, the messages of one author, and the messages whose text
 * contains a given fragment. The store is the sequence of rows in insertion
 * order; every query is a function of it and so cannot change it.
 */
module MessageRepository {
  import opened Entities

  /** The query derived from `findFirst5MessagesBy...` takes this many rows. */
  const RECENT_LIMIT: nat := 5

  // ---------------------------------------------------------------------------
  // Newest first
  // ---------------------------------------------------------------------------

  /** Posting times do not increase along `r`. */
  predicate Descending(r: seq<Message>)
  {
    forall i, j | 0 <= i < j < |r| :: r[i].timePosted >= r[j].timePosted
  }

  /** No stored message left out of `r` is newer than a message in `r`. */
  predicate NoneNewerLeftOut(ms: seq<Message>, r: seq<Message>)
  {
    forall m, x | m in multiset(ms) - multiset(r) && x in r :: m.timePosted <= x.timePosted
  }

  /** `s` with `m` placed before the first message that is not newer than it. */
  function Insert(m: Message, s: seq<Message>): (r: seq<Message>)
    ensures multiset(r) == multiset(s) + multiset{m}
  {
    if s == [] || m.timePosted >= s[0].timePosted then [m] + s
    else
      assert s == [s[0]] + s[1..];
      [s[0]] + Insert(m, s[1..])
  }

  /** Inserting into a newest-first sequence keeps it newest first. */
  lemma {:induction false} InsertKeepsDescending(m: Message, s: seq<Message>)
    requires Descending(s)
    ensures Descending(Insert(m, s))
  {
    var r := Insert(m, s);
    if s == [] || m.timePosted >= s[0].timePosted {
      forall i, j | 0 <= i < j < |r| ensures r[i].timePosted >= r[j].timePosted {
        assert r[j] == s[j - 1];
        if i > 0 {
          assert r[i] == s[i - 1];
        }
      }
    } else {
      var t := Insert(m, s[1..]);
      assert Descending(s[1..]) by {
        forall i, j | 0 <= i < j < |s[1..]| ensures s[1..][i].timePosted >= s[1..][j].timePosted {
          assert s[1..][i] == s[i + 1] && s[1..][j] == s[j + 1];
        }
      }
      InsertKeepsDescending(m, s[1..]);
      assert r == [s[0]] + t;
      forall i, j | 0 <= i < j < |r| ensures r[i].timePosted >= r[j].timePosted {
        assert r[j] == t[j - 1];
        if i > 0 {
          assert r[i] == t[i - 1];
        } else {
          assert t[j - 1] in multiset(s[1..]) + multiset{m};
          if t[j - 1] != m {
            assert t[j - 1] in s[1..];
            var q :| 0 <= q < |s[1..]| && s[1..][q] == t[j - 1];
            assert s[q + 1] == t[j - 1];
          }
        }
      }
    }
  }

  /** `ORDER BY timePosted DESC`: the stored messages, newest first (insertion sort). */
  function SortByTimePostedDesc(ms: seq<Message>): (r: seq<Message>)
    ensures multiset(r) == multiset(ms)
    ensures Descending(r)
  {
    if ms == [] then []
    else
      var s := SortByTimePostedDesc(ms[1..]);
      InsertKeepsDescending(ms[0], s);
      assert ms == [ms[0]] + ms[1..];
      Insert(ms[0], s)
  }

  /** A prefix of a newest-first sequence is newest first and holds part of it. */
  lemma PrefixOfDescending(s: seq<Message>, k: nat)
    requires Descending(s) && k <= |s|
    ensures Descending(s[..k])
    ensures multiset(s) == multiset(s[..k]) + multiset(s[k..])
  {
    assert s == s[..k] + s[k..];
  }

  /** What a prefix of a newest-first sequence leaves out is no newer than what it keeps. */
  lemma PrefixLeavesOutOlder(s: seq<Message>, k: nat)
    requires Descending(s) && k <= |s|
    ensures NoneNewerLeftOut(s, s[..k])
  {
    PrefixOfDescending(s, k);
    assert multiset(s) - multiset(s[..k]) == multiset(s[k..]);
    forall m, x | m in multiset(s) - multiset(s[..k]) && x in s[..k] ensures m.timePosted <= x.timePosted {
      assert m in s[k..];
      var j :| 0 <= j < |s[k..]| && s[k..][j] == m;
      var i :| 0 <= i < k && s[..k][i] == x;
      assert s[i] == x && s[k + j] == m;
    }
  }

  /**
   * `findFirst5MessagesByOrderByTimePostedDesc`: the first five of the
   * messages ordered newest first. It returns min(5, |ms|) stored messages,
   * newest first, no stored message it leaves out is newer than one it
   * returns, and when at most five are stored it returns all of them.
   */
  function FindFirst5MessagesByOrderByTimePostedDesc(ms: seq<Message>): (r: seq<Message>)
    ensures |r| <= RECENT_LIMIT
    ensures |r| == if |ms| < RECENT_LIMIT then |ms| else RECENT_LIMIT
    ensures Descending(r)
    ensures multiset(r) <= multiset(ms)
    ensures NoneNewerLeftOut(ms, r)
    ensures |ms| <= RECENT_LIMIT ==> multiset(r) == multiset(ms)
  {
    var sorted := SortByTimePostedDesc(ms);
    var k := if |sorted| < RECENT_LIMIT then |sorted| else RECENT_LIMIT;
    PrefixOfDescending(sorted, k);
    PrefixLeavesOutOlder(sorted, k);
    assert |ms| <= RECENT_LIMIT ==> sorted[..k] == sorted;
    sorted[..k]
  }

  /**
   * A message strictly newer than every stored one is among the five newest
   * once it is stored: a freshly posted message shows up in the next poll.
   */
  lemma NewestPostIsInSnapshot(ms: seq<Message>, m: Message)
    requires forall x | x in ms :: x.timePosted < m.timePosted
    ensures m in FindFirst5MessagesByOrderByTimePostedDesc(ms + [m])
  {
  }

  // ---------------------------------------------------------------------------
  // Filters
  // ---------------------------------------------------------------------------

  /** `part` occurs in `text` starting at position `i`. */
  predicate OccursAt(text: string, part: string, i: int)
  {
    0 <= i && i + |part| <= |text| && text[i..i + |part|] == part
  }

  /** Substring search, one starting position at a time. */
  function Contains(text: string, part: string): bool
    decreases |text|
  {
    if part <= text then true
    else if text == [] then false
    else Contains(text[1..], part)
  }

  /** `Contains` holds exactly when `part` occurs somewhere in `text` as a contiguous block. */
  lemma {:induction false} ContainsIffOccurs(text: string, part: string)
    ensures Contains(text, part) <==> exists i :: OccursAt(text, part, i)
    decreases |text|
  {
    if part <= text {
      assert OccursAt(text, part, 0);
    } else if text == [] {
    } else {
      ContainsIffOccurs(text[1..], part);
      if exists i :: OccursAt(text[1..], part, i) {
        var i :| OccursAt(text[1..], part, i);
        assert text[1..][i..i + |part|] == text[i + 1..i + 1 + |part|];
        assert OccursAt(text, part, i + 1);
      }
      if exists i :: OccursAt(text, part, i) {
        var i :| OccursAt(text, part, i);
        assert i != 0;
        assert text[1..][i - 1..i - 1 + |part|] == text[i..i + |part|];
        assert OccursAt(text[1..], part, i - 1);
      }
    }
  }

  /** The two filters the search endpoints use. */
  datatype Filter = ByUser(user: string) | TextContains(part: string)

  predicate Keeps(f: Filter, m: Message)
  {
    match f
    case ByUser(user) => m.user == user
    case TextContains(part) => Contains(m.text, part)
  }

  /** The stored messages `f` keeps, in store order. */
  function Where(ms: seq<Message>, f: Filter): (r: seq<Message>)
    ensures forall m :: multiset(r)[m] == if Keeps(f, m) then multiset(ms)[m] else 0
  {
    if ms == [] then []
    else
      assert ms == [ms[0]] + ms[1..];
      (if Keeps(f, ms[0]) then [ms[0]] else []) + Where(ms[1..], f)
  }

  /** `findByUser`: exactly the stored messages posted by `user`, each as often as it is stored. */
  function FindByUser(ms: seq<Message>, user: string): (r: seq<Message>)
    ensures forall m :: multiset(r)[m] == if m.user == user then multiset(ms)[m] else 0
  {
    Where(ms, ByUser(user))
  }

  /** `findByTextContains`: exactly the stored messages whose text holds `part` as a contiguous block. */
  function FindByTextContains(ms: seq<Message>, part: string): (r: seq<Message>)
    ensures forall m :: multiset(r)[m] == if exists i :: OccursAt(m.text, part, i) then multiset(ms)[m] else 0
  {
    assert forall m: Message :: Contains(m.text, part) <==> exists i :: OccursAt(m.text, part, i) by {
      forall m: Message ensures Contains(m.text, part) <==> exists i :: OccursAt(m.text, part, i) {
        ContainsIffOccurs(m.text, part);
      }
    }
    Where(ms, TextContains(part))
  }
}
