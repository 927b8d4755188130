/** The analytics page's total: a left fold over the user's sessions that adds
    each session's length rounded to the nearest minute.  Timestamps are
    integer milliseconds. */
module Analytics {
  import opened Base

  /** A row of `pomodoro_sessions` as the page reads it. */
  datatype Session = Session(startTime: int, endTime: int, kind: string)

  /** `Math.round(ms / 60000)`: the nearest whole minute, a half rounding up. */
  function RoundMinutes(ms: int): (m: int)
    ensures m * 60000 - 30000 <= ms < m * 60000 + 30000
  {
    (ms + 30000) / 60000
  }

  function Minutes(s: Session): int {
    RoundMinutes(s.endTime - s.startTime)
  }

  /** `data.reduce((sum, s) => sum + ..., acc)`, left to right. */
  function Reduce(acc: int, ss: seq<Session>): (r: int)
    ensures ss == [] ==> r == acc
    ensures (forall i :: 0 <= i < |ss| ==> ss[i].startTime <= ss[i].endTime) ==> r >= acc
    decreases |ss|
  {
    if ss == [] then acc else Reduce(acc + Minutes(ss[0]), ss[1..])
  }

  /** `totalMinutes` once the sessions are fetched. */
  function TotalMinutes(ss: seq<Session>): (r: int)
    ensures ss == [] ==> r == 0
    ensures (forall i :: 0 <= i < |ss| ==> ss[i].startTime <= ss[i].endTime) ==> r >= 0
  {
    Reduce(0, ss)
  }

  /** The reference definition: the sum of every session's rounded minutes. */
  function SumMinutes(ss: seq<Session>): int
    decreases |ss|
  {
    if ss == [] then 0 else Minutes(ss[0]) + SumMinutes(ss[1..])
  }

  /** The total shown: 0 before anything is fetched, when no user is signed
      in and when the query returned no data. */
  function PageTotal(user: Option<string>, data: Option<seq<Session>>): (r: int)
    ensures user.None? || data.None? ==> r == 0
    ensures user.Some? && data.Some? ==> r == TotalMinutes(data.value)
  {
    if user.Some? && data.Some? then TotalMinutes(data.value) else 0
  }

  // ---------------------------------------------------------------------
  // Properties of the total

  /** A whole number of minutes is counted exactly. */
  lemma RoundWholeMinutes(k: int)
    ensures RoundMinutes(k * 60000) == k
  {
    var m := RoundMinutes(k * 60000);
    assert (m - k) * 60000 < 30000 && (k - m) * 60000 <= 30000;
  }

  /** The fold adds the sum of the sessions to its seed. */
  lemma {:induction false} FoldIsSum(acc: int, ss: seq<Session>)
    ensures Reduce(acc, ss) == acc + SumMinutes(ss)
    decreases |ss|
  {
    if ss != [] {
      FoldIsSum(acc + Minutes(ss[0]), ss[1..]);
    }
  }

  /** The page's total is the sum over all sessions, and 0 for none. */
  lemma TotalIsSum(ss: seq<Session>)
    ensures TotalMinutes(ss) == SumMinutes(ss)
    ensures ss == [] ==> TotalMinutes(ss) == 0
  {
    FoldIsSum(0, ss);
  }

  lemma {:induction false} SumAppend(a: seq<Session>, b: seq<Session>)
    ensures SumMinutes(a + b) == SumMinutes(a) + SumMinutes(b)
    decreases |a|
  {
    if a != [] {
      assert (a + b)[0] == a[0] && (a + b)[1..] == a[1..] + b;
      SumAppend(a[1..], b);
    } else {
      assert a + b == b;
    }
  }

  /** The total does not depend on the order the sessions arrive in. */
  lemma {:induction false} TotalIgnoresOrder(a: seq<Session>, b: seq<Session>)
    requires multiset(a) == multiset(b)
    ensures TotalMinutes(a) == TotalMinutes(b)
  {
    TotalIsSum(a);
    TotalIsSum(b);
    SumPermutation(a, b);
  }

  lemma {:induction false} SumPermutation(a: seq<Session>, b: seq<Session>)
    requires multiset(a) == multiset(b)
    ensures SumMinutes(a) == SumMinutes(b)
    decreases |a|
  {
    if a == [] {
      assert |b| == |multiset(b)| == 0;
    } else {
      var x := a[0];
      assert x in multiset(b);
      var i :| 0 <= i < |b| && b[i] == x;
      var rest := b[..i] + b[i + 1..];
      RemoveOne(a, b, i);
      SumPermutation(a[1..], rest);
      SumRemove(b, i);
    }
  }

  /** Taking the head off `a` and element `i` off `b` keeps them permutations. */
  lemma RemoveOne(a: seq<Session>, b: seq<Session>, i: int)
    requires multiset(a) == multiset(b) && a != [] && 0 <= i < |b| && b[i] == a[0]
    ensures multiset(a[1..]) == multiset(b[..i] + b[i + 1..])
  {
    assert a == [a[0]] + a[1..];
    assert b == b[..i] + [b[i]] + b[i + 1..];
    assert multiset(a[1..]) == multiset(a) - multiset{a[0]};
    assert multiset(b[..i] + b[i + 1..]) == multiset(b) - multiset{b[i]};
  }

  /** The sum over a list is one element's minutes plus the sum over the rest. */
  lemma SumRemove(b: seq<Session>, i: int)
    requires 0 <= i < |b|
    ensures SumMinutes(b) == Minutes(b[i]) + SumMinutes(b[..i] + b[i + 1..])
  {
    assert b == b[..i] + ([b[i]] + b[i + 1..]);
    SumAppend(b[..i], [b[i]] + b[i + 1..]);
    SumAppend(b[..i], b[i + 1..]);
    assert ([b[i]] + b[i + 1..])[0] == b[i] && ([b[i]] + b[i + 1..])[1..] == b[i + 1..];
  }

  /** Every row counts, whatever its type: relabelling the sessions leaves the
      total unchanged, although the page labels it focus time. */
  lemma {:induction false} TotalIgnoresKind(a: seq<Session>, b: seq<Session>)
    requires |a| == |b|
    requires forall i :: 0 <= i < |a| ==> a[i].startTime == b[i].startTime && a[i].endTime == b[i].endTime
    ensures TotalMinutes(a) == TotalMinutes(b)
  {
    TotalIsSum(a);
    TotalIsSum(b);
    SumIgnoresKind(a, b);
  }

  lemma {:induction false} SumIgnoresKind(a: seq<Session>, b: seq<Session>)
    requires |a| == |b|
    requires forall i :: 0 <= i < |a| ==> a[i].startTime == b[i].startTime && a[i].endTime == b[i].endTime
    ensures SumMinutes(a) == SumMinutes(b)
    decreases |a|
  {
    if a != [] {
      SumIgnoresKind(a[1..], b[1..]);
    }
  }

  /** Sessions of whole minutes add up exactly. */
  lemma {:induction false} WholeMinutesAddUp(ss: seq<Session>, ks: seq<int>)
    requires |ss| == |ks|
    requires forall i :: 0 <= i < |ss| ==> ss[i].endTime - ss[i].startTime == ks[i] * 60000
    ensures SumMinutes(ss) == SumOf(ks)
    decreases |ss|
  {
    if ss != [] {
      RoundWholeMinutes(ks[0]);
      WholeMinutesAddUp(ss[1..], ks[1..]);
    }
  }

  function SumOf(ks: seq<int>): int
    decreases |ks|
  {
    if ks == [] then 0 else ks[0] + SumOf(ks[1..])
  }
}
