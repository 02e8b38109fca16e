/**
 Time-weighted uptime over a window. Instants are integers (the clock's smallest unit), the
 percentage is computed over the reals.
 */
module Uptime {

  import opened ContainerStates
  import opened Options

  datatype Transition = Transition(at: int, to: ContainerState, health: Option<string>)

  const UNHEALTHY: string := "unhealthy"

  predicate IsUp(t: Transition) {
    t.to == Running && t.health != Some(UNHEALTHY)
  }

  ghost predicate Sorted(ts: seq<Transition>) {
    forall i, j :: 0 <= i < j < |ts| ==> ts[i].at <= ts[j].at
  }

  function Max(a: int, b: int): int { if a < b then b else a }
  function Min(a: int, b: int): int { if a < b then a else b }

  // ------------------------------------------------------------------- the computation

  function EndOf(ts: seq<Transition>, i: nat, to: int): int {
    if i + 1 < |ts| then ts[i + 1].at else to
  }

  function Span(ts: seq<Transition>, i: nat, from: int, to: int): int
    requires i < |ts|
  {
    Min(EndOf(ts, i, to), to) - Max(ts[i].at, from)
  }

  function UpSum(ts: seq<Transition>, n: nat, from: int, to: int): int
    requires n <= |ts|
  {
    if n == 0 then 0
    else
      var span := Span(ts, n - 1, from, to);
      UpSum(ts, n - 1, from, to) + if IsUp(ts[n - 1]) && span > 0 then span else 0
  }

  method UpTime(ts: seq<Transition>, from: int, to: int) returns (up: int)
    ensures up == UpSum(ts, |ts|, from, to)
  {
    up := 0;
    for i := 0 to |ts|
      invariant up == UpSum(ts, i, from, to)
    {
      var end := if i + 1 < |ts| then ts[i + 1].at else to;
      var start := ts[i].at;
      if start < from {
        start := from;
      }
      if end > to {
        end := to;
      }
      var span := end - start;
      if span <= 0 {
        continue;
      }
      if IsUp(ts[i]) {
        up := up + span;
      }
    }
  }

  // ------------------------------------------------------------------ the meaning

  // The transition in force at an instant: the latest at or before it.
  ghost predicate InForce(ts: seq<Transition>, i: int, t: int) {
    0 <= i < |ts| && ts[i].at <= t && forall j :: i < j < |ts| ==> ts[j].at > t
  }

  ghost predicate UpAt(ts: seq<Transition>, n: int, t: int) {
    exists i :: i < n && InForce(ts, i, t) && IsUp(ts[i])
  }

  /** Up at an instant means: the latest transition at or before it went to running, and did
      not report the container unhealthy. */
  lemma UpAtMeans(ts: seq<Transition>, t: int)
    ensures UpAt(ts, |ts|, t) <==>
      exists i :: InForce(ts, i, t) && ts[i].to == Running && ts[i].health != Some("unhealthy")
  {
    if UpAt(ts, |ts|, t) {
      var i :| i < |ts| && InForce(ts, i, t) && IsUp(ts[i]);
      assert ts[i].to == Running && ts[i].health != Some("unhealthy");
    }
    if i :| InForce(ts, i, t) && ts[i].to == Running && ts[i].health != Some("unhealthy") {
      assert IsUp(ts[i]);
    }
  }

  // The instants of [from, to) at which one of the first `n` transitions is in force and up.
  ghost function UpInstants(ts: seq<Transition>, n: int, from: int, to: int): set<int> {
    set t | from <= t < to && UpAt(ts, n, t)
  }

  ghost predicate Within(t: int, from: int, to: int) { from <= t < to }

  ghost function Interval(from: int, to: int): set<int> {
    set t | from <= t < to && Within(t, from, to)
  }

  lemma {:induction false} IntervalSize(from: int, to: int)
    ensures |Interval(from, to)| == Max(to - from, 0)
    decreases Max(to - from, 0)
  {
    if from < to {
      IntervalSize(from + 1, to);
      assert Interval(from, to) == {from} + Interval(from + 1, to) by {
        forall t ensures t in Interval(from, to) <==> t in {from} + Interval(from + 1, to) {
          assert Within(t, from, to) <==> t == from || Within(t, from + 1, to);
        }
      }
    } else {
      assert Interval(from, to) == {};
    }
  }

  // A transition is in force exactly until the next one.
  lemma InForceIsInterval(ts: seq<Transition>, i: nat, from: int, to: int, t: int)
    requires Sorted(ts) && i < |ts| && from <= t < to
    ensures InForce(ts, i, t) <==> Max(ts[i].at, from) <= t < Min(EndOf(ts, i, to), to)
  {
  }

  lemma OneInForce(ts: seq<Transition>, i: int, j: int, t: int)
    requires InForce(ts, i, t) && InForce(ts, j, t)
    ensures i == j
  {
  }

  lemma UpInstantsOneMore(ts: seq<Transition>, n: nat, from: int, to: int)
    requires Sorted(ts) && 0 < n <= |ts|
    ensures var own := if IsUp(ts[n - 1]) then Interval(Max(ts[n - 1].at, from), Min(EndOf(ts, n - 1, to), to)) else {};
      UpInstants(ts, n, from, to) == UpInstants(ts, n - 1, from, to) + own && UpInstants(ts, n - 1, from, to) !! own
  {
    var a, b := Max(ts[n - 1].at, from), Min(EndOf(ts, n - 1, to), to);
    var own := if IsUp(ts[n - 1]) then Interval(a, b) else {};
    forall t | from <= t < to
      ensures UpAt(ts, n, t) <==> UpAt(ts, n - 1, t) || t in own
      ensures !(UpAt(ts, n - 1, t) && t in own)
    {
      InForceIsInterval(ts, n - 1, from, to, t);
      if InForce(ts, n - 1, t) {
        forall i | i < n - 1 && InForce(ts, i, t) ensures false { OneInForce(ts, i, n - 1, t); }
      }
    }
  }

  lemma UpCountOneMore(ts: seq<Transition>, n: nat, from: int, to: int)
    requires Sorted(ts) && 0 < n <= |ts|
    ensures |UpInstants(ts, n, from, to)| ==
      |UpInstants(ts, n - 1, from, to)| + if IsUp(ts[n - 1]) then Max(Span(ts, n - 1, from, to), 0) else 0
  {
    UpInstantsOneMore(ts, n, from, to);
    IntervalSize(Max(ts[n - 1].at, from), Min(EndOf(ts, n - 1, to), to));
  }

  lemma {:induction false} UpSumCounts(ts: seq<Transition>, n: nat, from: int, to: int)
    requires Sorted(ts) && n <= |ts|
    ensures UpSum(ts, n, from, to) == |UpInstants(ts, n, from, to)|
  {
    if n == 0 {
      assert UpInstants(ts, 0, from, to) == {};
    } else {
      UpSumCounts(ts, n - 1, from, to);
      UpCountOneMore(ts, n, from, to);
    }
  }

  // The instants of the window at which the container is up.
  ghost function UpSet(ts: seq<Transition>, from: int, to: int): set<int> {
    UpInstants(ts, |ts|, from, to)
  }

  /** For a time-sorted list the accumulated up time is the number of instants of the window
      whose latest transition at or before them is up. */
  lemma UpTimeIsMeasure(ts: seq<Transition>, from: int, to: int)
    requires Sorted(ts)
    ensures UpSum(ts, |ts|, from, to) == |UpSet(ts, from, to)|
  {
    UpSumCounts(ts, |ts|, from, to);
  }

  lemma UpSetSplits(ts: seq<Transition>, from: int, mid: int, to: int)
    requires from <= mid <= to
    ensures UpSet(ts, from, to) == UpSet(ts, from, mid) + UpSet(ts, mid, to)
    ensures UpSet(ts, from, mid) !! UpSet(ts, mid, to)
  {
  }

  /** Splitting the window splits the up time, which is never negative nor longer than the
      window. */
  lemma UpTimeAdditive(ts: seq<Transition>, from: int, mid: int, to: int)
    requires Sorted(ts) && from <= mid <= to
    ensures UpSum(ts, |ts|, from, to) == UpSum(ts, |ts|, from, mid) + UpSum(ts, |ts|, mid, to)
    ensures 0 <= UpSum(ts, |ts|, from, to) <= to - from
  {
    UpTimeIsMeasure(ts, from, to);
    UpTimeIsMeasure(ts, from, mid);
    UpTimeIsMeasure(ts, mid, to);
    UpSetSplits(ts, from, mid, to);
    IntervalSize(from, to);
    SubsetSize(UpSet(ts, from, to), Interval(from, to));
  }

  lemma SubsetSize(a: set<int>, b: set<int>)
    requires a <= b
    ensures |a| <= |b|
  {
    assert b == a + (b - a);
  }

  // ---------------------------------------------------------- what the store returns

  // The query for a window returns the transitions stamped inside it, here ts[a..b].
  ghost predicate IsWindow(ts: seq<Transition>, a: int, b: int, from: int, to: int) {
    && 0 <= a <= b <= |ts|
    && (forall i :: 0 <= i < a ==> ts[i].at < from)
    && (forall i :: a <= i < b ==> from <= ts[i].at <= to)
    && (forall i :: b <= i < |ts| ==> to < ts[i].at)
  }

  lemma InForceInWindow(ts: seq<Transition>, a: int, b: int, from: int, to: int, i: int, t: int)
    requires IsWindow(ts, a, b, from, to) && t < to
    ensures InForce(ts[a..b], i - a, t) <==> a <= i && InForce(ts, i, t)
  {
    var w := ts[a..b];
    assert forall k :: 0 <= k < |w| ==> w[k] == ts[a + k];
    if InForce(w, i - a, t) {
      forall j | i < j < |ts| ensures ts[j].at > t {
        if j < b { assert w[j - a].at > t; }
      }
    }
  }

  // From the first transition of the window on, the window knows all that the log knows.
  lemma SameAfterFirst(ts: seq<Transition>, a: int, b: int, from: int, to: int)
    requires IsWindow(ts, a, b, from, to) && a < b
    ensures UpSet(ts, ts[a].at, to) == UpSet(ts[a..b], ts[a].at, to)
  {
    var w := ts[a..b];
    forall t | ts[a].at <= t < to ensures UpAt(ts, |ts|, t) <==> UpAt(w, |w|, t) {
      if UpAt(ts, |ts|, t) {
        var i :| i < |ts| && InForce(ts, i, t) && IsUp(ts[i]);
        InForceInWindow(ts, a, b, from, to, i, t);
      }
      if UpAt(w, |w|, t) {
        var k :| k < |w| && InForce(w, k, t) && IsUp(w[k]);
        InForceInWindow(ts, a, b, from, to, a + k, t);
      }
    }
  }

  // Between two neighbours in time the earlier one decides.
  lemma BeforeFirst(ts: seq<Transition>, a: int, from: int, upto: int)
    requires Sorted(ts) && 0 <= a <= |ts| && from <= upto
    requires forall i :: 0 <= i < a ==> ts[i].at <= from
    requires forall i :: a <= i < |ts| ==> upto <= ts[i].at
    ensures |UpSet(ts, from, upto)| == if a > 0 && IsUp(ts[a - 1]) then upto - from else 0
  {
    IntervalSize(from, upto);
    forall t | from <= t < upto
      ensures Within(t, from, upto)
      ensures UpAt(ts, |ts|, t) <==> a > 0 && IsUp(ts[a - 1])
    {
      assert a > 0 ==> InForce(ts, a - 1, t);
      forall i | InForce(ts, i, t) ensures i == a - 1 {
        assert i < a && ts[a - 1].at <= t;
      }
    }
    assert UpSet(ts, from, upto) == if a > 0 && IsUp(ts[a - 1]) then Interval(from, upto) else {};
  }

  /** The window alone undercounts the log by exactly the time before its first transition,
      when the container was up as the window opened. */
  lemma WindowUndercount(ts: seq<Transition>, a: int, b: int, from: int, to: int)
    requires Sorted(ts) && from <= to && IsWindow(ts, a, b, from, to) && a < b
    ensures UpSum(ts, |ts|, from, to) - UpSum(ts[a..b], |ts[a..b]|, from, to)
      == if a > 0 && IsUp(ts[a - 1]) then ts[a].at - from else 0
  {
    var w, first := ts[a..b], ts[a].at;
    assert Sorted(w) by { assert forall k :: 0 <= k < |w| ==> w[k] == ts[a + k]; }
    UpTimeAdditive(ts, from, first, to);
    UpTimeAdditive(w, from, first, to);
    BeforeFirst(ts, a, from, first);
    BeforeFirst(w, 0, from, first);
    SameAfterFirst(ts, a, b, from, to);
    UpTimeIsMeasure(ts, from, first);
    UpTimeIsMeasure(ts, first, to);
    UpTimeIsMeasure(w, from, first);
    UpTimeIsMeasure(w, first, to);
  }

  /** A window without transitions is reported as fully up, which the log bears out exactly
      when it holds an earlier transition and the last one is up. */
  lemma EmptyWindowIsUpIff(ts: seq<Transition>, a: int, from: int, to: int)
    requires Sorted(ts) && from < to && IsWindow(ts, a, a, from, to)
    ensures UpSum(ts, |ts|, from, to) == to - from <==> a > 0 && IsUp(ts[a - 1])
  {
    BeforeFirst(ts, a, from, to);
    UpTimeIsMeasure(ts, from, to);
  }

  /** Concretely: a container that ran from 0 and exited at 1 is reported as fully up in the
      window [10, 20), which holds none of its transitions; it was up at no instant of it. */
  lemma EmptyWindowReadsFull()
    ensures var log := [Transition(0, Running, None), Transition(1, Exited, None)];
      && IsWindow(log, 2, 2, 10, 20) && Reported(log[2..2], 10, 20) == 100.0
      && UpSet(log, 10, 20) == {} && Reported(log, 10, 20) == 0.0
  {
    var log := [Transition(0, Running, None), Transition(1, Exited, None)];
    assert Sorted(log);
    BeforeFirst(log, 2, 10, 20);
    UpTimeIsMeasure(log, 10, 20);
    RoundedAt(0, 10);
  }

  /** Concretely: a container running since 0 and restarted at 15 loses the first half of
      [10, 20), because the transition that started it lies before the window. */
  lemma WindowReadsHalf()
    ensures var log := [Transition(0, Running, None), Transition(15, Running, None)];
      && IsWindow(log, 1, 2, 10, 20) && Reported(log[1..2], 10, 20) == 50.0
      && UpSet(log, 10, 20) == Interval(10, 20) && Reported(log, 10, 20) == 100.0
  {
    var log := [Transition(0, Running, None), Transition(15, Running, None)];
    assert Sorted(log);
    forall t | 10 <= t < 20 ensures UpAt(log, 2, t) && Within(t, 10, 20) {
      assert InForce(log, if t < 15 then 0 else 1, t);
    }
    AllUpIff(log, 10, 20);
    WindowUndercount(log, 1, 2, 10, 20);
    RoundedAt(10, 10);
    RoundedAt(5, 10);
  }

  // ------------------------------------------------------------------ the percentage

  // What the computation reports for a list of transitions and a window.
  function Reported(ts: seq<Transition>, from: int, to: int): real {
    if to <= from then 0.0
    else if ts == [] then 100.0
    else Rounded(Exact(UpSum(ts, |ts|, from, to), to - from))
  }

  lemma RoundedAt(up: nat, total: int)
    requires total == 10 && up <= 10
    ensures Rounded(Exact(up, total)) == (up * 10) as real
  {
    assert Exact(up, total) == (up * 10) as real;
    assert (up * 10) as real * 100.0 == (up * 1000) as real;
  }

  function Exact(up: int, total: int): real
    requires total > 0
  {
    up as real / total as real * 100.0
  }

  function Clamp(x: real): real { if x > 100.0 then 100.0 else x }

  function Rounded(x: real): real { (Clamp(x) * 100.0).Floor as real / 100.0 }

  /** The reported percentage; on a sorted list it is the share of up instants, rounded down
      by less than a hundredth. */
  method ComputeUptime(ts: seq<Transition>, from: int, to: int) returns (pct: real)
    ensures pct == Reported(ts, from, to) && 0.0 <= pct <= 100.0
    ensures to <= from ==> pct == 0.0
    ensures from < to && ts == [] ==> pct == 100.0
    ensures from < to && ts != [] && Sorted(ts) ==> pct <= Exact(|UpSet(ts, from, to)|, to - from) < pct + 0.01
  {
    if to - from <= 0 {
      return 0.0;
    }
    if |ts| == 0 {
      return 100.0;
    }
    var up := UpTime(ts, from, to);
    UpSumPositive(ts, |ts|, from, to);
    RoundedMeans(Exact(up, to - from));
    pct := up as real / (to - from) as real * 100.0;
    if pct > 100.0 {
      pct := 100.0;
    }
    pct := (pct * 100.0).Floor as real / 100.0;
    if Sorted(ts) {
      UpTimeIsMeasure(ts, from, to);
      ClampNeverFires(ts, from, to);
    }
  }

  /** Rounding clamps at 100 and otherwise rounds down to two decimals. */
  lemma RoundedMeans(x: real)
    ensures x >= 100.0 ==> Rounded(x) == 100.0
    ensures x < 100.0 ==> Rounded(x) <= x < Rounded(x) + 0.01 && (Rounded(x) * 100.0).Floor as real == Rounded(x) * 100.0
    ensures x >= 0.0 ==> 0.0 <= Rounded(x) <= 100.0
  {
    var n := (Clamp(x) * 100.0).Floor;
    assert Rounded(x) * 100.0 == n as real;
  }

  lemma {:induction false} UpSumPositive(ts: seq<Transition>, n: nat, from: int, to: int)
    requires n <= |ts|
    ensures UpSum(ts, n, from, to) >= 0
  {
    if n > 0 { UpSumPositive(ts, n - 1, from, to); }
  }

  lemma ExactInRange(up: int, total: int)
    requires 0 <= up <= total && total > 0
    ensures 0.0 <= Exact(up, total) <= 100.0
    ensures Exact(up, total) == 100.0 <==> up == total
  {
    var q := up as real / total as real;
    assert q * total as real == up as real;
    assert 0.0 <= q <= 1.0;
  }

  /** On a sorted list the clamp never fires; the reported value is the share of up instants
      rounded down to two decimals, and shows 100 only if every instant is up. */
  lemma ClampNeverFires(ts: seq<Transition>, from: int, to: int)
    requires Sorted(ts) && from < to
    ensures var exact := Exact(UpSum(ts, |ts|, from, to), to - from);
      && 0.0 <= exact <= 100.0
      && 0.0 <= Rounded(exact) <= exact < Rounded(exact) + 0.01
      && (Rounded(exact) == 100.0 <==> forall t :: from <= t < to ==> UpAt(ts, |ts|, t))
  {
    var up := UpSum(ts, |ts|, from, to);
    UpTimeAdditive(ts, from, from, to);
    ExactInRange(up, to - from);
    AllUpIff(ts, from, to);
  }

  lemma AllUpIff(ts: seq<Transition>, from: int, to: int)
    requires Sorted(ts) && from <= to
    ensures UpSum(ts, |ts|, from, to) == to - from <==> forall t :: from <= t < to ==> UpAt(ts, |ts|, t)
  {
    var a, b := UpSet(ts, from, to), Interval(from, to);
    UpTimeIsMeasure(ts, from, to);
    IntervalSize(from, to);
    assert b == a + (b - a);
    assert |a| == |b| <==> a == b;
    assert a == b <==> forall t :: from <= t < to ==> UpAt(ts, |ts|, t) by {
      forall t | from <= t < to ensures t in b && (t in a <==> UpAt(ts, |ts|, t)) { assert Within(t, from, to); }
    }
  }
}
