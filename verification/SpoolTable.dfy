/**
 The agent's spool table: rows numbered by an AUTOINCREMENT key, kept in key
 order, and the statements that insert into it, read from it and delete from it.
 */
module SpoolTable {
  import opened Options

  /** A serialized event. `size` is the payload length, `readable` says whether the
      payload can be unmarshalled again. */
  datatype Event = Event(eventId: string, observedAt: int, size: nat, readable: bool)

  datatype Row = Row(num: nat, event: Event)

  const DROP_SCAN_LIMIT: nat := 50000
  const DRAIN_BATCH: nat := 200
  const MAX_INT64: int := 0x7fff_ffff_ffff_ffff

  // ---------------------------------------------------------------- filtering

  function Filter<T(!new)>(s: seq<T>, keep: T -> bool): (r: seq<T>)
    ensures |r| <= |s|
    ensures forall x :: x in r <==> x in s && keep(x)
  {
    if s == [] then []
    else
      var rest := Filter(s[1..], keep);
      assert forall x :: x in s <==> x == s[0] || x in s[1..];
      if keep(s[0]) then [s[0]] + rest else rest
  }

  // ------------------------------------------------------------------ the table

  ghost predicate Ascending(rows: seq<Row>) {
    forall i, j :: 0 <= i < j < |rows| ==> rows[i].num < rows[j].num
  }

  // `last` is the highest key ever given out; deleted keys are never reused.
  ghost predicate TableOk(rows: seq<Row>, last: nat) {
    && Ascending(rows)
    && forall r :: r in rows ==> 0 < r.num <= last
  }

  lemma {:induction false} FilterConcat<T(!new)>(s: seq<T>, t: seq<T>, keep: T -> bool)
    ensures Filter(s + t, keep) == Filter(s, keep) + Filter(t, keep)
  {
    if s == [] {
      assert s + t == t;
    } else {
      FilterConcat(s[1..], t, keep);
      assert (s + t)[1..] == s[1..] + t && (s + t)[0] == s[0];
    }
  }

  lemma {:induction false} FilterAscending(rows: seq<Row>, keep: Row -> bool)
    requires Ascending(rows)
    ensures Ascending(Filter(rows, keep))
  {
    if rows != [] {
      FilterAscending(rows[1..], keep);
      var rest := Filter(rows[1..], keep);
      forall j | 0 <= j < |rest| ensures rows[0].num < rest[j].num {
        assert rest[j] in rest;
      }
    }
  }

  function Numbered(events: seq<Event>, last: nat): seq<Row> {
    seq(|events|, i requires 0 <= i < |events| => Row(last + 1 + i, events[i]))
  }

  lemma AppendTableOk(rows: seq<Row>, last: nat, events: seq<Event>)
    requires TableOk(rows, last)
    ensures TableOk(rows + Numbered(events, last), last + |events|)
    ensures forall r :: r in Numbered(events, last) ==> last < r.num
  {
    var all := rows + Numbered(events, last);
    forall i, j | 0 <= i < j < |all| ensures all[i].num < all[j].num {
      if i < |rows| { assert rows[i] in rows; }
    }
  }

  // The conditions of the statements.
  function Above(n: nat): Row -> bool { (r: Row) => n < r.num }
  function AtMost(n: nat): Row -> bool { (r: Row) => r.num <= n }
  function Fresh(cutoff: int): Row -> bool { (r: Row) => cutoff <= r.event.observedAt }
  function Stale(cutoff: int): Row -> bool { (r: Row) => r.event.observedAt < cutoff }

  function RowsAbove(rows: seq<Row>, after: nat): seq<Row> {
    Filter(rows, Above(after))
  }

  // How many rows lie at or below a key; the rows above it are the remaining suffix.
  function CountUpTo(rows: seq<Row>, n: nat): (k: nat)
    ensures k <= |rows|
  {
    |rows| - |RowsAbove(rows, n)|
  }

  lemma {:induction false} RowsAllAbove(rows: seq<Row>, n: nat)
    requires forall i :: 0 <= i < |rows| ==> n < rows[i].num
    ensures RowsAbove(rows, n) == rows
  {
    if rows != [] {
      RowsAllAbove(rows[1..], n);
      assert rows == [rows[0]] + rows[1..];
    }
  }

  lemma {:induction false} RowsAboveIsSuffix(rows: seq<Row>, n: nat)
    requires Ascending(rows)
    ensures RowsAbove(rows, n) == rows[CountUpTo(rows, n)..]
    ensures forall i :: 0 <= i < |rows| ==> (rows[i].num <= n <==> i < CountUpTo(rows, n))
  {
    if rows == [] {
    } else if n < rows[0].num {
      RowsAllAbove(rows, n);
    } else {
      var tail := rows[1..];
      RowsAboveIsSuffix(tail, n);
      assert RowsAbove(rows, n) == RowsAbove(tail, n);
      assert CountUpTo(rows, n) == 1 + CountUpTo(tail, n);
      assert rows[CountUpTo(rows, n)..] == tail[CountUpTo(tail, n)..];
      forall i | 0 <= i < |rows| ensures rows[i].num <= n <==> i < CountUpTo(rows, n) {
        if i > 0 { assert rows[i] == tail[i - 1]; }
      }
    }
  }

  // Deleting up to the key of row k - 1 leaves exactly the rows from k on.
  lemma SuffixAboveRow(rows: seq<Row>, k: nat)
    requires Ascending(rows) && 0 < k <= |rows|
    ensures RowsAbove(rows, rows[k - 1].num) == rows[k..]
    ensures CountUpTo(rows, rows[k - 1].num) == k
  {
    RowsAboveIsSuffix(rows, rows[k - 1].num);
    var c := CountUpTo(rows, rows[k - 1].num);
    assert k - 1 < c;
    assert k < |rows| ==> rows[k - 1].num < rows[k].num;
  }

  function Take<T>(s: seq<T>, n: nat): seq<T> {
    if |s| <= n then s else s[..n]
  }

  // SELECT .. WHERE seq > after ORDER BY seq LIMIT n.
  function Batch(rows: seq<Row>, after: nat, limit: nat): seq<Row> {
    Take(RowsAbove(rows, after), limit)
  }

  // A batch grows by the next row when that is above the key and there is room.
  lemma BatchSnoc(rows: seq<Row>, r: Row, after: nat, limit: nat)
    ensures Batch(rows + [r], after, limit) ==
      if after < r.num && |Batch(rows, after, limit)| < limit then Batch(rows, after, limit) + [r]
      else Batch(rows, after, limit)
  {
    FilterConcat(rows, [r], Above(after));
    assert RowsAbove(rows + [r], after) == if after < r.num then RowsAbove(rows, after) + [r] else RowsAbove(rows, after);
  }

  // The rows at or below key n are exactly the first p.
  ghost predicate SplitsAt(rows: seq<Row>, n: nat, p: nat) {
    && p <= |rows|
    && forall i :: 0 <= i < |rows| ==> (rows[i].num <= n <==> i < p)
  }

  lemma SplitPoint(rows: seq<Row>, n: nat) returns (p: nat)
    requires Ascending(rows)
    ensures SplitsAt(rows, n, p)
  {
    RowsAboveIsSuffix(rows, n);
    p := CountUpTo(rows, n);
  }

  lemma BatchAtSplit(rows: seq<Row>, n: nat, p: nat, limit: nat)
    requires Ascending(rows) && SplitsAt(rows, n, p)
    ensures Batch(rows, n, limit) == Take(rows[p..], limit)
  {
    RowsAboveIsSuffix(rows, n);
    var q := CountUpTo(rows, n);
    assert q < |rows| ==> (rows[q].num <= n <==> q < p);
    assert p < |rows| ==> (rows[p].num <= n <==> p < q);
  }

  // The first rows above a key, in order and without a gap.
  lemma TakeIsContiguous(above: seq<Row>, limit: nat)
    requires Ascending(above)
    ensures var b := Take(above, limit);
      && Ascending(b)
      && (forall r :: r in b ==> r in above)
      && (forall r :: b != [] && r in above && r.num <= b[|b| - 1].num ==> r in b)
      && (|b| < limit ==> b == above)
  {
    var b := Take(above, limit);
    forall r | b != [] && r in above && r.num <= b[|b| - 1].num ensures r in b {
      var i :| 0 <= i < |above| && above[i] == r;
      assert b[|b| - 1] == above[|b| - 1];
      assert b[i] == r;
    }
  }

  // A batch starts right above the cursor and skips nothing up to its last row.
  lemma BatchIsContiguous(rows: seq<Row>, last: nat, after: nat, limit: nat)
    requires TableOk(rows, last)
    ensures var b := Batch(rows, after, limit);
      && Ascending(b)
      && (forall r :: r in b ==> r in rows && after < r.num <= last)
      && (forall r :: b != [] && r in rows && after < r.num <= b[|b| - 1].num ==> r in b)
      && (|b| < limit ==> forall r :: r in rows && after < r.num ==> r in b)
  {
    FilterAscending(rows, Above(after));
    TakeIsContiguous(RowsAbove(rows, after), limit);
    assert forall r :: r in RowsAbove(rows, after) <==> r in rows && after < r.num;
  }

  // ----------------------------------------------------------- budget deletion

  function Sizes(events: seq<Event>): nat {
    if events == [] then 0 else events[0].size + Sizes(events[1..])
  }

  function EventsOf(rows: seq<Row>): seq<Event> {
    seq(|rows|, i requires 0 <= i < |rows| => rows[i].event)
  }

  lemma {:induction false} SizesAppend(a: seq<Event>, b: seq<Event>)
    ensures Sizes(a + b) == Sizes(a) + Sizes(b)
  {
    if a == [] {
      assert a + b == b;
    } else {
      SizesAppend(a[1..], b);
      assert (a + b)[1..] == a[1..] + b;
    }
  }

  lemma SizesPrefixMonotone(events: seq<Event>, i: nat, j: nat)
    requires i <= j <= |events|
    ensures Sizes(events[..i]) <= Sizes(events[..j])
  {
    assert events[..j] == events[..i] + events[i..j];
    SizesAppend(events[..i], events[i..j]);
  }

  // The shortest prefix whose sizes reach the target, within the scan limit.
  ghost predicate ShortestFreeing(events: seq<Event>, target: int, limit: nat, k: nat) {
    && k <= |events| && k <= limit
    && (forall j :: 0 <= j < k ==> Sizes(events[..j]) < target)
    && (Sizes(events[..k]) >= target || k == |events| || k == limit)
  }

  // The same length, computed row by row.
  function FreeingPrefix(events: seq<Event>, target: int, limit: nat): (k: nat)
    ensures k <= |events| && k <= limit
  {
    if events == [] || limit == 0 || target <= 0 then 0
    else 1 + FreeingPrefix(events[1..], target - events[0].size, limit - 1)
  }

  lemma {:induction false} FreeingPrefixIsShortest(events: seq<Event>, target: int, limit: nat)
    ensures ShortestFreeing(events, target, limit, FreeingPrefix(events, target, limit))
    decreases |events|
  {
    if events == [] || limit == 0 || target <= 0 {
    } else {
      var tail := events[1..];
      var k := FreeingPrefix(tail, target - events[0].size, limit - 1);
      FreeingPrefixIsShortest(tail, target - events[0].size, limit - 1);
      forall j | 0 < j <= k + 1 ensures Sizes(events[..j]) == events[0].size + Sizes(tail[..j - 1]) {
        assert events[..j][1..] == tail[..j - 1];
      }
      forall j | 0 <= j < k + 1 ensures Sizes(events[..j]) < target {
        if j > 0 { assert Sizes(tail[..j - 1]) < target - events[0].size; }
      }
    }
  }

  /** The windowed DELETE: the running sum over the first `limit` rows, the rows whose
      preceding sum is still below the target, and the largest key among them. */
  method OldestBytesKey(rows: seq<Row>, last: nat, target: int, limit: nat) returns (key: Option<nat>, k: nat)
    requires TableOk(rows, last)
    ensures ShortestFreeing(EventsOf(rows), target, limit, k)
    ensures k == FreeingPrefix(EventsOf(rows), target, limit)
    ensures key == if k == 0 then None else Some(rows[k - 1].num)
    ensures target > 0 && rows != [] && limit > 0 ==> k > 0
  {
    var events := EventsOf(rows);
    var bound := if |rows| < limit then |rows| else limit;
    var running := 0;
    key, k := None, 0;
    for i := 0 to bound
      invariant running == Sizes(events[..i])
      invariant k <= i
      invariant key == if k == 0 then None else Some(rows[k - 1].num)
      invariant forall j :: 0 <= j < k ==> Sizes(events[..j]) < target
      invariant k < i ==> Sizes(events[..k]) >= target
    {
      assert events[..i + 1] == events[..i] + [events[i]];
      SizesAppend(events[..i], [events[i]]);
      assert Sizes([events[i]]) == events[i].size;
      if k < i { SizesPrefixMonotone(events, k, i); }
      running := running + rows[i].event.size;
      if running - rows[i].event.size < target {
        key, k := Some(rows[i].num), i + 1;
      }
    }
    FreeingPrefixIsShortest(events, target, limit);
  }

  // ----------------------------------------------------------- memory trimming

  // How many of the oldest buffered events go before the rest fits the budget.
  function TrimPrefix(buf: seq<Event>, budget: int): (k: nat)
    ensures k <= |buf|
  {
    if buf == [] || Sizes(buf) <= budget then 0 else 1 + TrimPrefix(buf[1..], budget)
  }

  lemma {:induction false} TrimPrefixIsShortest(buf: seq<Event>, budget: int)
    ensures var k := TrimPrefix(buf, budget);
      && k <= |buf|
      && (Sizes(buf[k..]) <= budget || k == |buf|)
      && (forall j :: 0 <= j < k ==> Sizes(buf[j..]) > budget)
  {
    if buf == [] || Sizes(buf) <= budget {
      assert buf[0..] == buf;
    } else {
      TrimPrefixIsShortest(buf[1..], budget);
      var k := TrimPrefix(buf[1..], budget);
      assert buf[k + 1..] == buf[1..][k..];
      forall j | 0 <= j < k + 1 ensures Sizes(buf[j..]) > budget {
        if j == 0 { assert buf[0..] == buf; } else { assert buf[j..] == buf[1..][j - 1..]; }
      }
    }
  }

  // -------------------------------------------------------------- acknowledging

  // Where an ack moves the cursor: never back, never past the send cursor or the number it
  // names, and as far as that allows; a number no row can have moves nothing.
  function AckTarget(n: nat, sendSeq: nat, ackSeq: nat): (r: nat)
    ensures ackSeq <= sendSeq ==> ackSeq <= r <= sendSeq
    ensures ackSeq < r ==> r <= n
    ensures n <= 0x7fff_ffff_ffff_ffff && n <= sendSeq ==> n <= r
    ensures n <= 0x7fff_ffff_ffff_ffff && sendSeq <= n ==> sendSeq <= r
    ensures n > 0x7fff_ffff_ffff_ffff ==> r == ackSeq
  {
    if n > MAX_INT64 then ackSeq
    else
      var p := if n > sendSeq then sendSeq else n;
      if p <= ackSeq then ackSeq else p
  }
}
