/**
 The spool object takes the steps of the protocol. Each operation that runs alone is a
 sequence of protocol steps between states that mirror the object, so what holds in every
 run of the protocol holds of the object between its operations.
 */
module SpoolRefinement {
  import opened Options
  import opened SpoolTable
  import opened SpoolDelivery
  import opened SpoolProtocol
  import opened AgentSpool
  import Q = SpoolQueue

  function ContentOf(q: Q.Queue): Content {
    Content(q.buf, q.memDropped, if q.hasStore then Some(Table(q.rows, q.last, q.persisted)) else None)
  }

  // No operation on the queue is under way.
  predicate Quiet(q: Q.Queue) { q.flights == [] && q.uncounting == [] && q.bufBytes == Sizes(q.buf) }

  // The object between two operations, read as a state of the protocol.
  ghost predicate Mirrors(sp: Spool, s: System)
    reads sp, sp.store
  {
    && ContentOf(s.q) == sp.View() && Quiet(s.q)
    && s.d.sendSeq == sp.sendSeq && s.d.ackSeq == sp.ackSeq && s.d.purge == None
    && s.d.drain == if sp.sink == null then Off else Ready
  }

  // A new spool mirrors the state every run begins with.
  method NewSpool(maxMemory: nat, maxDisk: nat, withStore: bool) returns (sp: Spool)
    ensures fresh(sp) && sp.Valid() && Mirrors(sp, Begin(withStore)) && Reachable(Begin(withStore))
  {
    BeginReachable(withStore);
    var store: SpoolStore? := null;
    if withStore {
      store := new SpoolStore();
    }
    sp := new Spool(maxMemory, maxDisk, store);
  }

  lemma ReachesToo(s: System, ls: seq<Label>, t: System)
    requires Steps(s, ls, t)
    ensures Reachable(s) ==> Reachable(t)
  {
    if Reachable(s) { StepsReach(s, ls, t); }
  }

  lemma TwoSteps(s: System, k: Label, l: Label)
    requires Enabled(s, k) && Enabled(Next(s, k), l)
    ensures Steps(s, [k, l], Next(Next(s, k), l))
  {
    OneStep(s, k);
    OneStep(Next(s, k), l);
    StepsConcat(s, [k], Next(s, k), [l], Next(Next(s, k), l));
    assert [k] + [l] == [k, l];
  }

  // -------------------------------------------------------------------------- flush

  function FlushLabels(buf: seq<Event>, hasStore: bool, maxMemory: nat, maxDisk: nat, disk: Disk): seq<Label> {
    if buf == [] then []
    else if !hasStore then [FlushTrim(maxMemory)]
    else if disk.failAt <= |buf| then [FlushTake, FlushFail(0)]
    else [FlushTake, FlushCommit(0)] + BudgetLabels(maxDisk, disk)
  }

  function BudgetLabels(maxDisk: nat, disk: Disk): seq<Label> {
    if OverBudget(disk, maxDisk) then
      [BudgetDrop(DiskTarget(disk.size.value, maxDisk)), CountDrop(0, disk.drop.Fine? && !disk.countFails)]
    else []
  }

  lemma StoreSteps(s: System) returns (t: System)
    requires s.q.hasStore && s.q.buf != [] && Quiet(s.q)
    ensures Steps(s, [FlushTake, FlushCommit(0)], t) && Quiet(t.q) && t.d == s.d
    ensures t.q.hasStore && t.q.buf == [] && t.q.memDropped == s.q.memDropped && t.q.persisted == s.q.persisted
    ensures t.q.rows == s.q.rows + Numbered(s.q.buf, s.q.last) && t.q.last == s.q.last + |s.q.buf|
  {
    t := Next(Next(s, FlushTake), FlushCommit(0));
    TwoSteps(s, FlushTake, FlushCommit(0));
  }

  lemma FailSteps(s: System)
    requires s.q.hasStore && s.q.buf != [] && Quiet(s.q)
    ensures Steps(s, [FlushTake, FlushFail(0)], s)
  {
    TwoSteps(s, FlushTake, FlushFail(0));
    assert s.q.buf + [] == s.q.buf;
  }

  lemma BudgetSteps(s: System, maxDisk: nat, disk: Disk) returns (t: System)
    requires s.q.hasStore && Quiet(s.q)
    ensures Steps(s, BudgetLabels(maxDisk, disk), t) && Quiet(t.q) && t.d == s.d
    ensures t.q.hasStore && t.q.buf == s.q.buf && t.q.last == s.q.last && t.q.memDropped == s.q.memDropped
    ensures t.q.rows == s.q.rows[BudgetDrops(disk, maxDisk, EventsOf(s.q.rows))..]
    ensures t.q.persisted == s.q.persisted + BudgetCounts(disk, maxDisk, EventsOf(s.q.rows))
  {
    if OverBudget(disk, maxDisk) {
      var drop := BudgetDrop(DiskTarget(disk.size.value, maxDisk));
      var count := CountDrop(0, disk.drop.Fine? && !disk.countFails);
      t := Next(Next(s, drop), count);
      TwoSteps(s, drop, count);
    } else {
      t := s;
      assert s.q.rows[0..] == s.q.rows;
    }
  }

  /** A flush is a trim, or a take followed by a failed or a successful commit, the latter
      with the budget drop and its count, as far as the database lets them happen. */
  lemma FlushSteps(s: System, maxMemory: nat, maxDisk: nat, disk: Disk) returns (t: System)
    requires Quiet(s.q)
    ensures Steps(s, FlushLabels(s.q.buf, s.q.hasStore, maxMemory, maxDisk, disk), t) && Quiet(t.q) && t.d == s.d
    ensures ContentOf(t.q) == Flushed(ContentOf(s.q), maxMemory, maxDisk, disk)
  {
    if s.q.buf == [] {
      t := s;
    } else if !s.q.hasStore {
      t := Next(s, FlushTrim(maxMemory));
      OneStep(s, FlushTrim(maxMemory));
    } else if disk.failAt <= |s.q.buf| {
      t := s;
      FailSteps(s);
    } else {
      var u := StoreSteps(s);
      t := BudgetSteps(u, maxDisk, disk);
      StepsConcat(s, [FlushTake, FlushCommit(0)], u, BudgetLabels(maxDisk, disk), t);
    }
  }

  method FlushTakesSteps(sp: Spool, disk: Disk, ghost s: System) returns (ok: bool, ghost t: System)
    requires sp.Valid() && Mirrors(sp, s)
    modifies sp`buf, sp`bufBytes, sp`dropped, sp.store
    ensures sp.Valid() && Mirrors(sp, t)
    ensures Steps(s, FlushLabels(s.q.buf, s.q.hasStore, sp.maxMemory, sp.maxDisk, disk), t)
    ensures Reachable(s) ==> Reachable(t)
  {
    t := FlushSteps(s, sp.maxMemory, sp.maxDisk, disk);
    ReachesToo(s, FlushLabels(s.q.buf, s.q.hasStore, sp.maxMemory, sp.maxDisk, disk), t);
    ok := sp.Flush(disk);
  }

  // -------------------------------------------------------------- producers and acks

  function EnqueueLabels(e: Event, buf: seq<Event>, hasStore: bool, maxMemory: nat, maxDisk: nat, disk: Disk): seq<Label> {
    [Enqueue(e)] + if Sizes(buf) + e.size >= maxMemory then FlushLabels(buf + [e], hasStore, maxMemory, maxDisk, disk) else []
  }

  lemma EnqueueSteps(s: System, e: Event, maxMemory: nat, maxDisk: nat, disk: Disk) returns (t: System)
    requires Quiet(s.q)
    ensures Steps(s, EnqueueLabels(e, s.q.buf, s.q.hasStore, maxMemory, maxDisk, disk), t) && Quiet(t.q) && t.d == s.d
    ensures var queued := ContentOf(s.q).(buf := s.q.buf + [e]);
      ContentOf(t.q) == if Sizes(s.q.buf) + e.size >= maxMemory then Flushed(queued, maxMemory, maxDisk, disk) else queued
  {
    var u := Next(s, Enqueue(e));
    OneStep(s, Enqueue(e));
    SizesAppend(s.q.buf, [e]);
    if Sizes(s.q.buf) + e.size >= maxMemory {
      t := FlushSteps(u, maxMemory, maxDisk, disk);
      StepsConcat(s, [Enqueue(e)], u, FlushLabels(u.q.buf, u.q.hasStore, maxMemory, maxDisk, disk), t);
    } else {
      t := u;
      assert [Enqueue(e)] + [] == [Enqueue(e)];
    }
  }

  method EnqueueTakesSteps(sp: Spool, e: Event, disk: Disk, ghost s: System) returns (ok: bool, ghost t: System)
    requires sp.Valid() && Mirrors(sp, s)
    modifies sp`buf, sp`bufBytes, sp`dropped, sp.store
    ensures sp.Valid() && Mirrors(sp, t)
    ensures Steps(s, EnqueueLabels(e, s.q.buf, s.q.hasStore, sp.maxMemory, sp.maxDisk, disk), t)
    ensures Reachable(s) ==> Reachable(t)
  {
    t := EnqueueSteps(s, e, sp.maxMemory, sp.maxDisk, disk);
    ReachesToo(s, EnqueueLabels(e, s.q.buf, s.q.hasStore, sp.maxMemory, sp.maxDisk, disk), t);
    var flushAsked;
    ghost var lost;
    ok, flushAsked, lost := sp.Enqueue(e, disk);
  }

  function AckLabels(n: nat, sendSeq: nat, ackSeq: nat, deletes: bool): seq<Label> {
    if AckTarget(n, sendSeq, ackSeq) == ackSeq then [AgentAck] else [AgentAck, PurgeRows(deletes)]
  }

  lemma AckSteps(s: System, deletes: bool) returns (t: System)
    requires Enabled(s, AgentAck) && Quiet(s.q) && (deletes ==> s.q.hasStore)
    ensures Steps(s, AckLabels(s.d.down[0].num, s.d.sendSeq, s.d.ackSeq, deletes), t) && Quiet(t.q)
    ensures var p := AckTarget(s.d.down[0].num, s.d.sendSeq, s.d.ackSeq);
      && t.d.ackSeq == p && t.d.sendSeq == s.d.sendSeq && t.d.drain == s.d.drain && t.d.purge == None
      && t.q == s.q.(acked := t.q.acked, rows := if deletes && p != s.d.ackSeq then RowsAbove(s.q.rows, p) else s.q.rows)
  {
    t := Next(s, AgentAck);
    OneStep(s, AgentAck);
    if AckTarget(s.d.down[0].num, s.d.sendSeq, s.d.ackSeq) != s.d.ackSeq {
      TwoSteps(s, AgentAck, PurgeRows(deletes));
      t := Next(t, PurgeRows(deletes));
    }
  }

  /** An ack is the move of the cursor followed, if it moved, by the purge. */
  method AckTakesSteps(sp: Spool, n: nat, fault: Fault, ghost s: System) returns (ghost t: System)
    requires sp.Valid() && Mirrors(sp, s) && s.d.down != [] && s.d.down[0].Ack? && s.d.down[0].num == n
    modifies sp`ackSeq, sp.store
    ensures sp.Valid() && Mirrors(sp, t)
    ensures Steps(s, AckLabels(n, s.d.sendSeq, s.d.ackSeq, s.q.hasStore && !fault.Rejected?), t)
    ensures Reachable(s) ==> Reachable(t)
  {
    t := AckSteps(s, s.q.hasStore && !fault.Rejected?);
    ReachesToo(s, AckLabels(n, s.d.sendSeq, s.d.ackSeq, s.q.hasStore && !fault.Rejected?), t);
    sp.Acked(n, fault);
  }

  method LimitTakesStep(sp: Spool, retryAfter: int, now: int, ghost s: System) returns (ghost t: System)
    requires sp.Valid() && Mirrors(sp, s) && s.d.down != [] && s.d.down[0].RateLimit?
    modifies sp`sendSeq, sp`pausedUntil
    ensures sp.Valid() && Mirrors(sp, t) && Steps(s, [AgentLimited], t)
    ensures Reachable(s) ==> Reachable(t)
  {
    t := Next(s, AgentLimited);
    OneStep(s, AgentLimited);
    ReachesToo(s, [AgentLimited], t);
    sp.RateLimited(retryAfter, now);
  }

  method AttachTakesSteps(sp: Spool, stream: Sink, ghost s: System) returns (ghost t: System)
    requires sp.Valid() && Mirrors(sp, s) && sp.sink == null && s.d.up == [] && s.d.down == []
    modifies sp`sink, sp`pausedUntil, sp`sendSeq
    ensures sp.Valid() && Mirrors(sp, t) && Steps(s, [AttachSink, AttachRewind], t)
    ensures Reachable(s) ==> Reachable(t)
  {
    t := Next(Next(s, AttachSink), AttachRewind);
    TwoSteps(s, AttachSink, AttachRewind);
    ReachesToo(s, [AttachSink, AttachRewind], t);
    sp.Attach(stream);
  }

  method DiscardTakesStep(sp: Spool, ghost s: System) returns (ghost t: System)
    requires sp.Valid() && Mirrors(sp, s)
    modifies sp`store, sp`buf, sp`bufBytes
    ensures sp.Valid() && Mirrors(sp, t) && Steps(s, [SpoolProtocol.Discard], t)
    ensures Reachable(s) ==> Reachable(t)
  {
    t := Next(s, SpoolProtocol.Discard);
    OneStep(s, SpoolProtocol.Discard);
    ReachesToo(s, [SpoolProtocol.Discard], t);
    sp.Discard();
  }

  method DetachTakesStep(sp: Spool, ghost s: System) returns (ghost t: System)
    requires sp.Valid() && Mirrors(sp, s) && sp.sink != null
    modifies sp`sink
    ensures sp.Valid() && Mirrors(sp, t) && Steps(s, [SpoolProtocol.Detach], t)
    ensures Reachable(s) ==> Reachable(t)
  {
    t := Next(s, SpoolProtocol.Detach);
    OneStep(s, SpoolProtocol.Detach);
    ReachesToo(s, [SpoolProtocol.Detach], t);
    sp.Detach();
  }

  method ResetTakesStep(sp: Spool, fails: bool, ghost s: System) returns (ghost t: System)
    requires sp.Valid() && Mirrors(sp, s)
    modifies sp`dropped, sp.store
    ensures sp.Valid() && Mirrors(sp, t) && Steps(s, [ResetCounter(!fails)], t)
    ensures Reachable(s) ==> Reachable(t)
  {
    t := Next(s, ResetCounter(!fails));
    OneStep(s, ResetCounter(!fails));
    ReachesToo(s, [ResetCounter(!fails)], t);
    sp.ResetDropped(fails);
  }

  function ExpireLabels(hasStore: bool, maxAge: int, now: int, fault: Fault): seq<Label> {
    if maxAge <= 0 || !hasStore || fault.Rejected? then [] else [Expire(now - maxAge)]
  }

  lemma ExpireSteps(s: System, maxAge: int, now: int, fault: Fault) returns (t: System)
    requires Quiet(s.q)
    ensures Steps(s, ExpireLabels(s.q.hasStore, maxAge, now, fault), t) && Quiet(t.q) && t.d == s.d
    ensures ContentOf(t.q) == Expired(ContentOf(s.q), maxAge, now, fault)
  {
    if maxAge <= 0 || !s.q.hasStore || fault.Rejected? {
      t := s;
    } else {
      t := Next(s, Expire(now - maxAge));
      OneStep(s, Expire(now - maxAge));
    }
  }

  method PurgeTakesStep(sp: Spool, maxAge: int, now: int, fault: Fault, ghost s: System) returns (ok: bool, ghost t: System)
    requires sp.Valid() && Mirrors(sp, s)
    modifies sp.store
    ensures sp.Valid() && Mirrors(sp, t) && Steps(s, ExpireLabels(s.q.hasStore, maxAge, now, fault), t)
    ensures Reachable(s) ==> Reachable(t)
  {
    t := ExpireSteps(s, maxAge, now, fault);
    ReachesToo(s, ExpireLabels(s.q.hasStore, maxAge, now, fault), t);
    ok := sp.PurgeExpired(maxAge, now, fault);
  }

  // ----------------------------------------------------------------------- the drain

  function Msgs(nums: seq<nat>): seq<Message> {
    seq(|nums|, i requires 0 <= i < |nums| => RowMsg(nums[i]))
  }

  predicate IsDrain(l: Label) { l.DrainCapture? || l.DrainBatch? || l.DrainRow? || l.DrainCursor? || l.DrainStop? }

  ghost predicate AllDrain(ls: seq<Label>) { forall i :: 0 <= i < |ls| ==> IsDrain(ls[i]) }

  ghost predicate DrainPath(s: System, t: System) {
    exists ls :: Steps(s, ls, t) && AllDrain(ls)
  }

  lemma PathThen(s: System, t: System, u: System)
    requires DrainPath(s, t) && DrainPath(t, u)
    ensures DrainPath(s, u)
  {
    var x :| Steps(s, x, t) && AllDrain(x);
    var y :| Steps(t, y, u) && AllDrain(y);
    StepsConcat(s, x, t, y, u);
    assert AllDrain(x + y);
  }

  lemma SentThen(d: Delivery, a: seq<nat>, ca: nat, da: Drain, ha: set<nat>, b: seq<nat>, cb: nat, db: Drain, hb: set<nat>)
    ensures Sent(Sent(d, a, ca, da, ha), b, cb, db, hb) == Sent(d, a + b, cb, db, hb)
  {
    assert Msgs(a) + Msgs(b) == Msgs(a + b);
    assert (d.up + Msgs(a)) + Msgs(b) == d.up + (Msgs(a) + Msgs(b));
  }

  // The drain steps lead from s to t, sending these rows and leaving the cursor there.
  ghost predicate Drains(s: System, t: System, nums: seq<nat>, cursor: nat, drain: Drain) {
    && DrainPath(s, t)
    && t.q == s.q
    && t.d == Sent(s.d, nums, cursor, drain, t.d.handed)
  }

  function Sent(d: Delivery, nums: seq<nat>, cursor: nat, drain: Drain, handed: set<nat>): Delivery {
    d.(up := d.up + Msgs(nums), handed := handed, sendSeq := cursor, drain := drain)
  }

  lemma DrainsNothing(s: System)
    ensures Drains(s, s, [], s.d.sendSeq, s.d.drain)
  {
    assert Steps(s, [], s) && AllDrain([]);
    assert s.d.up + Msgs([]) == s.d.up;
  }

  lemma DrainsOne(s: System, l: Label, nums: seq<nat>, cursor: nat, drain: Drain)
    requires Enabled(s, l) && IsDrain(l) && Next(s, l).q == s.q
    requires Next(s, l).d == Sent(s.d, nums, cursor, drain, Next(s, l).d.handed)
    ensures Drains(s, Next(s, l), nums, cursor, drain)
  {
    OneStep(s, l);
    assert AllDrain([l]);
  }

  lemma DrainsThen(s: System, t: System, u: System, a: seq<nat>, ca: nat, da: Drain, b: seq<nat>, cb: nat, db: Drain)
    requires Drains(s, t, a, ca, da) && Drains(t, u, b, cb, db)
    ensures Drains(s, u, a + b, cb, db)
  {
    PathThen(s, t, u);
    SentThen(s.d, a, ca, da, t.d.handed, b, cb, db, u.d.handed);
  }

  // One row of the batch: sent and marked, or passed over.
  lemma RowSteps(s: System) returns (t: System)
    requires s.d.drain.Sending? && !s.d.drain.marking && s.d.drain.rest != []
    ensures var head := s.d.drain.rest[0];
      Drains(s, t, if head.event.readable then [head.num] else [], head.num, Advance(head.num, s.d.drain.rest[1..]))
  {
    var head := s.d.drain.rest[0];
    var after := Advance(head.num, s.d.drain.rest[1..]);
    if head.event.readable {
      var u := Next(s, DrainRow);
      assert Msgs([head.num]) == [RowMsg(head.num)];
      DrainsOne(s, DrainRow, [head.num], s.d.sendSeq, s.d.drain.(marking := true));
      t := Next(u, DrainCursor);
      assert u.d.up + Msgs([]) == u.d.up;
      DrainsOne(u, DrainCursor, [], head.num, after);
      DrainsThen(s, u, t, [head.num], s.d.sendSeq, s.d.drain.(marking := true), [], head.num, after);
      assert [head.num] + [] == [head.num];
    } else {
      t := Next(s, DrainCursor);
      assert s.d.up + Msgs([]) == s.d.up;
      DrainsOne(s, DrainCursor, [], head.num, after);
    }
  }

  lemma ReadableHead(rows: seq<Row>)
    requires rows != []
    ensures ReadableNums(rows) == (if rows[0].event.readable then [rows[0].num] else []) + ReadableNums(rows[1..])
  {
    assert rows == [rows[0]] + rows[1..];
    assert ReadableNums([]) == [];
    assert [rows[0]][..0] == [];
    ReadableNumsConcat([rows[0]], rows[1..]);
  }

  lemma ReadablePrefix(rows: seq<Row>, k: nat)
    requires 0 < k <= |rows|
    ensures ReadableNums(rows[..k]) ==
      (if rows[0].event.readable then [rows[0].num] else []) + ReadableNums(rows[1..][..k - 1])
    ensures k == 1 ==> ReadableNums(rows[..1]) == if rows[0].event.readable then [rows[0].num] else []
  {
    ReadableHead(rows[..k]);
    assert rows[..k][1..] == rows[1..][..k - 1];
    assert ReadableNums([]) == [];
  }

  lemma SplitsAfterRow(rows: seq<Row>, p: nat)
    requires Ascending(rows) && 0 < p <= |rows|
    ensures SplitsAt(rows, rows[p - 1].num, p)
  {
  }

  // The first k rows of the batch.
  lemma {:induction false} RowsSteps(s: System, k: nat) returns (t: System)
    requires s.d.drain.Sending? && !s.d.drain.marking && 0 < k <= |s.d.drain.rest|
    ensures var rest := s.d.drain.rest;
      Drains(s, t, ReadableNums(rest[..k]), rest[k - 1].num, Advance(rest[k - 1].num, rest[k..]))
    decreases k
  {
    var rest := s.d.drain.rest;
    var u := RowSteps(s);
    ReadablePrefix(rest, k);
    if k == 1 {
      t := u;
    } else {
      t := RowsSteps(u, k - 1);
      assert rest[1..][k - 1..] == rest[k..];
      var head := rest[0];
      DrainsThen(s, u, t, if head.event.readable then [head.num] else [], head.num, Advance(head.num, rest[1..]),
                 ReadableNums(rest[1..][..k - 1]), rest[k - 1].num, Advance(rest[k - 1].num, rest[k..]));
    }
  }

  // Capturing the cursor and reading a batch that is not empty.
  lemma ReadSteps(s: System, from: nat) returns (t: System)
    requires s.q.hasStore && s.d.drain == Ready && Ascending(s.q.rows) && SplitsAt(s.q.rows, s.d.sendSeq, from) && from < |s.q.rows|
    ensures Drains(s, t, [], s.d.sendSeq, Sending(s.d.sendSeq, Take(s.q.rows[from..], DRAIN_BATCH), false))
  {
    var u := Next(s, DrainCapture);
    assert s.d.up + Msgs([]) == s.d.up;
    DrainsOne(s, DrainCapture, [], s.d.sendSeq, Reading(s.d.sendSeq));
    BatchAtSplit(s.q.rows, s.d.sendSeq, from, DRAIN_BATCH);
    t := Next(u, DrainBatch);
    var sending := Sending(s.d.sendSeq, Take(s.q.rows[from..], DRAIN_BATCH), false);
    DrainsOne(u, DrainBatch, [], s.d.sendSeq, sending);
    DrainsThen(s, u, t, [], s.d.sendSeq, Reading(s.d.sendSeq), [], s.d.sendSeq, sending);
  }

  // One batch, of which k rows are dealt with before the drain goes on or stops.
  lemma BatchSteps(s: System, from: nat, k: nat) returns (t: System)
    requires s.q.hasStore && s.d.drain == Ready && Ascending(s.q.rows) && SplitsAt(s.q.rows, s.d.sendSeq, from)
    requires 0 < k <= DRAIN_BATCH && from + k <= |s.q.rows|
    ensures Drains(s, t, ReadableNums(s.q.rows[from..from + k]), s.q.rows[from + k - 1].num, Ready)
  {
    var rows := s.q.rows;
    var batch := Take(rows[from..], DRAIN_BATCH);
    var cursor := rows[from + k - 1].num;
    var u := ReadSteps(s, from);
    var v := RowsSteps(u, k);
    assert batch[..k] == rows[from..from + k] && batch[k - 1] == rows[from + k - 1];
    var nums, after := ReadableNums(batch[..k]), Advance(cursor, batch[k..]);
    DrainsThen(s, u, v, [], s.d.sendSeq, Sending(s.d.sendSeq, batch, false), nums, cursor, after);
    assert [] + nums == nums;
    if batch[k..] == [] {
      t := v;
    } else {
      t := Next(v, DrainStop);
      assert v.d.up + Msgs([]) == v.d.up;
      DrainsOne(v, DrainStop, [], cursor, Ready);
      DrainsThen(s, v, t, nums, cursor, after, [], cursor, Ready);
      assert nums + [] == nums;
    }
  }

  // Any number of batches: the rows from..to are dealt with.
  lemma {:induction false} DrainSteps(s: System, from: nat, to: nat) returns (t: System)
    requires s.q.hasStore && s.d.drain == Ready && Ascending(s.q.rows) && SplitsAt(s.q.rows, s.d.sendSeq, from)
    requires from <= to <= |s.q.rows|
    ensures Drains(s, t, ReadableNums(s.q.rows[from..to]), CursorAfter(s.q.rows, s.d.sendSeq, from, to), Ready)
    decreases if from <= to then to - from else 0
  {
    var rows := s.q.rows;
    if from == to {
      t := s;
      assert rows[from..to] == [];
      DrainsNothing(s);
    } else {
      var k := if to - from < DRAIN_BATCH then to - from else DRAIN_BATCH;
      var u := BatchSteps(s, from, k);
      var mid := from + k;
      SplitsAfterRow(rows, mid);
      t := DrainSteps(u, mid, to);
      RangeThen(s, u, t, from, mid, to);
    }
  }

  lemma RangeThen(s: System, u: System, t: System, from: nat, mid: nat, to: nat)
    requires from < mid <= to <= |s.q.rows|
    requires Drains(s, u, ReadableNums(s.q.rows[from..mid]), s.q.rows[mid - 1].num, Ready)
    requires Drains(u, t, ReadableNums(s.q.rows[mid..to]), CursorAfter(s.q.rows, s.q.rows[mid - 1].num, mid, to), Ready)
    ensures Drains(s, t, ReadableNums(s.q.rows[from..to]), CursorAfter(s.q.rows, s.d.sendSeq, from, to), Ready)
  {
    var rows := s.q.rows;
    ReadableNumsSplit(rows, from, mid, to);
    DrainsThen(s, u, t, ReadableNums(rows[from..mid]), rows[mid - 1].num, Ready,
               ReadableNums(rows[mid..to]), CursorAfter(rows, rows[mid - 1].num, mid, to), Ready);
  }

  /** A drain is a flush and then drain steps alone: what the stream received is what those
      steps put on the protocol's queue. */
  method DrainTakesSteps(sp: Spool, now: int, disk: Disk, patience: nat, goodReads: nat, ghost s: System)
    returns (end: Outcome, ghost u: System, ghost t: System, ghost from: nat, ghost to: nat)
    requires sp.Valid() && Mirrors(sp, s) && sp.sink != null && sp.store != null
    modifies sp`buf, sp`bufBytes, sp`dropped, sp`sendSeq, sp.store, sp.sink
    ensures sp.Valid() && sp.store == old(sp.store) && sp.sink == old(sp.sink) && Mirrors(sp, t)
    ensures Steps(s, FlushLabels(s.q.buf, true, sp.maxMemory, sp.maxDisk, disk), u)
    ensures from <= to <= |u.q.rows|
    ensures Drains(u, t, ReadableNums(u.q.rows[from..to]), sp.sendSeq, Ready)
    ensures sp.sink.sent == old(sp.sink.sent) + ReadableNums(u.q.rows[from..to])
    ensures Reachable(s) ==> Reachable(t)
  {
    u := FlushSteps(s, sp.maxMemory, sp.maxDisk, disk);
    end, from, to := sp.DrainOnce(now, disk, patience, goodReads);
    t := DrainSteps(u, from, to);
    ReachesToo(s, FlushLabels(s.q.buf, true, sp.maxMemory, sp.maxDisk, disk), u);
    ghost var ls :| Steps(u, ls, t) && AllDrain(ls);
    ReachesToo(u, ls, t);
  }

  /** What holds of every state of every run holds of the object between its operations: at a
      reachable mirrored state no readable row at or below the send cursor is unsent, and the
      ack cursor is not above it. */
  lemma ObjectKeepsCursors(sp: Spool, s: System)
    requires Mirrors(sp, s) && Reachable(s) && sp.store != null
    ensures sp.ackSeq <= sp.sendSeq <= sp.store.last
    ensures forall r :: r in sp.store.rows && r.event.readable && r.num <= sp.sendSeq ==> r.num in s.d.handed
  {
    var states, labels :| IsRun(states, labels) && states[|labels|] == s;
    AckNeverPurgesUnsent(states, labels, |labels|);
  }
}
