/**
 The whole store-and-forward protocol: the spool's accounting and its delivery, stepping
 together over one table, from an empty spool through any run.
 */
module SpoolProtocol {
  import opened Options
  import opened SpoolTable
  import opened SpoolDelivery
  import Q = SpoolQueue

  datatype System = System(q: Q.Queue, d: Delivery)

  datatype Label =
    // producers, the flush and purge goroutines, administration
    | Enqueue(event: Event)
    | FlushTake
    | FlushCommit(flight: nat)
    | FlushFail(flight: nat)
    | FlushTrim(budget: nat)
    | BudgetDrop(target: int)
    | CountDrop(drop: nat, ok: bool)
    | ResetCounter(ok: bool)
    | Expire(cutoff: int)
    | Discard
    | Crash
    // stream lifecycle and drain goroutine
    | AttachSink
    | AttachRewind
    | Detach
    | CutStream
    | DrainCapture
    | DrainBatch
    | DrainRow
    | DrainCursor
    | DrainStop
    | PushSnapshot(num: nat)
    // server and receive goroutine
    | ServerRead(accept: bool, reply: bool)
    | ServerReadLeft(stream: nat, accept: bool)
    | AgentAck
    | AgentLimited
    | PurgeRows(ok: bool)

  function Begin(hasStore: bool): System {
    System(Q.Empty(hasStore), Start())
  }

  predicate Enabled(s: System, l: Label) {
    var q, d := s.q, s.d;
    match l
    case Enqueue(_) => true
    case FlushTake => q.hasStore && q.buf != []
    case FlushCommit(i) => i < |q.flights|
    case FlushFail(i) => i < |q.flights|
    case FlushTrim(_) => !q.hasStore
    case BudgetDrop(_) => q.hasStore
    case CountDrop(i, _) => i < |q.uncounting|
    case ResetCounter(_) => true
    case Expire(_) => q.hasStore
    case Discard => true
    case Crash => true
    case AttachSink => d.drain.Off? && d.up == [] && d.down == []
    case AttachRewind => d.drain.Starting?
    case Detach => d.drain.Ready?
    case CutStream => d.drain.Off?
    case DrainCapture => d.drain.Ready? && q.hasStore
    case DrainBatch => d.drain.Reading? && q.hasStore
    case DrainRow => AtRow(d, true)
    case DrainCursor => CanMark(d)
    case DrainStop => d.drain.Reading? || (d.drain.Sending? && !d.drain.marking)
    case PushSnapshot(_) => true
    case ServerRead(_, _) => d.up != []
    case ServerReadLeft(i, _) => i < |d.left| && d.left[i] != []
    case AgentAck => d.down != [] && d.down[0].Ack? && d.purge.None?
    case AgentLimited => d.down != [] && d.down[0].RateLimit?
    case PurgeRows(ok) => d.purge.Some? && (ok ==> q.hasStore)
  }

  function Next(s: System, l: Label): System
    requires Enabled(s, l)
  {
    var q, d := s.q, s.d;
    match l
    case Enqueue(e) => s.(q := Q.Send(q, e))
    case FlushTake => s.(q := Q.TakeBatch(q))
    case FlushCommit(i) => s.(q := Q.CommitBatch(q, i))
    case FlushFail(i) => s.(q := Q.PutBack(q, i))
    case FlushTrim(budget) => s.(q := Q.TrimMemory(q, budget))
    case BudgetDrop(target) => s.(q := Q.DropOldest(q, target))
    case CountDrop(i, ok) => s.(q := Q.CountDrops(q, i, ok))
    case ResetCounter(ok) => s.(q := Q.ResetDropped(q, ok))
    case Expire(cutoff) => s.(q := Q.Expire(q, cutoff))
    case Discard => s.(q := Q.Discard(q))
    case Crash => System(Q.Restart(q), Restart(d))
    case AttachSink => s.(d := d.(drain := Starting))
    case AttachRewind => s.(d := Rewind(d, q.rows))
    case Detach => s.(d := d.(drain := Off))
    case CutStream => s.(d := Cut(d))
    case DrainCapture => s.(d := d.(drain := Reading(d.sendSeq)))
    case DrainBatch => s.(d := DrainRead(d, q.rows))
    case DrainRow => s.(d := DrainSend(d))
    case DrainCursor => s.(d := MarkHead(d))
    case DrainStop => s.(d := d.(drain := Ready))
    case PushSnapshot(k) => s.(d := d.(up := d.up + [Snapshot(k)]))
    case ServerRead(accept, reply) => s.(d := Deliver(d, accept, reply))
    case ServerReadLeft(i, accept) => s.(d := ReadLeft(d, i, accept))
    case AgentAck => s.(d := RecvAck(d))
    case AgentLimited => s.(d := RecvLimit(d))
    case PurgeRows(ok) =>
      if ok then System(Q.Purge(q, d.purge.value), Purged(d, q.rows)) else s.(d := d.(purge := None))
  }

  ghost predicate Step(s: System, l: Label, t: System) {
    Enabled(s, l) && t == Next(s, l)
  }

  // The states a run passes through, and the steps between them.
  ghost predicate IsRun(states: seq<System>, labels: seq<Label>) {
    && |states| == |labels| + 1
    && (states[0] == Begin(true) || states[0] == Begin(false))
    && forall i {:trigger labels[i]} :: 0 <= i < |labels| ==> Step(states[i], labels[i], states[i + 1])
  }

  ghost predicate SystemInv(s: System) {
    Q.QueueInv(s.q) && DeliveryInv(s.q.rows, s.q.last, s.d)
  }

  // ------------------------------------------------------------------- preservation

  predicate TouchesQueue(l: Label) {
    || l.Enqueue? || l.FlushTake? || l.FlushCommit? || l.FlushFail? || l.FlushTrim? || l.BudgetDrop?
    || l.CountDrop? || l.ResetCounter? || l.Expire? || l.Discard?
  }

  lemma QueueStepLeavesDelivery(s: System, l: Label)
    requires Enabled(s, l) && TouchesQueue(l)
    ensures Next(s, l).d == s.d
  {
  }

  lemma QueueStepKeepsQueue(s: System, l: Label)
    requires Q.QueueInv(s.q) && Enabled(s, l) && TouchesQueue(l)
    ensures Q.QueueInv(Next(s, l).q)
  {
    match l
    case Enqueue(e) => Q.SendKeeps(s.q, e);
    case FlushTake => Q.TakeBatchKeeps(s.q);
    case FlushCommit(i) => Q.CommitBatchKeeps(s.q, i);
    case FlushFail(i) => Q.PutBackKeeps(s.q, i);
    case FlushTrim(budget) => Q.TrimMemoryKeeps(s.q, budget);
    case BudgetDrop(target) => Q.DropOldestKeeps(s.q, target);
    case CountDrop(i, ok) => Q.CountDropsKeeps(s.q, i, ok);
    case ResetCounter(ok) => Q.ResetKeeps(s.q, ok);
    case Expire(cutoff) => Q.ExpireKeeps(s.q, cutoff);
    case Discard => Q.DiscardKeeps(s.q);
  }

  // No queue step rewrites a key: rows disappear or come with a new number.
  lemma QueueStepRows(s: System, l: Label)
    requires Q.QueueInv(s.q) && Enabled(s, l) && TouchesQueue(l)
    ensures s.q.last <= Next(s, l).q.last
    ensures forall r :: r in Next(s, l).q.rows ==> r in s.q.rows || s.q.last < r.num
  {
    if l.FlushCommit? { AppendTableOk(s.q.rows, s.q.last, s.q.flights[l.flight]); }
  }

  lemma QueueStepKeeps(s: System, l: Label)
    requires SystemInv(s) && Enabled(s, l) && TouchesQueue(l)
    ensures SystemInv(Next(s, l))
  {
    QueueStepKeepsQueue(s, l);
    QueueStepRows(s, l);
    RowsChangeKeeps(s.q.rows, s.q.last, Next(s, l).q.rows, Next(s, l).q.last, s.d);
  }

  // Moves of the drain state that change nothing the invariants look at.
  lemma BindKeeps(rows: seq<Row>, last: nat, d: Delivery)
    requires DeliveryInv(rows, last, d) && d.drain.Off? && d.up == []
    ensures DeliveryInv(rows, last, d.(drain := Starting))
  {
  }

  lemma DetachKeeps(rows: seq<Row>, last: nat, d: Delivery)
    requires DeliveryInv(rows, last, d) && d.drain.Ready?
    ensures DeliveryInv(rows, last, d.(drain := Off))
  {
  }

  lemma CaptureKeeps(rows: seq<Row>, last: nat, d: Delivery)
    requires DeliveryInv(rows, last, d) && d.drain.Ready?
    ensures DeliveryInv(rows, last, d.(drain := Reading(d.sendSeq)))
  {
  }

  lemma ForgetPurgeKeeps(rows: seq<Row>, last: nat, d: Delivery)
    requires DeliveryInv(rows, last, d)
    ensures DeliveryInv(rows, last, d.(purge := None))
  {
  }

  lemma DeliveryStepKeeps(s: System, l: Label)
    requires SystemInv(s) && Enabled(s, l) && !TouchesQueue(l) && !l.Crash? && !l.PurgeRows?
    ensures SystemInv(Next(s, l))
  {
    var rows, last, d := s.q.rows, s.q.last, s.d;
    match l
    case AttachSink => BindKeeps(rows, last, d);
    case AttachRewind => AttachRewindKeeps(rows, last, d);
    case Detach => DetachKeeps(rows, last, d);
    case CutStream => CutKeeps(rows, last, d);
    case DrainCapture => CaptureKeeps(rows, last, d);
    case DrainBatch => DrainReadKeeps(rows, last, d);
    case DrainRow => DrainSendKeeps(rows, last, d);
    case DrainCursor => MarkHeadKeeps(rows, last, d);
    case DrainStop => StopKeeps(rows, last, d);
    case PushSnapshot(k) => SnapshotKeeps(rows, last, d, k);
    case ServerRead(accept, reply) => DeliverKeeps(rows, last, d, accept, reply);
    case ServerReadLeft(i, accept) => ReadLeftKeeps(rows, last, d, i, accept);
    case AgentAck => RecvAckKeeps(rows, last, d);
    case AgentLimited => RecvLimitKeeps(rows, last, d);
  }

  lemma PurgeStepKeeps(s: System, ok: bool)
    requires SystemInv(s) && Enabled(s, PurgeRows(ok))
    ensures SystemInv(Next(s, PurgeRows(ok)))
  {
    var rows, last, d := s.q.rows, s.q.last, s.d;
    if ok {
      Q.PurgeKeeps(s.q, d.purge.value);
      PurgedKeeps(rows, last, d);
      RowsChangeKeeps(rows, last, Q.Purge(s.q, d.purge.value).rows, last, Purged(d, rows));
    } else {
      ForgetPurgeKeeps(rows, last, d);
    }
  }

  lemma CrashStepKeeps(s: System)
    requires SystemInv(s)
    ensures SystemInv(Next(s, Crash))
  {
    Q.RestartKeeps(s.q);
    RestartKeeps(s.q.rows, s.q.last, s.d);
  }

  lemma StepKeeps(s: System, l: Label)
    requires SystemInv(s) && Enabled(s, l)
    ensures SystemInv(Next(s, l))
  {
    if TouchesQueue(l) {
      QueueStepKeeps(s, l);
    } else if l.Crash? {
      CrashStepKeeps(s);
    } else if l.PurgeRows? {
      PurgeStepKeeps(s, l.ok);
    } else {
      DeliveryStepKeeps(s, l);
    }
  }

  lemma StepHolds(s: System, l: Label, t: System)
    requires SystemInv(s) && Step(s, l, t)
    ensures SystemInv(t)
  {
    StepKeeps(s, l);
  }

  lemma BeginHolds(hasStore: bool)
    ensures SystemInv(Begin(hasStore))
  {
    assert EventsOf([]) == [];
  }

  lemma {:induction false} RunHolds(states: seq<System>, labels: seq<Label>, i: nat)
    requires IsRun(states, labels) && i < |states|
    ensures SystemInv(states[i])
  {
    if i == 0 {
      BeginHolds(states[0] == Begin(true));
    } else {
      RunHolds(states, labels, i - 1);
      StepHolds(states[i - 1], labels[i - 1], states[i]);
    }
  }

  // ------------------------------------------------------------------ continuations

  // The labels lead from one state to the other, whatever state that is.
  ghost predicate Steps(s: System, ls: seq<Label>, t: System)
    decreases |ls|
  {
    if ls == [] then s == t else Enabled(s, ls[0]) && Steps(Next(s, ls[0]), ls[1..], t)
  }

  lemma {:induction false} StepsConcat(s: System, a: seq<Label>, t: System, b: seq<Label>, u: System)
    requires Steps(s, a, t) && Steps(t, b, u)
    ensures Steps(s, a + b, u)
    decreases |a|
  {
    if a == [] {
      assert a + b == b;
    } else {
      StepsConcat(Next(s, a[0]), a[1..], t, b, u);
      assert (a + b)[1..] == a[1..] + b;
    }
  }

  lemma OneStep(s: System, l: Label)
    requires Enabled(s, l)
    ensures Steps(s, [l], Next(s, l))
  {
    assert [l][1..] == [];
  }

  // ------------------------------------------------------------------ main results

  /** Whatever numbers the acks name and however the goroutines interleave, the ack cursor
      never passes the send cursor, and no ack ever deletes a readable row that was not
      handed to a stream first. */
  lemma AckNeverPurgesUnsent(states: seq<System>, labels: seq<Label>, i: nat)
    requires IsRun(states, labels) && i < |states|
    ensures var t := states[i];
      && t.d.ackSeq <= t.d.sendSeq <= t.q.last
      && (forall r :: r in t.q.rows && r.event.readable && r.num <= t.d.sendSeq ==> r.num in t.d.handed)
      && (forall r :: r in t.d.purged && r.event.readable ==> r.num in t.d.handed)
  {
    RunHolds(states, labels, i);
  }

  lemma {:induction false} RefusalsSetFlag(states: seq<System>, labels: seq<Label>, i: nat)
    requires IsRun(states, labels) && i < |states|
    ensures !states[i].d.limited ==> states[i].d.refused == {}
  {
    if i > 0 {
      RefusalsSetFlag(states, labels, i - 1);
      assert Step(states[i - 1], labels[i - 1], states[i]);
    }
  }

  /** As long as only acks naming spool rows moved the cursor, every readable row deleted by
      an ack had been answered by the server: received, or refused by its limiter. Hence if
      nothing was refused, it had been received. */
  lemma PurgedRowsWereReceived(states: seq<System>, labels: seq<Label>, i: nat)
    requires IsRun(states, labels) && i < |states| && !states[i].d.tainted
    ensures var d := states[i].d;
      && (forall r :: r in d.purged && r.event.readable ==> r.num in d.received + d.refused)
      && (!d.limited ==> forall r :: r in d.purged && r.event.readable ==> r.num in d.received)
  {
    RunHolds(states, labels, i);
    RefusalsSetFlag(states, labels, i);
  }

  // After this ack the agent may delete only rows the server has taken.
  ghost predicate Lossless(s: System)
    requires Enabled(s, AgentAck)
  {
    forall r :: r in s.q.rows && r.event.readable && r.num <= RecvAck(s.d).ackSeq ==> r.num in s.d.received
  }

  /** Whatever number an ack names and whatever happened before, it is lossless exactly when
      every readable stored row at or below the cursor it sets, all of which were handed to
      some stream, has been received. */
  lemma AckLosslessIff(states: seq<System>, labels: seq<Label>, i: nat)
    requires IsRun(states, labels) && i < |states| && Enabled(states[i], AgentAck)
    ensures Lossless(states[i]) <==>
      forall r :: r in states[i].q.rows && r.event.readable && r.num in states[i].d.handed - states[i].d.received
        ==> RecvAck(states[i].d).ackSeq < r.num
  {
    RunHolds(states, labels, i);
  }

  /** On a stream that did not begin above an unanswered stored row, whatever acks came
      before, an ack naming a row or a snapshot is lossless exactly when no row still in
      flight, and no row refused and never accepted, lies at or below the cursor it sets. */
  lemma LiveAckLosslessIff(states: seq<System>, labels: seq<Label>, i: nat)
    requires IsRun(states, labels) && i < |states| && Enabled(states[i], AgentAck)
    requires Live(states[i].d) && !states[i].d.skipped
    ensures var d := states[i].d;
      Lossless(states[i]) <==>
        forall r :: r in states[i].q.rows && r.event.readable && r.num in (RowNums(d.up) + d.refused) - d.received
          ==> RecvAck(d).ackSeq < r.num
  {
    RunHolds(states, labels, i);
    var s := states[i];
    assert RecvAck(s.d).ackSeq <= s.d.sendSeq <= Cursor(s.d);
    forall r | r in s.q.rows && r.event.readable && r.num <= RecvAck(s.d).ackSeq
      ensures r.num in s.d.received || r.num in (RowNums(s.d.up) + s.d.refused) - s.d.received {}
  }

  /** A stream begins above an unanswered stored row only if an ack naming a snapshot moved
      the cursor before. */
  lemma SkipsOnlyAfterSnapshotAck(states: seq<System>, labels: seq<Label>, i: nat)
    requires IsRun(states, labels) && i < |states|
    ensures states[i].d.skipped ==> states[i].d.tainted
  {
    RunHolds(states, labels, i);
  }

  /** For an ack naming a row, what is in flight never matters: only refused rows do. */
  lemma RowAckLosesExactlyRefused(states: seq<System>, labels: seq<Label>, i: nat)
    requires IsRun(states, labels) && i < |states| && Enabled(states[i], AgentAck)
    requires !RecvAck(states[i].d).tainted
    ensures Lossless(states[i]) <==>
      forall r :: r in states[i].q.rows && r.event.readable && r.num in states[i].d.refused - states[i].d.received
        ==> RecvAck(states[i].d).ackSeq < r.num
  {
    var s := states[i];
    RunHolds(states, labels, i);
    RecvAckChain(s.q.rows, s.d);
  }

  /** Every accepted event is in exactly one place, and the byte counter is exact. */
  lemma EventsConserved(states: seq<System>, labels: seq<Label>, i: nat)
    requires IsRun(states, labels) && i < |states|
    ensures var q := states[i].q;
      && q.accepted ==
           multiset(q.buf) + Q.InFlight(q.flights) + multiset(EventsOf(q.rows))
           + q.acked + q.expired + q.overBudget + q.discarded + q.crashed
      && q.bufBytes == Sizes(q.buf)
  {
    RunHolds(states, labels, i);
  }

  // --------------------------------------------------------------- what an ack removes

  lemma StepKeepsPurge(s: System, l: Label)
    requires Enabled(s, l) && s.d.purge.Some? && !l.PurgeRows? && !l.Crash?
    ensures Next(s, l).d.purge == s.d.purge
  {
    if TouchesQueue(l) { QueueStepLeavesDelivery(s, l); }
  }

  lemma {:induction false} PurgeWaits(states: seq<System>, labels: seq<Label>, i: nat, j: nat)
    requires IsRun(states, labels) && i <= j < |states| && states[i].d.purge.Some?
    requires forall k {:trigger labels[k]} :: i <= k < j ==> !labels[k].PurgeRows? && !labels[k].Crash?
    ensures states[j].d.purge == states[i].d.purge
    decreases j
  {
    if i < j {
      PurgeWaits(states, labels, i, j - 1);
      assert Step(states[j - 1], labels[j - 1], states[j]);
      StepKeepsPurge(states[j - 1], labels[j - 1]);
    }
  }

  // No step puts a number back that is not new.
  lemma StepAddsOnlyNew(s: System, l: Label)
    requires SystemInv(s) && Enabled(s, l)
    ensures s.q.last <= Next(s, l).q.last
    ensures forall r :: r in Next(s, l).q.rows ==> r in s.q.rows || s.q.last < r.num
  {
    if TouchesQueue(l) { QueueStepRows(s, l); } else { OthersAddNoRows(s, l); }
  }

  lemma OthersAddNoRows(s: System, l: Label)
    requires Enabled(s, l) && !TouchesQueue(l)
    ensures Next(s, l).q.hasStore == s.q.hasStore && Next(s, l).q.last == s.q.last
    ensures forall r :: r in Next(s, l).q.rows ==> r in s.q.rows
  {
  }

  lemma {:induction false} GoneForGood(states: seq<System>, labels: seq<Label>, i: nat, j: nat, lo: nat, hi: nat)
    requires IsRun(states, labels) && i <= j < |states| && hi <= states[i].q.last
    requires forall r :: r in states[i].q.rows ==> r.num <= lo || hi < r.num
    ensures states[i].q.last <= states[j].q.last
    ensures forall r :: r in states[j].q.rows ==> r.num <= lo || hi < r.num
    decreases j
  {
    if i < j {
      GoneForGood(states, labels, i, j - 1, lo, hi);
      RunHolds(states, labels, j - 1);
      assert Step(states[j - 1], labels[j - 1], states[j]);
      StepAddsOnlyNew(states[j - 1], labels[j - 1]);
    }
  }

  // The purge of an ack removes every row up to the smaller of the number and the cursor.
  lemma PurgeRemovesCovered(s: System, p: nat)
    requires Enabled(s, PurgeRows(true)) && s.d.purge == Some(p)
    ensures forall r :: r in Next(s, PurgeRows(true)).q.rows <==> r in s.q.rows && p < r.num
  {
  }

  /** An ack is never wasted: once its purge has been carried out, whatever happened between
      and whatever happens later, no row it newly covered is stored any more. */
  lemma AckedRowsLeave(states: seq<System>, labels: seq<Label>, i: nat, j: nat, k: nat)
    requires IsRun(states, labels) && i < j < k < |states| && labels[i] == AgentAck && labels[j] == PurgeRows(true)
    requires forall x {:trigger labels[x]} :: i < x < j ==> !labels[x].PurgeRows? && !labels[x].Crash?
    ensures states[i].d.down != [] && states[i].d.down[0].Ack?
    ensures var n, d := states[i].d.down[0].num, states[i].d;
      n <= 0x7fff_ffff_ffff_ffff ==>
        forall r :: r in states[k].q.rows ==> r.num <= d.ackSeq || n < r.num || d.sendSeq < r.num
  {
    assert Step(states[i], labels[i], states[i + 1]) && Step(states[j], labels[j], states[j + 1]);
    RunHolds(states, labels, i);
    RunHolds(states, labels, j);
    var d := states[i].d;
    var p := AckTarget(d.down[0].num, d.sendSeq, d.ackSeq);
    if d.ackSeq < p {
      PurgeWaits(states, labels, i + 1, j);
      PurgeRemovesCovered(states[j], p);
      GoneForGood(states, labels, i, j, d.sendSeq, d.sendSeq);
      GoneForGood(states, labels, j + 1, k, d.ackSeq, p);
    }
  }

  // ------------------------------------------------------------- what the ledgers mean

  /** Each ledger has its own cause: events count as acked only when an ack's purge deletes
      them, as expired only by an expiry, as over budget only by a budget drop or trim, as
      discarded only by a discard or a commit that comes after it, as lost in a crash only by
      a crash; and as accepted only when they are queued. */
  lemma LedgersHaveTheirCauses(s: System, l: Label)
    requires Enabled(s, l)
    ensures var p, q := s.q, Next(s, l).q;
      && (q.acked != p.acked ==> l == PurgeRows(true))
      && (q.expired != p.expired ==> l.Expire?)
      && (q.overBudget != p.overBudget ==> l.BudgetDrop? || l.FlushTrim?)
      && (q.discarded != p.discarded ==> l.Discard? || (l.FlushCommit? && !p.hasStore))
      && (q.crashed != p.crashed ==> l.Crash?)
      && (q.accepted != p.accepted ==> l.Enqueue?)
      && (l.Enqueue? ==> q.accepted == p.accepted + multiset{l.event})
  {
  }

  /** The server answers every row it takes, on a live stream or a dead one: it is received or
      refused, no other row is, and the stream is read in order. */
  lemma ServerAnswers(s: System, l: Label)
    requires Enabled(s, l)
    ensures var d, d' := s.d, Next(s, l).d;
      && (l.ServerRead? ==> d'.up == d.up[1..] && Answers(d, d', d.up[0], l.accept))
      && (l.ServerReadLeft? ==> d'.left == d.left[l.stream := d.left[l.stream][1..]] && Answers(d, d', d.left[l.stream][0], l.accept))
      && (!l.ServerRead? && !l.ServerReadLeft? ==> d'.received == d.received && d'.refused == d.refused)
  {
    if TouchesQueue(l) { QueueStepLeavesDelivery(s, l); }
  }

  ghost predicate Answers(d: Delivery, d': Delivery, m: Message, accept: bool) {
    && d'.received == d.received + (if accept && m.RowMsg? then {m.num} else {})
    && d'.refused == d.refused + (if !accept && m.RowMsg? then {m.num} else {})
    && (d'.limited <==> d.limited || !accept)
  }

  /** From every state without a stream the agent can connect again, and starts at its ack
      cursor on an empty stream. */
  lemma CanReconnect(s: System) returns (t: System)
    requires s.d.drain.Off?
    ensures Steps(s, [CutStream, AttachSink, AttachRewind], t)
    ensures t.q == s.q && t.d.drain == Ready && t.d.sendSeq == t.d.ackSeq == s.d.ackSeq && t.d.up == [] && t.d.down == []
    ensures t.d.left == s.d.left + [s.d.up]
  {
    var a := Next(s, CutStream);
    var b := Next(a, AttachSink);
    t := Next(b, AttachRewind);
    OneStep(s, CutStream);
    OneStep(a, AttachSink);
    OneStep(b, AttachRewind);
    StepsConcat(a, [AttachSink], b, [AttachRewind], t);
    StepsConcat(s, [CutStream], a, [AttachSink] + [AttachRewind], t);
    assert [CutStream] + ([AttachSink] + [AttachRewind]) == [CutStream, AttachSink, AttachRewind];
  }

  // The steps that do not belong to the drain or to the life of a stream.
  predicate AnyTime(l: Label) {
    TouchesQueue(l) || l.Crash? || l.PushSnapshot? || l.ServerRead? || l.ServerReadLeft? || l.AgentAck? || l.AgentLimited? || l.PurgeRows?
  }

  /** The model forbids no interleaving: producers, flushes, expiries, drops, acks, refusals,
      purges, the server and crashes may step at every point of the drain; and a sent row may
      be marked, a pass given up or a row sent whatever happened to queue, cursor and pause
      meanwhile. */
  lemma NothingWaitsForTheDrain(s: System, drain: Drain, d: Delivery, q: Q.Queue, l: Label)
    ensures AnyTime(l) ==> (Enabled(s, l) <==> Enabled(s.(d := s.d.(drain := drain)), l))
    ensures l in {DrainRow, DrainCursor, DrainStop, AttachRewind, Detach} && d.drain == s.d.drain ==>
      (Enabled(s, l) <==> Enabled(System(q, d), l))
  {
  }

  // ----------------------------------------------------------------- the drop counter

  // From i to j the counter is neither reset nor lost: no reset, no discard, and no restart
  // of a spool that counts in memory only.
  ghost predicate CounterLives(states: seq<System>, labels: seq<Label>, i: nat, j: nat)
    requires |states| == |labels| + 1
  {
    forall k {:trigger labels[k]} :: i <= k < j && k < |labels| ==>
      !labels[k].ResetCounter? && !labels[k].Discard? && (labels[k].Crash? ==> states[k].q.hasStore)
  }

  lemma StepKeepsCleared(s: System, l: Label)
    requires Q.QueueInv(s.q) && Enabled(s, l)
    requires !l.ResetCounter? && !l.Discard? && (l.Crash? ==> s.q.hasStore)
    ensures Next(s, l).q.cleared == s.q.cleared
  {
    if !TouchesQueue(l) { OthersKeepCleared(s, l); }
  }

  lemma OthersKeepCleared(s: System, l: Label)
    requires Q.QueueInv(s.q) && Enabled(s, l) && !TouchesQueue(l) && (l.Crash? ==> s.q.hasStore)
    ensures Next(s, l).q.cleared == s.q.cleared
  {
    if l.Crash? { assert s.q.memDropped == 0; }
  }

  lemma {:induction false} ClearedKept(states: seq<System>, labels: seq<Label>, i: nat, j: nat)
    requires IsRun(states, labels) && i <= j < |states| && CounterLives(states, labels, i, j)
    ensures states[j].q.cleared == states[i].q.cleared
    decreases j
  {
    if i < j {
      ClearedKept(states, labels, i, j - 1);
      RunHolds(states, labels, j - 1);
      assert Step(states[j - 1], labels[j - 1], states[j]);
      StepKeepsCleared(states[j - 1], labels[j - 1]);
    }
  }

  lemma CounterBalance(s: System)
    requires SystemInv(s)
    ensures Q.Dropped(s.q) + Q.Sum(s.q.uncounting) + s.q.cleared + s.q.miscounted == |s.q.overBudget|
  {
  }

  /** Between any two points of a run with no reset and no loss of the counter in between,
      whether the spool has a store or not, across restarts and overlapping drops: the
      counter grows by the events dropped over budget, but for those whose count is still to
      be written at either point and those whose count failed or died with the process. */
  lemma DropsAccounted(states: seq<System>, labels: seq<Label>, i: nat, j: nat)
    requires IsRun(states, labels) && i <= j < |states| && CounterLives(states, labels, i, j)
    ensures var p, q := states[i].q, states[j].q;
      Q.Dropped(q) + Q.Sum(q.uncounting) + (q.miscounted - p.miscounted)
        == Q.Dropped(p) + Q.Sum(p.uncounting) + (|q.overBudget| - |p.overBudget|)
  {
    RunHolds(states, labels, i);
    RunHolds(states, labels, j);
    ClearedKept(states, labels, i, j);
    CounterBalance(states[i]);
    CounterBalance(states[j]);
  }

  lemma ResetClears(s: System, t: System, ok: bool)
    requires SystemInv(s) && Step(s, ResetCounter(ok), t) && (ok || !s.q.hasStore)
    ensures Q.Dropped(t.q) == 0 && t.q.uncounting == s.q.uncounting
    ensures t.q.overBudget == s.q.overBudget && t.q.miscounted == s.q.miscounted
  {
  }

  /** Since a reset that took effect, the counter reports exactly the events dropped over
      budget since then, plus those dropped before it whose count came later, less those
      whose count is still to come or was lost; so it is exact when these cancel out. */
  lemma DroppedCountsSinceReset(states: seq<System>, labels: seq<Label>, i: nat, j: nat)
    requires IsRun(states, labels) && i < j < |states|
    requires labels[i].ResetCounter? && (labels[i].ok || !states[i].q.hasStore)
    requires CounterLives(states, labels, i + 1, j)
    ensures var p, q := states[i].q, states[j].q;
      Q.Dropped(q) + Q.Sum(q.uncounting) + (q.miscounted - p.miscounted)
        == Q.Sum(p.uncounting) + (|q.overBudget| - |p.overBudget|)
    ensures var p, q := states[i].q, states[j].q;
      Q.Dropped(q) == |q.overBudget| - |p.overBudget| <==>
        Q.Sum(p.uncounting) == Q.Sum(q.uncounting) + (q.miscounted - p.miscounted)
  {
    assert Step(states[i], labels[i], states[i + 1]);
    RunHolds(states, labels, i);
    ResetClears(states[i], states[i + 1], labels[i].ok);
    DropsAccounted(states, labels, i + 1, j);
  }

  // ------------------------------------------------- why the two hypotheses are needed

  ghost predicate Reachable(t: System) {
    exists states, labels :: IsRun(states, labels) && states[|labels|] == t
  }

  lemma BeginReachable(hasStore: bool)
    ensures Reachable(Begin(hasStore))
  {
    var none: seq<Label> := [];
    assert IsRun([Begin(hasStore)], none) && [Begin(hasStore)][|none|] == Begin(hasStore);
  }

  lemma Continue(s: System, l: Label) returns (t: System)
    requires Reachable(s) && Enabled(s, l)
    ensures Reachable(t) && t == Next(s, l)
  {
    t := Next(s, l);
    var states, labels :| IsRun(states, labels) && states[|labels|] == s;
    var labels', states' := labels + [l], states + [t];
    forall i | 0 <= i < |labels'| ensures Step(states'[i], labels'[i], states'[i + 1]) {
      if i < |labels| { assert labels'[i] == labels[i]; }
    }
    assert IsRun(states', labels') && states'[|labels'|] == t;
  }

  // Any steps from a reachable state lead to a reachable state.
  lemma {:induction false} StepsReach(s: System, ls: seq<Label>, t: System)
    requires Reachable(s) && Steps(s, ls, t)
    ensures Reachable(t)
    decreases |ls|
  {
    if ls != [] {
      var u := Continue(s, ls[0]);
      StepsReach(u, ls[1..], t);
    }
  }

  lemma {:induction false} QueueAll(events: seq<Event>) returns (t: System)
    ensures Reachable(t) && t.q.buf == events && t.d == Start()
    ensures t.q.hasStore && t.q.flights == [] && t.q.rows == [] && t.q.last == 0
  {
    if events == [] {
      t := Begin(true);
      var none: seq<Label> := [];
      assert IsRun([t], none) && [t][|none|] == t;
    } else {
      var n := |events| - 1;
      t := QueueAll(events[..n]);
      t := Continue(t, Enqueue(events[n]));
    }
  }

  lemma StoreAll(events: seq<Event>) returns (t: System)
    requires events != []
    ensures Reachable(t) && t.q.hasStore && t.q.rows == Numbered(events, 0) && t.d == Start()
    ensures t.q.buf == [] && t.q.flights == [] && t.q.last == |events|
  {
    t := QueueAll(events);
    t := Continue(t, FlushTake);
    t := Continue(t, FlushCommit(0));
    assert t.q.rows == Numbered(events, 0);
  }

  // A stored batch, read by the drain and about to be sent.
  lemma BatchInHand(events: seq<Event>) returns (t: System)
    requires 0 < |events| <= DRAIN_BATCH
    ensures Reachable(t) && t.q.hasStore && t.q.rows == Numbered(events, 0)
    ensures t.q.buf == [] && t.q.flights == [] && t.q.last == |events|
    ensures t.d == Start().(drain := Sending(0, Numbered(events, 0), false))
  {
    t := StoreAll(events);
    t := Continue(t, AttachSink);
    t := Continue(t, AttachRewind);
    t := Continue(t, DrainCapture);
    RowsAllAbove(Numbered(events, 0), 0);
    t := Continue(t, DrainBatch);
  }

  // The drain sends and marks the row at the head of its batch.
  lemma SendHead(s: System) returns (t: System)
    requires Reachable(s) && AtRow(s.d, true)
    ensures Reachable(t) && t == s.(d := MarkHead(DrainSend(s.d)))
  {
    t := Continue(s, DrainRow);
    t := Continue(t, DrainCursor);
  }

  // The agent takes an ack and deletes what it covers.
  lemma PurgeNow(s: System, r: Row) returns (t: System)
    requires Reachable(s) && Enabled(s, AgentAck) && s.q.hasStore
    requires s.d.ackSeq < RecvAck(s.d).ackSeq && r in s.q.rows && r.num <= RecvAck(s.d).ackSeq
    ensures Reachable(t) && t.d == Purged(RecvAck(s.d), s.q.rows) && r in t.d.purged
    ensures r !in t.q.rows
  {
    t := Continue(s, AgentAck);
    t := Continue(t, PurgeRows(true));
  }

  // A snapshot and the only row are in flight.
  lemma SnapshotAheadOfRow(e: Event) returns (t: System)
    requires e.readable
    ensures Reachable(t) && t.q.hasStore && t.q.rows == [Row(1, e)] && t.d.drain == Ready
    ensures t.d == Start().(up := [Snapshot(1), RowMsg(1)], sendSeq := 1, drain := Ready, handed := {1})
  {
    t := BatchInHand([e]);
    assert Numbered([e], 0) == [Row(1, e)];
    t := Continue(t, PushSnapshot(1));
    t := SendHead(t);
  }

  /** An ack naming a snapshot can delete a row that is still in flight: when the stream is
      then cut, the row is neither stored nor received nor refused. */
  lemma SnapshotAckCanLoseRow() returns (t: System, r: Row)
    ensures Reachable(t)
    ensures r in t.d.purged && r.event.readable && r !in t.q.rows
    ensures t.d.up == [] && t.d.received == {} && !t.d.limited
  {
    r := Row(1, Event("e", 0, 1, true));
    t := SnapshotAheadOfRow(r.event);
    t := Continue(t, ServerRead(true, true));
    assert t.d.down == [Ack(1, false)];
    t := PurgeNow(t, r);
    t := Continue(t, Detach);
    t := Continue(t, CutStream);
  }

  // Two rows of a batch of three are in flight.
  lemma TwoOfThreeSent(e: Event) returns (t: System)
    requires e.readable
    ensures Reachable(t) && t.q.hasStore && t.q.rows == [Row(1, e), Row(2, e), Row(3, e)]
    ensures t.d == Start().(up := [RowMsg(1), RowMsg(2)], sendSeq := 2, drain := Sending(2, [Row(3, e)], false), handed := {1, 2})
  {
    t := BatchInHand([e, e, e]);
    assert Numbered([e, e, e], 0) == [Row(1, e), Row(2, e), Row(3, e)];
    t := SendHead(t);
    assert t.d.drain == Sending(1, [Row(2, e), Row(3, e)], false);
    t := SendHead(t);
  }

  // The server refused the first and took the second; the agent has heard of the refusal.
  lemma FirstRefused(e: Event) returns (t: System)
    requires e.readable
    ensures Reachable(t) && t.q.hasStore && t.q.rows == [Row(1, e), Row(2, e), Row(3, e)]
    ensures t.d.down == [Ack(2, true)] && t.d.sendSeq == 0 && t.d.ackSeq == 0 && t.d.purge == None
    ensures t.d.drain == Sending(2, [Row(3, e)], false) && t.d.refused == {1} && t.d.received == {2} && !t.d.tainted
  {
    t := OneOfTwoRefused(e);
    t := Continue(t, ServerRead(true, true));
    assert t.d.down == [RateLimit, Ack(2, true)];
    t := Continue(t, AgentLimited);
  }

  lemma OneOfTwoRefused(e: Event) returns (t: System)
    requires e.readable
    ensures Reachable(t) && t.q.hasStore && t.q.rows == [Row(1, e), Row(2, e), Row(3, e)]
    ensures t.d == Start().(up := [RowMsg(2)], down := [RateLimit], sendSeq := 2, drain := Sending(2, [Row(3, e)], false),
                            handed := {1, 2}, refused := {1}, limited := true)
  {
    t := TwoOfThreeSent(e);
    t := Continue(t, ServerRead(false, true));
  }

  /** A refusal that reaches the agent in the middle of a batch rewinds the cursor, but the
      rest of the batch overwrites it: the ack of a later row then deletes the refused one. */
  lemma RefusedRowCanBePurged() returns (t: System, r: Row)
    ensures Reachable(t)
    ensures r in t.d.purged && r.event.readable && r !in t.q.rows
    ensures r.num in t.d.refused && r.num !in t.d.received && !t.d.tainted
  {
    r := Row(1, Event("e", 0, 1, true));
    t := FirstRefused(r.event);
    t := SendHead(t);
    t := PurgeNow(t, r);
  }
}
