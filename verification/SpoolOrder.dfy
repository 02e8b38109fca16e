/**
 The order in which the server first receives the rows of the spool. Within one stream it is
 the row order. The server may go on reading a stream after the agent has replaced it; what
 it finds there is harmless as long as the row is still stored or was received already.
 */
module SpoolOrder {
  import opened SpoolTable
  import opened SpoolDelivery
  import opened SpoolProtocol

  // No refusal, and no ack naming a snapshot moved the cursor.
  predicate Clean(d: Delivery) { !d.tainted && !d.limited }

  ghost predicate Increasing(ns: seq<nat>) {
    forall i, j :: 0 <= i < j < |ns| ==> ns[i] < ns[j]
  }

  ghost predicate Stored(rows: seq<Row>, n: nat) {
    exists r :: r in rows && r.event.readable && r.num == n
  }

  // A row of the batch in hand.
  ghost predicate InHand(drain: Drain, n: nat) {
    drain.Sending? && exists r :: r in drain.rest && r.event.readable && r.num == n
  }

  // Rows that may still be sent, or delivered on the current stream.
  ghost predicate Candidate(rows: seq<Row>, up: seq<Message>, drain: Drain, n: nat) {
    n in RowNums(up) || Stored(rows, n) || InHand(drain, n)
  }

  // Below a received row, every candidate was received already.
  ghost predicate Closed(rows: seq<Row>, up: seq<Message>, drain: Drain, received: set<nat>) {
    forall m, n: nat :: m in received && Candidate(rows, up, drain, n) && n < m ==> n in received
  }

  ghost predicate UpAscending(up: seq<Message>) {
    forall i, j :: 0 <= i < j < |up| && up[i].RowMsg? && up[j].RowMsg? ==> up[i].num < up[j].num
  }

  ghost predicate UpBehind(up: seq<Message>, drain: Drain, cursor: nat) {
    forall n :: n in RowNums(up) ==>
      n <= cursor || (drain.Sending? && drain.marking && drain.rest != [] && n == drain.rest[0].num)
  }

  // Every row of an abandoned queue travels behind all the candidates below it.
  ghost predicate Behind(rows: seq<Row>, up: seq<Message>, drain: Drain, q: seq<Message>, done: set<nat>) {
    q != [] ==>
      && (q[0].RowMsg? ==> forall n: nat :: Candidate(rows, up, drain, n) && n <= q[0].num ==> n in done + RowOf(q[0]))
      && Behind(rows, up, drain, q[1..], done + RowOf(q[0]))
  }

  ghost predicate LeftBehind(rows: seq<Row>, up: seq<Message>, drain: Drain, left: seq<seq<Message>>, done: set<nat>) {
    forall i :: 0 <= i < |left| ==> Behind(rows, up, drain, left[i], done)
  }

  ghost predicate OrderInv(rows: seq<Row>, d: Delivery) {
    && d.refused == {}
    && RateLimit !in d.down
    && Cursor(d) == d.sendSeq
    && UpAscending(d.up)
    && (d.drain.Starting? ==> RowNums(d.up) == {})
    && (Live(d) ==> UpBehind(d.up, d.drain, d.sendSeq))
    && Closed(rows, d.up, d.drain, d.received)
    && (forall n :: n in d.received <==> n in d.firsts)
    && LeftBehind(rows, d.up, d.drain, d.left, d.received)
  }

  // --------------------------------------------------------------------- framing

  // Nothing new can arrive, except rows above every number so far.
  ghost predicate FewerCandidates(rows: seq<Row>, last: nat, d: Delivery, rows': seq<Row>, d': Delivery) {
    forall n: nat :: Candidate(rows', d'.up, d'.drain, n) ==> Candidate(rows, d.up, d.drain, n) || last < n
  }

  lemma {:induction false} BehindWeaken(rows: seq<Row>, last: nat, d: Delivery, rows': seq<Row>, d': Delivery,
                                        q: seq<Message>, done: set<nat>, done': set<nat>)
    requires Behind(rows, d.up, d.drain, q, done) && done <= done' && FewerCandidates(rows, last, d, rows', d')
    requires forall n :: n in RowNums(q) ==> n <= last
    ensures Behind(rows', d'.up, d'.drain, q, done')
  {
    if q != [] {
      var head := RowOf(q[0]);
      assert RowNums(q) == head + RowNums(q[1..]);
      assert q[0].RowMsg? ==> q[0].num in RowNums(q);
      BehindWeaken(rows, last, d, rows', d', q[1..], done + head, done' + head);
    }
  }

  lemma LeftBehindWeaken(rows: seq<Row>, last: nat, d: Delivery, rows': seq<Row>, d': Delivery)
    requires LeftBehind(rows, d.up, d.drain, d.left, d.received) && d.received <= d'.received
    requires FewerCandidates(rows, last, d, rows', d') && LeftIn(d.left, d.handed) && UpTo(d.handed, last)
    ensures LeftBehind(rows', d'.up, d'.drain, d.left, d'.received)
  {
    forall i | 0 <= i < |d.left| ensures Behind(rows', d'.up, d'.drain, d.left[i], d'.received) {
      BehindWeaken(rows, last, d, rows', d', d.left[i], d.received, d'.received);
    }
  }

  // Steps that receive nothing and add no candidate keep what is closed and behind.
  lemma Frame(rows: seq<Row>, last: nat, d: Delivery, rows': seq<Row>, d': Delivery)
    requires CursorInv(rows, last, d) && OrderInv(rows, d)
    requires d'.received == d.received && d'.left == d.left && FewerCandidates(rows, last, d, rows', d')
    ensures Closed(rows', d'.up, d'.drain, d'.received)
    ensures LeftBehind(rows', d'.up, d'.drain, d'.left, d'.received)
  {
    LeftBehindWeaken(rows, last, d, rows', d');
  }

  // --------------------------------------------------------------------- the agent

  lemma RowsChangeOrder(rows: seq<Row>, last: nat, rows': seq<Row>, d: Delivery)
    requires CursorInv(rows, last, d) && OrderInv(rows, d)
    requires forall r :: r in rows' ==> r in rows || last < r.num
    ensures OrderInv(rows', d)
  {
    forall n: nat | Candidate(rows', d.up, d.drain, n) ensures Candidate(rows, d.up, d.drain, n) || last < n {
      if Stored(rows', n) {
        var r :| r in rows' && r.event.readable && r.num == n;
        assert r in rows ==> Stored(rows, n);
      }
    }
    Frame(rows, last, d, rows', d);
  }

  lemma BindOrder(rows: seq<Row>, last: nat, d: Delivery)
    requires CursorInv(rows, last, d) && OrderInv(rows, d) && d.drain.Off? && d.up == []
    ensures OrderInv(rows, d.(drain := Starting))
  {
    Frame(rows, last, d, rows, d.(drain := Starting));
  }

  lemma RewindOrder(rows: seq<Row>, last: nat, d: Delivery)
    requires CursorInv(rows, last, d) && OrderInv(rows, d) && d.drain.Starting?
    ensures OrderInv(rows, Rewind(d, rows))
  {
    Frame(rows, last, d, rows, Rewind(d, rows));
  }

  lemma DetachOrder(rows: seq<Row>, last: nat, d: Delivery)
    requires CursorInv(rows, last, d) && OrderInv(rows, d) && d.drain.Ready?
    ensures OrderInv(rows, d.(drain := Off))
  {
    Frame(rows, last, d, rows, d.(drain := Off));
  }

  lemma CaptureOrder(rows: seq<Row>, last: nat, d: Delivery)
    requires CursorInv(rows, last, d) && OrderInv(rows, d) && d.drain.Ready?
    ensures OrderInv(rows, d.(drain := Reading(d.sendSeq)))
  {
    Frame(rows, last, d, rows, d.(drain := Reading(d.sendSeq)));
  }

  lemma StopOrder(rows: seq<Row>, last: nat, d: Delivery)
    requires CursorInv(rows, last, d) && OrderInv(rows, d)
    requires d.drain.Reading? || (d.drain.Sending? && !d.drain.marking)
    ensures OrderInv(rows, d.(drain := Ready))
  {
    Frame(rows, last, d, rows, d.(drain := Ready));
  }

  lemma BatchOrder(rows: seq<Row>, last: nat, d: Delivery, batch: seq<Row>)
    requires CursorInv(rows, last, d) && OrderInv(rows, d) && d.drain.Reading? && batch != []
    requires forall r :: r in batch ==> r in rows
    ensures OrderInv(rows, d.(drain := Sending(d.drain.after, batch, false)))
  {
    Frame(rows, last, d, rows, d.(drain := Sending(d.drain.after, batch, false)));
  }

  lemma DrainReadOrder(rows: seq<Row>, last: nat, d: Delivery)
    requires TableOk(rows, last) && CursorInv(rows, last, d) && OrderInv(rows, d) && d.drain.Reading?
    ensures OrderInv(rows, DrainRead(d, rows))
  {
    BatchIsContiguous(rows, last, d.drain.after, DRAIN_BATCH);
    var batch := Batch(rows, d.drain.after, DRAIN_BATCH);
    if batch == [] { StopOrder(rows, last, d); } else { BatchOrder(rows, last, d, batch); }
  }

  lemma MarkHeadOrder(rows: seq<Row>, last: nat, d: Delivery)
    requires CursorInv(rows, last, d) && OrderInv(rows, d) && CanMark(d)
    ensures OrderInv(rows, MarkHead(d))
  {
    NoRowBeforeHead(rows, last, d);
    assert d.drain.rest[0] in d.drain.rest;
    Frame(rows, last, d, rows, MarkHead(d));
  }

  lemma SentAscends(d: Delivery, head: Row)
    requires UpAscending(d.up) && UpBehind(d.up, d.drain, d.sendSeq) && AtRow(d, true)
    requires head == d.drain.rest[0] && d.sendSeq < head.num
    ensures UpAscending(d.up + [RowMsg(head.num)])
  {
    forall i | 0 <= i < |d.up| && d.up[i].RowMsg? ensures d.up[i].num < head.num {
      RowNumsMember(d.up, d.up[i].num);
    }
  }

  lemma DrainSendOrder(rows: seq<Row>, last: nat, d: Delivery)
    requires CursorInv(rows, last, d) && OrderInv(rows, d) && AtRow(d, true)
    ensures OrderInv(rows, DrainSend(d))
  {
    var head := d.drain.rest[0];
    assert head in d.drain.rest;
    RowNumsAppend(d.up, RowMsg(head.num));
    SentAscends(d, head);
    Frame(rows, last, d, rows, DrainSend(d));
  }

  lemma SnapshotOrder(rows: seq<Row>, last: nat, d: Delivery, k: nat)
    requires CursorInv(rows, last, d) && OrderInv(rows, d)
    ensures OrderInv(rows, d.(up := d.up + [Snapshot(k)]))
  {
    RowNumsAppend(d.up, Snapshot(k));
    Frame(rows, last, d, rows, d.(up := d.up + [Snapshot(k)]));
  }

  lemma RecvAckOrder(rows: seq<Row>, d: Delivery)
    requires OrderInv(rows, d) && d.down != [] && d.down[0].Ack? && d.purge.None?
    ensures OrderInv(rows, RecvAck(d))
  {
    assert forall a :: a in d.down[1..] ==> a in d.down;
  }

  // -------------------------------------------------------------------- the network

  lemma {:induction false} BehindFromChain(rows: seq<Row>, q: seq<Message>, done: set<nat>)
    requires ChainUp(rows, q, done)
    ensures Behind(rows, [], Off, q, done)
  {
    if q != [] { BehindFromChain(rows, q[1..], done + RowOf(q[0])); }
  }

  lemma CutBehind(rows: seq<Row>, last: nat, d: Delivery)
    requires CursorInv(rows, last, d) && ChainInv(rows, d) && OrderInv(rows, d)
    ensures LeftBehind(rows, [], Off, d.left + [d.up], d.received)
    ensures Closed(rows, [], Off, d.received)
  {
    Frame(rows, last, d, rows, d.(up := [], drain := Off));
    assert Answered(d) == d.received;
    BehindFromChain(rows, d.up, d.received);
  }

  lemma CutOrder(rows: seq<Row>, last: nat, d: Delivery)
    requires CursorInv(rows, last, d) && ChainInv(rows, d) && OrderInv(rows, d) && d.drain.Off?
    ensures OrderInv(rows, Cut(d))
  {
    CutBehind(rows, last, d);
  }

  lemma RestartOrder(rows: seq<Row>, last: nat, d: Delivery)
    requires CursorInv(rows, last, d) && ChainInv(rows, d) && OrderInv(rows, d)
    ensures OrderInv(rows, Restart(d))
  {
    CutBehind(rows, last, d);
  }

  // --------------------------------------------------------------------- the server

  lemma HeadIsLeast(rows: seq<Row>, last: nat, d: Delivery, n: nat)
    requires CursorInv(rows, last, d) && ChainInv(rows, d) && OrderInv(rows, d)
    requires d.up != [] && d.up[0].RowMsg? && n < d.up[0].num && Candidate(rows, Accept(d).up, Accept(d).drain, n)
    ensures n in d.received
  {
    RowNumsMember(d.up[1..], n);
  }

  lemma AcceptClosed(rows: seq<Row>, last: nat, d: Delivery)
    requires CursorInv(rows, last, d) && ChainInv(rows, d) && OrderInv(rows, d) && d.up != []
    ensures Closed(rows, Accept(d).up, Accept(d).drain, Accept(d).received)
  {
    forall m, n: nat | m in Accept(d).received && Candidate(rows, Accept(d).up, Accept(d).drain, n) && n < m
      ensures n in Accept(d).received
    {
      if d.up[0].RowMsg? && m == d.up[0].num {
        HeadIsLeast(rows, last, d, n);
      } else {
        assert Candidate(rows, d.up, d.drain, n);
      }
    }
  }

  lemma AcceptOrder(rows: seq<Row>, last: nat, d: Delivery)
    requires CursorInv(rows, last, d) && ChainInv(rows, d) && OrderInv(rows, d) && d.up != []
    ensures OrderInv(rows, Accept(d))
  {
    AcceptClosed(rows, last, d);
    LeftBehindWeaken(rows, last, d, rows, Accept(d));
  }

  // A row that can still arrive is above every received row, or is one of them.
  lemma CandidateIsNewest(rows: seq<Row>, d: Delivery, h: nat)
    requires OrderInv(rows, d) && Increasing(d.firsts) && (h in d.received || Candidate(rows, d.up, d.drain, h))
    ensures Increasing(Receive(d, h).firsts)
  {
    if h !in d.received {
      forall i | 0 <= i < |d.firsts| ensures d.firsts[i] < h {
        assert d.firsts[i] in d.received;
      }
    }
  }

  lemma ReadLeftClosed(rows: seq<Row>, d: Delivery, i: nat)
    requires OrderInv(rows, d) && i < |d.left| && d.left[i] != []
    ensures Closed(rows, d.up, d.drain, ReadLeft(d, i, true).received)
  {
    assert Behind(rows, d.up, d.drain, d.left[i], d.received);
  }

  lemma ReadLeftBehind(rows: seq<Row>, last: nat, d: Delivery, i: nat)
    requires CursorInv(rows, last, d) && OrderInv(rows, d) && i < |d.left| && d.left[i] != []
    ensures var d' := ReadLeft(d, i, true); LeftBehind(rows, d'.up, d'.drain, d'.left, d'.received)
  {
    var d' := ReadLeft(d, i, true);
    LeftBehindWeaken(rows, last, d, rows, d');
    assert Behind(rows, d.up, d.drain, d.left[i], d.received);
    assert d'.received == d.received + RowOf(d.left[i][0]);
  }

  lemma ReadLeftOrder(rows: seq<Row>, last: nat, d: Delivery, i: nat)
    requires CursorInv(rows, last, d) && OrderInv(rows, d) && i < |d.left| && d.left[i] != []
    ensures OrderInv(rows, ReadLeft(d, i, true))
  {
    ReadLeftClosed(rows, d, i);
    ReadLeftBehind(rows, last, d, i);
  }

  // ----------------------------------------------------------------------- one step

  lemma CleanBefore(s: System, l: Label)
    requires Enabled(s, l) && Clean(Next(s, l).d)
    ensures Clean(s.d)
  {
  }

  lemma QueueStepOrdered(s: System, l: Label)
    requires SystemInv(s) && Enabled(s, l) && TouchesQueue(l) && OrderInv(s.q.rows, s.d)
    ensures OrderInv(Next(s, l).q.rows, Next(s, l).d)
  {
    QueueStepRows(s, l);
    RowsChangeOrder(s.q.rows, s.q.last, Next(s, l).q.rows, s.d);
  }

  lemma PurgeOrdered(s: System, ok: bool)
    requires SystemInv(s) && Enabled(s, PurgeRows(ok)) && OrderInv(s.q.rows, s.d)
    ensures OrderInv(Next(s, PurgeRows(ok)).q.rows, Next(s, PurgeRows(ok)).d)
  {
    RowsChangeOrder(s.q.rows, s.q.last, Next(s, PurgeRows(ok)).q.rows, s.d);
  }

  lemma ServerReadOrdered(s: System, reply: bool)
    requires SystemInv(s) && s.d.up != [] && Clean(s.d) && OrderInv(s.q.rows, s.d)
    ensures OrderInv(s.q.rows, Deliver(s.d, true, reply))
  {
    AcceptOrder(s.q.rows, s.q.last, s.d);
    var d', a := Accept(s.d), Ack(s.d.up[0].num, s.d.up[0].RowMsg?);
    assert forall x :: x in d'.down + [a] <==> x in d'.down || x == a;
  }

  lemma DeliveryStepOrdered(s: System, l: Label)
    requires SystemInv(s) && Enabled(s, l) && !TouchesQueue(l) && !l.PurgeRows?
    requires Clean(s.d) && Clean(Next(s, l).d) && OrderInv(s.q.rows, s.d)
    ensures OrderInv(s.q.rows, Next(s, l).d)
  {
    var rows, last, d := s.q.rows, s.q.last, s.d;
    match l
    case Crash => RestartOrder(rows, last, d);
    case AttachSink => BindOrder(rows, last, d);
    case AttachRewind => RewindOrder(rows, last, d);
    case Detach => DetachOrder(rows, last, d);
    case CutStream => CutOrder(rows, last, d);
    case DrainCapture => CaptureOrder(rows, last, d);
    case DrainBatch => DrainReadOrder(rows, last, d);
    case DrainRow => DrainSendOrder(rows, last, d);
    case DrainCursor => MarkHeadOrder(rows, last, d);
    case DrainStop => StopOrder(rows, last, d);
    case PushSnapshot(k) => SnapshotOrder(rows, last, d, k);
    case ServerRead(accept, reply) => if accept { ServerReadOrdered(s, reply); }
    case ServerReadLeft(i, accept) => if accept { ReadLeftOrder(rows, last, d, i); }
    case AgentAck => RecvAckOrder(rows, d);
    case AgentLimited =>
  }

  lemma StepOrdered(s: System, l: Label)
    requires SystemInv(s) && Enabled(s, l) && Clean(Next(s, l).d) && OrderInv(s.q.rows, s.d)
    ensures OrderInv(Next(s, l).q.rows, Next(s, l).d)
  {
    CleanBefore(s, l);
    if TouchesQueue(l) {
      QueueStepOrdered(s, l);
    } else if l.PurgeRows? {
      PurgeOrdered(s, l.ok);
    } else {
      DeliveryStepOrdered(s, l);
    }
  }

  // A row the server has not received and the table no longer holds.
  ghost predicate Orphan(s: System, n: nat) {
    n !in s.d.received && !Stored(s.q.rows, n)
  }

  // The step delivers such a row from a stream that was cut.
  ghost predicate ReadsOrphan(s: System, l: Label)
    requires Enabled(s, l)
  {
    l.ServerReadLeft? && s.d.left[l.stream][0].RowMsg? && Orphan(s, s.d.left[l.stream][0].num)
  }

  lemma OthersReceiveNothing(s: System, l: Label)
    requires Enabled(s, l) && !l.ServerRead? && !l.ServerReadLeft?
    ensures Next(s, l).d.firsts == s.d.firsts && Next(s, l).d.received == s.d.received
  {
    if TouchesQueue(l) { QueueStepLeavesDelivery(s, l); } else { DeliveryReceivesNothing(s, l); }
  }

  lemma DeliveryReceivesNothing(s: System, l: Label)
    requires Enabled(s, l) && !l.ServerRead? && !l.ServerReadLeft? && !TouchesQueue(l)
    ensures Next(s, l).d.firsts == s.d.firsts && Next(s, l).d.received == s.d.received
  {
  }

  lemma ReadIncreasing(rows: seq<Row>, d: Delivery, reply: bool)
    requires OrderInv(rows, d) && Increasing(d.firsts) && d.up != []
    ensures Increasing(Deliver(d, true, reply).firsts)
  {
    if d.up[0].RowMsg? {
      assert d.up[0].num in RowNums(d.up);
      CandidateIsNewest(rows, d, d.up[0].num);
    }
  }

  lemma ReadLeftIncreasing(rows: seq<Row>, d: Delivery, i: nat)
    requires OrderInv(rows, d) && Increasing(d.firsts) && i < |d.left| && d.left[i] != []
    requires d.left[i][0].RowMsg? ==> d.left[i][0].num in d.received || Stored(rows, d.left[i][0].num)
    ensures Increasing(ReadLeft(d, i, true).firsts)
  {
    if d.left[i][0].RowMsg? { CandidateIsNewest(rows, d, d.left[i][0].num); }
  }

  lemma StepIncreasing(s: System, l: Label)
    requires SystemInv(s) && Enabled(s, l) && Clean(Next(s, l).d) && OrderInv(s.q.rows, s.d)
    requires Increasing(s.d.firsts) && !ReadsOrphan(s, l)
    ensures Increasing(Next(s, l).d.firsts)
  {
    if l.ServerRead? {
      ReadIncreasing(s.q.rows, s.d, l.reply);
    } else if l.ServerReadLeft? {
      ReadLeftIncreasing(s.q.rows, s.d, l.stream);
    } else {
      OthersReceiveNothing(s, l);
    }
  }

  // ------------------------------------------------------------------------- runs

  lemma BeginOrdered(s: System)
    requires s == Begin(true) || s == Begin(false)
    ensures OrderInv(s.q.rows, s.d) && Increasing(s.d.firsts)
  {
  }

  lemma {:induction false} RunOrdered(states: seq<System>, labels: seq<Label>, i: nat)
    requires IsRun(states, labels) && i < |states| && Clean(states[i].d)
    ensures OrderInv(states[i].q.rows, states[i].d)
  {
    if i == 0 {
      BeginOrdered(states[0]);
    } else {
      assert Step(states[i - 1], labels[i - 1], states[i]);
      CleanBefore(states[i - 1], labels[i - 1]);
      RunOrdered(states, labels, i - 1);
      RunHolds(states, labels, i - 1);
      StepOrdered(states[i - 1], labels[i - 1]);
    }
  }

  /** With row acks and no refusals, over any number of reconnects, rewinds, expiries, drops
      and restarts, and with the server reading on in any number of streams that were cut:
      first receipts are in strictly increasing row order, unless such a leftover delivers a
      row that had left the table before the server ever received it. */
  lemma {:induction false} FirstReceiptsInRowOrder(states: seq<System>, labels: seq<Label>, i: nat)
    requires IsRun(states, labels) && i < |states| && Clean(states[i].d)
    requires forall j {:trigger labels[j]} :: 0 <= j < i ==> Enabled(states[j], labels[j]) && !ReadsOrphan(states[j], labels[j])
    ensures Increasing(states[i].d.firsts)
    ensures forall n :: n in states[i].d.received <==> n in states[i].d.firsts
  {
    RunOrdered(states, labels, i);
    if i == 0 {
      BeginOrdered(states[0]);
    } else {
      assert Step(states[i - 1], labels[i - 1], states[i]);
      CleanBefore(states[i - 1], labels[i - 1]);
      FirstReceiptsInRowOrder(states, labels, i - 1);
      RunHolds(states, labels, i - 1);
      RunOrdered(states, labels, i - 1);
      StepIncreasing(states[i - 1], labels[i - 1]);
    }
  }

  // -------------------------------------------------------------- when order is safe

  // Rows leave the table only because of acks.
  predicate Gentle(l: Label) { !l.Expire? && !l.BudgetDrop? && !l.Discard? }

  ghost predicate AllGentle(ls: seq<Label>) {
    forall i :: 0 <= i < |ls| ==> Gentle(ls[i])
  }

  // On its way: in the batch in hand, on the stream, or on a stream that was cut.
  ghost predicate Travelling(d: Delivery, n: nat) {
    || InHand(d.drain, n)
    || n in RowNums(d.up)
    || exists i :: 0 <= i < |d.left| && n in RowNums(d.left[i])
  }

  // Everything on its way was received before or is still stored.
  ghost predicate NoOrphans(s: System) {
    forall n: nat :: Travelling(s.d, n) ==> !Orphan(s, n)
  }

  lemma RowNumsTail(q: seq<Message>)
    requires q != []
    ensures RowNums(q[1..]) <= RowNums(q) && RowOf(q[0]) <= RowNums(q)
  {
  }

  lemma BatchTravellers(rows: seq<Row>, last: nat, d: Delivery, n: nat)
    requires TableOk(rows, last) && d.drain.Reading? && Travelling(DrainRead(d, rows), n)
    ensures Travelling(d, n) || Stored(rows, n)
  {
    BatchIsContiguous(rows, last, d.drain.after, DRAIN_BATCH);
  }

  lemma SendTravellers(d: Delivery, n: nat)
    requires AtRow(d, true) && Travelling(DrainSend(d), n)
    ensures Travelling(d, n)
  {
    RowNumsAppend(d.up, RowMsg(d.drain.rest[0].num));
    assert d.drain.rest[0] in d.drain.rest;
  }

  lemma MarkTravellers(d: Delivery, n: nat)
    requires CanMark(d) && Travelling(MarkHead(d), n)
    ensures Travelling(d, n)
  {
    assert forall r :: r in d.drain.rest[1..] ==> r in d.drain.rest;
  }

  lemma ReadTravellers(d: Delivery, accept: bool, reply: bool, n: nat)
    requires d.up != [] && Travelling(Deliver(d, accept, reply), n)
    ensures Travelling(d, n)
  {
    RowNumsTail(d.up);
  }

  lemma ReadLeftTravellers(d: Delivery, i: nat, accept: bool, n: nat)
    requires i < |d.left| && d.left[i] != [] && Travelling(ReadLeft(d, i, accept), n)
    ensures Travelling(d, n)
  {
    RowNumsTail(d.left[i]);
  }

  // A step lets nothing travel that was neither travelling nor stored.
  lemma NewTravellers(s: System, l: Label, n: nat)
    requires SystemInv(s) && Enabled(s, l) && Travelling(Next(s, l).d, n)
    ensures Travelling(s.d, n) || Stored(s.q.rows, n)
  {
    var d := s.d;
    if TouchesQueue(l) {
      QueueStepLeavesDelivery(s, l);
    } else {
      match l
      case DrainBatch => BatchTravellers(s.q.rows, s.q.last, d, n);
      case DrainRow => SendTravellers(d, n);
      case DrainCursor => MarkTravellers(d, n);
      case PushSnapshot(k) => SnapshotTravellers(d, k, n);
      case ServerRead(accept, reply) => ReadTravellers(d, accept, reply, n);
      case ServerReadLeft(i, accept) => ReadLeftTravellers(d, i, accept, n);
      case CutStream => CutTravellers(d, n);
      case Crash => CutTravellers(d, n);
      case _ => OthersSendNothing(s, l, n);
    }
  }

  lemma SnapshotTravellers(d: Delivery, k: nat, n: nat)
    requires Travelling(d.(up := d.up + [Snapshot(k)]), n)
    ensures Travelling(d, n)
  {
    RowNumsAppend(d.up, Snapshot(k));
  }

  lemma OthersSendNothing(s: System, l: Label, n: nat)
    requires Enabled(s, l) && !TouchesQueue(l) && !l.DrainBatch? && !l.DrainRow? && !l.DrainCursor? && !l.PushSnapshot?
    requires !l.ServerRead? && !l.ServerReadLeft? && !l.CutStream? && !l.Crash?
    ensures Travelling(Next(s, l).d, n) ==> Travelling(s.d, n)
  {
    assert Next(s, l).d.up == s.d.up && Next(s, l).d.left == s.d.left;
  }

  lemma CutTravellers(d: Delivery, n: nat)
    requires exists i :: 0 <= i < |d.left + [d.up]| && n in RowNums((d.left + [d.up])[i])
    ensures Travelling(d, n)
  {
    var i :| 0 <= i < |d.left + [d.up]| && n in RowNums((d.left + [d.up])[i]);
    if i < |d.left| { assert n in RowNums(d.left[i]); }
  }

  lemma GentleKeepsRows(s: System, l: Label, r: Row)
    requires Enabled(s, l) && Gentle(l) && r in s.q.rows
    ensures r in Next(s, l).q.rows || (l.PurgeRows? && l.ok && r.num <= s.d.purge.value)
  {
  }

  // In a clean state, what an ack deletes was received.
  lemma GentleKeepsStored(s: System, l: Label, n: nat)
    requires SystemInv(s) && Enabled(s, l) && Gentle(l) && Clean(s.d) && OrderInv(s.q.rows, s.d)
    requires Stored(s.q.rows, n)
    ensures Stored(Next(s, l).q.rows, n) || n in s.d.received
  {
    var r :| r in s.q.rows && r.event.readable && r.num == n;
    GentleKeepsRows(s, l, r);
    assert Covered(s.q.rows, s.d.ackSeq, Answered(s.d));
  }

  lemma ReceivedStays(s: System, l: Label, n: nat)
    requires Enabled(s, l) && n in s.d.received
    ensures n in Next(s, l).d.received
  {
  }

  lemma StepKeepsNoOrphans(s: System, l: Label)
    requires SystemInv(s) && Enabled(s, l) && Gentle(l) && Clean(s.d) && OrderInv(s.q.rows, s.d) && NoOrphans(s)
    ensures NoOrphans(Next(s, l))
  {
    var t := Next(s, l);
    forall n: nat | Travelling(t.d, n) ensures !Orphan(t, n) {
      NewTravellers(s, l, n);
      if n in s.d.received {
        ReceivedStays(s, l, n);
      } else {
        GentleKeepsStored(s, l, n);
      }
    }
  }

  // The run goes on without expiry, budget drop or discard and without a refusal.
  ghost predicate CanReach(s: System, t: System) {
    Clean(t.d) && exists ls :: Steps(s, ls, t) && AllGentle(ls)
  }

  // Whatever happens next, short of another loss from the table, receipts stay in order.
  ghost predicate OrderSafe(s: System) {
    forall t :: CanReach(s, t) ==> Increasing(t.d.firsts)
  }

  lemma {:induction false} CleanBeforeSteps(s: System, ls: seq<Label>, t: System)
    requires Steps(s, ls, t) && Clean(t.d)
    ensures Clean(s.d)
    decreases |ls|
  {
    if ls != [] {
      CleanBeforeSteps(Next(s, ls[0]), ls[1..], t);
      CleanBefore(s, ls[0]);
    }
  }

  lemma {:induction false} StepsStayOrdered(s: System, ls: seq<Label>, t: System)
    requires SystemInv(s) && Steps(s, ls, t) && AllGentle(ls) && Clean(t.d)
    requires OrderInv(s.q.rows, s.d) && NoOrphans(s) && Increasing(s.d.firsts)
    ensures Increasing(t.d.firsts)
    decreases |ls|
  {
    if ls != [] {
      var l, next := ls[0], Next(s, ls[0]);
      CleanBeforeSteps(next, ls[1..], t);
      StepStaysOrdered(s, l);
      assert AllGentle(ls[1..]);
      StepsStayOrdered(next, ls[1..], t);
    }
  }

  lemma StepStaysOrdered(s: System, l: Label)
    requires SystemInv(s) && Enabled(s, l) && Gentle(l) && Clean(Next(s, l).d)
    requires OrderInv(s.q.rows, s.d) && NoOrphans(s) && Increasing(s.d.firsts)
    ensures var t := Next(s, l);
      SystemInv(t) && OrderInv(t.q.rows, t.d) && NoOrphans(t) && Increasing(t.d.firsts)
  {
    CleanBefore(s, l);
    StepKeeps(s, l);
    StepOrdered(s, l);
    StepKeepsNoOrphans(s, l);
    HeadTravels(s, l);
    StepIncreasing(s, l);
  }

  lemma HeadTravels(s: System, l: Label)
    requires Enabled(s, l) && NoOrphans(s)
    ensures !ReadsOrphan(s, l)
  {
    if l.ServerReadLeft? && s.d.left[l.stream][0].RowMsg? {
      RowNumsTail(s.d.left[l.stream]);
      assert Travelling(s.d, s.d.left[l.stream][0].num);
    }
  }

  // ------------------------------------------------- an orphan can always break the order

  ghost predicate Leads(s: System, t: System) {
    exists ls :: Steps(s, ls, t) && AllGentle(ls)
  }

  lemma Stay(s: System)
    ensures Leads(s, s)
  {
    assert Steps(s, [], s) && AllGentle([]);
  }

  lemma LeadsOn(a: System, s: System, l: Label)
    requires Leads(a, s) && Enabled(s, l) && Gentle(l)
    ensures Leads(a, Next(s, l))
  {
    var ls :| Steps(a, ls, s) && AllGentle(ls);
    OneStep(s, l);
    StepsConcat(a, ls, s, [l], Next(s, l));
    assert AllGentle(ls + [l]);
  }

  // The row n is neither stored nor received, in a clean state with a store.
  ghost predicate Lost(s: System, n: nat) {
    && SystemInv(s) && s.q.hasStore && Clean(s.d) && s.d.refused == {}
    && Orphan(s, n) && n <= s.q.last
    && forall x :: x in s.d.received ==> x in s.d.firsts
  }

  lemma GentleAddsAbove(s: System, l: Label)
    requires SystemInv(s) && Enabled(s, l) && Gentle(l) && s.q.hasStore
    ensures Next(s, l).q.hasStore && s.q.last <= Next(s, l).q.last
    ensures forall r :: r in Next(s, l).q.rows ==> r in s.q.rows || s.q.last < r.num
  {
    if TouchesQueue(l) { QueueStepRows(s, l); } else { OthersAddNoRows(s, l); }
  }

  lemma CleanRefusesNothing(s: System, l: Label)
    requires Enabled(s, l) && Clean(Next(s, l).d)
    ensures Next(s, l).d.refused == s.d.refused
  {
    if TouchesQueue(l) { QueueStepLeavesDelivery(s, l); } else { CleanDeliveryRefusesNothing(s, l); }
  }

  lemma CleanDeliveryRefusesNothing(s: System, l: Label)
    requires Enabled(s, l) && !TouchesQueue(l) && Clean(Next(s, l).d)
    ensures Next(s, l).d.refused == s.d.refused
  {
  }

  lemma FirstsCover(s: System, l: Label)
    requires Enabled(s, l) && forall x :: x in s.d.received ==> x in s.d.firsts
    ensures forall x :: x in Next(s, l).d.received ==> x in Next(s, l).d.firsts
  {
  }

  lemma Go(a: System, s: System, l: Label, n: nat) returns (t: System)
    requires Leads(a, s) && Lost(s, n) && Enabled(s, l) && Gentle(l)
    requires Clean(Next(s, l).d) && n !in Next(s, l).d.received
    ensures t == Next(s, l) && Leads(a, t) && Lost(t, n)
  {
    t := Next(s, l);
    LeadsOn(a, s, l);
    StepKeeps(s, l);
    GentleAddsAbove(s, l);
    CleanRefusesNothing(s, l);
    FirstsCover(s, l);
  }

  // The drain sends its batch until the row is on the stream.
  lemma {:induction false} SendUpTo(a: System, s: System, n: nat) returns (t: System)
    requires Leads(a, s) && Lost(s, n) && InHand(s.d.drain, n)
    ensures Leads(a, t) && Lost(t, n) && n in RowNums(t.d.up)
    decreases |s.d.drain.rest|, if s.d.drain.marking then 0 else 1
  {
    var head := s.d.drain.rest[0];
    var r :| r in s.d.drain.rest && r.event.readable && r.num == n;
    if s.d.drain.marking || !head.event.readable {
      if s.d.drain.marking && head.num == n {
        t := s;
      } else {
        t := Go(a, s, DrainCursor, n);
        assert r in s.d.drain.rest[1..];
        t := SendUpTo(a, t, n);
      }
    } else {
      t := Go(a, s, DrainRow, n);
      assert InHand(t.d.drain, n);
      t := SendUpTo(a, t, n);
    }
  }

  // The process dies; whatever was on the stream is now on a stream that was cut.
  lemma CrashWith(a: System, s: System, n: nat) returns (t: System, j: nat)
    requires Leads(a, s) && Lost(s, n) && (n in RowNums(s.d.up) || exists i :: 0 <= i < |s.d.left| && n in RowNums(s.d.left[i]))
    ensures Leads(a, t) && Lost(t, n) && j < |t.d.left| && n in RowNums(t.d.left[j])
    ensures t.d.drain == Off && t.d.up == [] && t.d.down == [] && t.d.ackSeq == 0 && t.q.buf == [] && t.q.flights == []
  {
    t := Go(a, s, Crash, n);
    if n in RowNums(s.d.up) {
      j := |s.d.left|;
      assert t.d.left[j] == s.d.up;
    } else {
      j :| 0 <= j < |s.d.left| && n in RowNums(s.d.left[j]);
      assert t.d.left[j] == s.d.left[j];
    }
  }

  // Producing and flushing leave the delivery alone.
  lemma GoQueue(a: System, s: System, l: Label, n: nat) returns (t: System)
    requires Leads(a, s) && Lost(s, n) && Enabled(s, l) && Gentle(l) && TouchesQueue(l)
    ensures t == Next(s, l) && Leads(a, t) && Lost(t, n) && t.d == s.d
  {
    t := Go(a, s, l, n);
  }

  lemma TakeFresh(a: System, s: System, n: nat, e: Event) returns (t: System)
    requires Leads(a, s) && Lost(s, n) && s.q.buf == [] && s.q.flights == []
    ensures Leads(a, t) && Lost(t, n) && t.d == s.d
    ensures t.q.flights == [[e]] && t.q.rows == s.q.rows && t.q.last == s.q.last
  {
    var u := GoQueue(a, s, Enqueue(e), n);
    assert u.q.buf == [e] && u.q.flights == [] && u.q.rows == s.q.rows && u.q.last == s.q.last;
    t := GoQueue(a, u, FlushTake, n);
  }

  lemma CommitFresh(a: System, s: System, n: nat, e: Event) returns (t: System)
    requires Leads(a, s) && Lost(s, n) && s.q.flights == [[e]] && e.readable
    ensures Leads(a, t) && Lost(t, n) && t.d == s.d && Stored(t.q.rows, s.q.last + 1)
  {
    t := GoQueue(a, s, FlushCommit(0), n);
    NewRowStored(s.q.rows, s.q.last, e);
  }

  lemma NewRowStored(rows: seq<Row>, last: nat, e: Event)
    requires e.readable
    ensures Stored(rows + Numbered([e], last), last + 1)
  {
    assert (rows + Numbered([e], last))[|rows|] == Row(last + 1, e);
  }

  // A new event is stored.
  lemma StoreFresh(a: System, s: System, n: nat) returns (t: System)
    requires Leads(a, s) && Lost(s, n) && s.q.buf == [] && s.q.flights == []
    ensures Leads(a, t) && Lost(t, n) && t.d == s.d && Stored(t.q.rows, s.q.last + 1)
  {
    var e := Event("e", 0, 1, true);
    t := TakeFresh(a, s, n, e);
    t := CommitFresh(a, t, n, e);
  }

  lemma AttachFresh(a: System, s: System, n: nat) returns (t: System)
    requires Leads(a, s) && Lost(s, n) && s.d.drain == Off && s.d.up == [] && s.d.down == []
    ensures Leads(a, t) && Lost(t, n) && t.q == s.q && t.d.left == s.d.left
    ensures t.d.drain == Ready && t.d.up == [] && t.d.sendSeq == s.d.ackSeq
  {
    t := Go(a, s, AttachSink, n);
    t := Go(a, t, AttachRewind, n);
  }

  lemma HandOver(a: System, s: System, n: nat) returns (t: System)
    requires Leads(a, s) && Lost(s, n) && AtRow(s.d, true) && s.d.up == []
    ensures Leads(a, t) && Lost(t, n) && t == s.(d := MarkHead(DrainSend(s.d)))
  {
    t := Go(a, s, DrainRow, n);
    t := Go(a, t, DrainCursor, n);
  }

  lemma TakeRow(a: System, s: System, n: nat, h: nat) returns (t: System)
    requires Leads(a, s) && Lost(s, n) && s.d.up == [RowMsg(h)] && h != n
    ensures Leads(a, t) && Lost(t, n) && t == s.(d := Accept(s.d))
  {
    t := Go(a, s, ServerRead(true, false), n);
  }

  // The head of the batch is dealt with and, if it can be read, received.
  lemma PassHead(a: System, s: System, n: nat) returns (t: System)
    requires Leads(a, s) && Lost(s, n) && s.d.drain.Sending? && !s.d.drain.marking && s.d.up == []
    requires s.d.drain.rest != [] && s.d.drain.rest[0] in s.q.rows
    ensures Leads(a, t) && Lost(t, n) && t.q == s.q && t.d.left == s.d.left && t.d.up == []
    ensures var head, rest := s.d.drain.rest[0], s.d.drain.rest[1..];
      && t.d.sendSeq == head.num && t.d.drain == Advance(head.num, rest)
      && s.d.received <= t.d.received && (head.event.readable ==> head.num in t.d.received)
  {
    var head := s.d.drain.rest[0];
    if head.event.readable {
      assert Stored(s.q.rows, head.num);
      t := HandOver(a, s, n);
      t := TakeRow(a, t, n, head.num);
    } else {
      t := Go(a, s, DrainCursor, n);
    }
  }

  lemma {:induction false} PassBatch(a: System, s: System, n: nat) returns (t: System)
    requires Leads(a, s) && Lost(s, n) && s.d.drain.Sending? && !s.d.drain.marking && s.d.up == []
    requires s.d.drain.rest != [] && forall r :: r in s.d.drain.rest ==> r in s.q.rows
    ensures Leads(a, t) && Lost(t, n) && t.q == s.q && t.d.left == s.d.left && t.d.up == []
    ensures t.d.drain == Ready && t.d.sendSeq == s.d.drain.rest[|s.d.drain.rest| - 1].num
    ensures s.d.received <= t.d.received
    ensures forall r :: r in s.d.drain.rest && r.event.readable ==> r.num in t.d.received
    decreases |s.d.drain.rest|
  {
    var rest := s.d.drain.rest;
    t := PassHead(a, s, n);
    assert forall r :: r in rest <==> r == rest[0] || r in rest[1..];
    if rest[1..] != [] {
      t := PassBatch(a, t, n);
    }
  }

  // Batch by batch the drain reaches row m, and the server receives it.
  lemma {:induction false} DrainTo(a: System, s: System, n: nat, m: nat) returns (t: System)
    requires Leads(a, s) && Lost(s, n) && s.d.drain == Ready && s.d.up == []
    requires s.d.sendSeq < m && Stored(s.q.rows, m)
    ensures Leads(a, t) && Lost(t, n) && t.d.left == s.d.left && m in t.d.received
    decreases m - s.d.sendSeq
  {
    var rows, after := s.q.rows, s.d.sendSeq;
    t := Go(a, s, DrainCapture, n);
    BatchReaches(rows, s.q.last, after, m);
    var batch := Batch(rows, after, DRAIN_BATCH);
    t := Go(a, t, DrainBatch, n);
    assert t.d.drain == Sending(after, batch, false);
    t := PassBatch(a, t, n);
    if m !in t.d.received {
      t := DrainTo(a, t, n, m);
    }
  }

  // A batch above the cursor holds the row m, or ends above the cursor and below m.
  lemma BatchReaches(rows: seq<Row>, last: nat, after: nat, m: nat)
    requires TableOk(rows, last) && after < m && Stored(rows, m)
    ensures var b := Batch(rows, after, DRAIN_BATCH);
      && b != [] && (forall r :: r in b ==> r in rows)
      && after < b[|b| - 1].num
      && ((exists r :: r in b && r.event.readable && r.num == m) || b[|b| - 1].num < m)
  {
    BatchIsContiguous(rows, last, after, DRAIN_BATCH);
    var r :| r in rows && r.event.readable && r.num == m;
    var b := Batch(rows, after, DRAIN_BATCH);
    assert r in RowsAbove(rows, after);
    assert b != [];
    assert b[|b| - 1] in b;
  }

  // The server reads the abandoned stream up to the row n, after it has received m.
  lemma {:induction false} ReadUpTo(a: System, s: System, j: nat, n: nat, m: nat) returns (t: System)
    requires Leads(a, s) && Lost(s, n) && j < |s.d.left| && n in RowNums(s.d.left[j]) && n < m && m in s.d.received
    ensures CanReach(a, t) && !Increasing(t.d.firsts)
    decreases |s.d.left[j]|
  {
    var head := s.d.left[j][0];
    if head == RowMsg(n) {
      t := Next(s, ServerReadLeft(j, true));
      LeadsOn(a, s, ServerReadLeft(j, true));
      var firsts := s.d.firsts;
      var i :| 0 <= i < |firsts| && firsts[i] == m;
      assert t.d.firsts == firsts + [n];
      assert t.d.firsts[i] == m && t.d.firsts[|firsts|] == n;
    } else {
      t := Go(a, s, ServerReadLeft(j, true), n);
      assert t.d.left[j] == s.d.left[j][1..];
      t := ReadUpTo(a, t, j, n, m);
    }
  }

  lemma OrphanBreaks(s: System, n: nat) returns (t: System)
    requires Lost(s, n) && Travelling(s.d, n)
    ensures CanReach(s, t) && !Increasing(t.d.firsts)
  {
    Stay(s);
    t := s;
    if InHand(s.d.drain, n) { t := SendUpTo(s, s, n); }
    var j;
    t, j := CrashWith(s, t, n);
    var m := t.q.last + 1;
    t := StoreFresh(s, t, n);
    t := AttachFresh(s, t, n);
    t := DrainTo(s, t, n, m);
    t := ReadUpTo(s, t, j, n, m);
  }

  lemma TravellersWereHanded(s: System, n: nat)
    requires SystemInv(s) && Travelling(s.d, n)
    ensures n <= s.q.last
  {
  }

  /** At any point of a run with row acks and no refusals, the order of first receipts is safe
      in every continuation in which rows leave the table only because of acks, if and only
      if it is intact so far and every row on its way, in a batch, on the stream or on a
      stream that was cut, was received before or is still stored. */
  lemma OrderSafeIff(states: seq<System>, labels: seq<Label>, i: nat)
    requires IsRun(states, labels) && i < |states| && Clean(states[i].d) && states[i].q.hasStore
    ensures OrderSafe(states[i]) <==> Increasing(states[i].d.firsts) && NoOrphans(states[i])
  {
    var s := states[i];
    RunHolds(states, labels, i);
    RunOrdered(states, labels, i);
    if Increasing(s.d.firsts) && NoOrphans(s) {
      forall t | CanReach(s, t) ensures Increasing(t.d.firsts) {
        var ls :| Steps(s, ls, t) && AllGentle(ls);
        StepsStayOrdered(s, ls, t);
      }
    } else if Increasing(s.d.firsts) {
      var n: nat :| Travelling(s.d, n) && Orphan(s, n);
      TravellersWereHanded(s, n);
      var t := OrphanBreaks(s, n);
    } else {
      Stay(s);
      assert CanReach(s, s);
    }
  }

  // ------------------------------------------------------------- a run out of order

  // Row 1 is sent, the stream is cut before the server reads it, and the row expires.
  lemma ExpiredInFlight(e: Event) returns (t: System)
    requires e.readable && e.observedAt == 0
    ensures Reachable(t) && t.q.hasStore && t.q.rows == [] && t.q.last == 1 && t.q.buf == [] && t.q.flights == []
    ensures t.d == Start().(sendSeq := 1, handed := {1}, left := [[RowMsg(1)]])
  {
    t := BatchInHand([e]);
    assert Numbered([e], 0) == [Row(1, e)];
    t := SendHead(t);
    assert t.d == Start().(up := [RowMsg(1)], sendSeq := 1, drain := Ready, handed := {1});
    t := Continue(t, Detach);
    t := Continue(t, CutStream);
    assert t.d.left == [[RowMsg(1)]];
    t := Continue(t, Expire(1));
    assert t.q.rows == [];
  }

  lemma StoreSecond(s: System, e: Event) returns (t: System)
    requires Reachable(s) && s.q.hasStore && s.q.rows == [] && s.q.last == 1 && s.q.buf == [] && s.q.flights == []
    ensures Reachable(t) && t.q.hasStore && t.q.rows == [Row(2, e)] && t.d == s.d
  {
    t := Continue(s, Enqueue(e));
    assert t.q.buf == [e];
    t := Continue(t, FlushTake);
    assert t.q.flights == [[e]];
    t := Continue(t, FlushCommit(0));
    assert Numbered([e], 1) == [Row(2, e)];
  }

  // On the next stream the drain sends row 2.
  lemma SecondInFlight(s: System, e: Event) returns (t: System)
    requires Reachable(s) && s.q.hasStore && s.q.rows == [Row(2, e)] && e.readable
    requires s.d == Start().(sendSeq := 1, handed := {1}, left := [[RowMsg(1)]])
    ensures Reachable(t) && t.d.up == [RowMsg(2)] && t.d.left == [[RowMsg(1)]]
    ensures t.d.firsts == [] && t.d.received == {} && Clean(t.d)
  {
    t := Continue(s, AttachSink);
    t := Continue(t, AttachRewind);
    t := Continue(t, DrainCapture);
    RowsAllAbove([Row(2, e)], 0);
    t := Continue(t, DrainBatch);
    assert t.d.drain == Sending(0, [Row(2, e)], false);
    t := SendHead(t);
  }

  /** A reachable state in which row 2 was received before row 1: row 1 was still unread on a
      stream that was cut when it expired. Acks named rows only and nothing was refused. */
  lemma ExpiredLeftoverBreaksOrder() returns (t: System)
    ensures Reachable(t) && Clean(t.d) && t.d.firsts == [2, 1] && !Increasing(t.d.firsts)
  {
    var e := Event("e", 0, 1, true);
    t := ExpiredInFlight(e);
    t := StoreSecond(t, e);
    t := SecondInFlight(t, e);
    t := Continue(t, ServerRead(true, false));
    assert t.d.firsts == [2];
    t := Continue(t, ServerReadLeft(0, true));
    assert t.d.firsts[0] == 2 && t.d.firsts[1] == 1;
  }
}
