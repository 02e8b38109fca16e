/**
 Replay of the spool over a stream: the drain loop, the acknowledgement path, the server's
 receive loop and the loss of streams, as steps that may interleave in any order. A step
 is one critical section, one database statement, one message or one reply.

 The stream is a FIFO queue in each direction. When it is cut, the agent never sees the
 replies still on their way, while the server may go on reading what was sent, in order and
 at any later time. `SpoolOrder` is about the order of receipts.
 */
module SpoolDelivery {
  import opened Options
  import opened SpoolTable

  // The number of a snapshot comes from a per-stream counter and may collide with a row.
  datatype Message = RowMsg(num: nat) | Snapshot(num: nat)

  // An ack names the last accepted event; `row` says whether that event was a spool row.
  datatype Reply = Ack(num: nat, row: bool) | RateLimit

  datatype Drain =
    | Off                                              // no stream
    | Starting                                         // stream bound, cursor not yet rewound
    | Ready                                            // between two passes of the drain loop
    | Reading(after: nat)                              // cursor captured, batch not yet read
    | Sending(pos: nat, rest: seq<Row>, marking: bool) // inside the batch; marking: rest[0] is sent

  datatype Delivery = Delivery(
    sendSeq: nat,
    ackSeq: nat,
    purge: Option<nat>,
    drain: Drain,
    up: seq<Message>,
    down: seq<Reply>,
    // history
    handed: set<nat>,
    received: set<nat>,
    refused: set<nat>,
    firsts: seq<nat>,      // rows in the order of their first receipt
    purged: set<Row>,      // rows deleted because of an ack
    left: seq<seq<Message>>, // per stream that was cut: what the server has not read yet
    limited: bool,         // some event was refused
    tainted: bool,         // an ack naming a snapshot moved the ack cursor
    skipped: bool)         // the current stream began above a stored row nobody had answered

  function Start(): Delivery {
    Delivery(0, 0, None, Off, [], [], {}, {}, {}, [], {}, [], false, false, false)
  }

  function RowOf(m: Message): set<nat> {
    if m.RowMsg? then {m.num} else {}
  }

  function RowNums(up: seq<Message>): set<nat> {
    if up == [] then {} else RowOf(up[0]) + RowNums(up[1..])
  }

  function Answered(d: Delivery): set<nat> { d.received + d.refused }

  // --------------------------------------------------------------------- the agent

  function Advance(pos: nat, rest: seq<Row>): Drain {
    if rest == [] then Ready else Sending(pos, rest, false)
  }

  function DrainRead(d: Delivery, rows: seq<Row>): Delivery
    requires d.drain.Reading?
  {
    var batch := Batch(rows, d.drain.after, DRAIN_BATCH);
    d.(drain := Advance(d.drain.after, batch))
  }

  predicate AtRow(d: Delivery, readable: bool) {
    d.drain.Sending? && !d.drain.marking && d.drain.rest != [] && d.drain.rest[0].event.readable == readable
  }

  // The row at the head of the batch is dealt with: unreadable, or already sent. The
  // cursor is overwritten without looking at what happened to it meanwhile.
  function MarkHead(d: Delivery): Delivery
    requires d.drain.Sending? && d.drain.rest != []
  {
    var n := d.drain.rest[0].num;
    d.(sendSeq := n, drain := Advance(n, d.drain.rest[1..]))
  }

  function DrainSend(d: Delivery): Delivery
    requires AtRow(d, true)
  {
    var n := d.drain.rest[0].num;
    d.(up := d.up + [RowMsg(n)], handed := d.handed + {n}, drain := d.drain.(marking := true))
  }

  function RecvAck(d: Delivery): Delivery
    requires d.down != [] && d.down[0].Ack? && d.purge.None?
  {
    var p := AckTarget(d.down[0].num, d.sendSeq, d.ackSeq);
    var d' := d.(down := d.down[1..]);
    if p == d.ackSeq then d'
    else d'.(ackSeq := p, purge := Some(p), tainted := d.tainted || !d.down[0].row)
  }

  // A new stream starts at the ack cursor. A row at or below it that is still stored, because
  // its purge failed or is yet to run, is not sent again.
  function Rewind(d: Delivery, rows: seq<Row>): Delivery {
    d.(sendSeq := d.ackSeq, drain := Ready,
       skipped := exists r :: r in rows && r.event.readable && r.num <= d.ackSeq && r.num !in Answered(d))
  }

  function RecvLimit(d: Delivery): Delivery
    requires d.down != [] && d.down[0].RateLimit?
  {
    d.(down := d.down[1..], sendSeq := d.ackSeq)
  }

  function Purged(d: Delivery, rows: seq<Row>): Delivery
    requires d.purge.Some?
  {
    d.(purge := None, purged := d.purged + (set r | r in rows && r.num <= d.purge.value))
  }

  // -------------------------------------------------------------------- the network

  function Cut(d: Delivery): Delivery {
    d.(up := [], down := [], left := d.left + [d.up])
  }

  function Restart(d: Delivery): Delivery {
    Cut(d).(sendSeq := 0, ackSeq := 0, purge := None, drain := Off)
  }

  // --------------------------------------------------------------------- the server

  function Receive(d: Delivery, n: nat): Delivery {
    d.(received := d.received + {n}, firsts := if n in d.received then d.firsts else d.firsts + [n])
  }

  function Refuse(d: Delivery, told: bool): Delivery
    requires d.up != []
  {
    d.(up := d.up[1..], limited := true, refused := d.refused + RowOf(d.up[0]),
       down := if told then d.down + [RateLimit] else d.down)
  }

  function Accept(d: Delivery): Delivery
    requires d.up != []
  {
    var d' := d.(up := d.up[1..]);
    if d.up[0].RowMsg? then Receive(d', d.up[0].num) else d'
  }

  function Answer(d: Delivery, a: Reply): Delivery {
    d.(down := d.down + [a])
  }

  // Whether to refuse, and whether a refusal or an ack is sent now, is up to the limiter, a
  // counter, a clock and the stream.
  function Deliver(d: Delivery, accept: bool, reply: bool): Delivery
    requires d.up != []
  {
    if !accept then Refuse(d, reply)
    else if reply then Answer(Accept(d), Ack(d.up[0].num, d.up[0].RowMsg?))
    else Accept(d)
  }

  // The handler of a dead stream reads on; its replies reach nobody.
  function ReadLeft(d: Delivery, i: nat, accept: bool): Delivery
    requires i < |d.left| && d.left[i] != []
  {
    var m := d.left[i][0];
    var d' := d.(left := d.left[i := d.left[i][1..]]);
    if !accept then d'.(limited := true, refused := d.refused + RowOf(m))
    else if m.RowMsg? then Receive(d', m.num)
    else d'
  }

  // ---------------------------------------------------------------- cursor invariant

  // The drain has dealt with every row up to here.
  function Cursor(d: Delivery): nat {
    match d.drain
    case Reading(after) => after
    case Sending(pos, _, _) => pos
    case _ => d.sendSeq
  }

  // Every readable stored row up to n is among `done`.
  ghost predicate Covered(rows: seq<Row>, n: nat, done: set<nat>) {
    forall r :: r in rows && r.event.readable && r.num <= n ==> r.num in done
  }

  ghost predicate AllIn(purged: set<Row>, done: set<nat>) {
    forall r :: r in purged && r.event.readable ==> r.num in done
  }

  ghost predicate RowAcksIn(down: seq<Reply>, nums: set<nat>) {
    forall a :: a in down && a.Ack? && a.row ==> a.num in nums
  }

  ghost predicate UpTo(nums: set<nat>, last: nat) {
    forall n :: n in nums ==> n <= last
  }

  ghost predicate DrainOk(rows: seq<Row>, last: nat, drain: Drain, sendSeq: nat, handed: set<nat>) {
    match drain
    case Reading(after) => sendSeq <= after <= last
    case Sending(pos, rest, marking) =>
      && sendSeq <= pos <= last
      && rest != [] && Ascending(rest)
      && (forall r :: r in rest ==> pos < r.num <= last)
      && (forall r :: r in rows && pos < r.num <= rest[|rest| - 1].num ==> r in rest)
      && (marking ==> rest[0].event.readable && rest[0].num in handed)
    case _ => true
  }

  ghost predicate LeftIn(left: seq<seq<Message>>, nums: set<nat>) {
    forall i :: 0 <= i < |left| ==> RowNums(left[i]) <= nums
  }

  // Holds whatever numbers the acks name and however the steps interleave.
  ghost predicate CursorInv(rows: seq<Row>, last: nat, d: Delivery) {
    && d.ackSeq <= d.sendSeq <= last
    && (d.purge.Some? ==> d.purge.value <= d.ackSeq)
    && DrainOk(rows, last, d.drain, d.sendSeq, d.handed)
    && UpTo(d.handed, last)
    && RowNums(d.up) <= d.handed && d.received <= d.handed && LeftIn(d.left, d.handed)
    && RowAcksIn(d.down, d.handed)
    && Covered(rows, Cursor(d), d.handed)
    && AllIn(d.purged, d.handed)
  }

  // ----------------------------------------------------------------- chain invariant

  predicate Live(d: Delivery) { !d.drain.Off? && !d.drain.Starting? }

  // Every row in flight travels behind all the readable stored rows below it.
  ghost predicate ChainUp(rows: seq<Row>, up: seq<Message>, done: set<nat>) {
    up != [] ==>
      && (up[0].RowMsg? ==> Covered(rows, up[0].num, done + RowOf(up[0])))
      && ChainUp(rows, up[1..], done + RowOf(up[0]))
  }

  ghost predicate RowAcksCovered(rows: seq<Row>, down: seq<Reply>, done: set<nat>) {
    forall a :: a in down && a.Ack? && a.row ==> Covered(rows, a.num, done)
  }

  ghost predicate ChainInv(rows: seq<Row>, d: Delivery) {
    && Covered(rows, d.ackSeq, Answered(d))
    && ChainUp(rows, d.up, Answered(d))
    && RowAcksCovered(rows, d.down, Answered(d))
    && AllIn(d.purged, Answered(d))
  }

  // Up to the cursor, every stored row was answered or is in flight on this stream, unless
  // the stream began above one that was not.
  ghost predicate LiveInv(rows: seq<Row>, d: Delivery) {
    && (Live(d) && !d.skipped ==> Covered(rows, Cursor(d), Answered(d) + RowNums(d.up)))
    && (d.drain.Sending? && d.drain.marking && d.drain.rest != [] ==> d.drain.rest[0].num in Answered(d) + RowNums(d.up))
  }

  ghost predicate DeliveryInv(rows: seq<Row>, last: nat, d: Delivery) {
    && TableOk(rows, last)
    && CursorInv(rows, last, d)
    && LiveInv(rows, d)
    && (!d.tainted ==> ChainInv(rows, d) && !d.skipped)
  }

  // ------------------------------------------------------- facts about the up queue

  lemma {:induction false} RowNumsAppend(up: seq<Message>, m: Message)
    ensures RowNums(up + [m]) == RowNums(up) + RowOf(m)
  {
    if up == [] {
      assert up + [m] == [m];
    } else {
      RowNumsAppend(up[1..], m);
      assert (up + [m])[1..] == up[1..] + [m];
    }
  }

  lemma {:induction false} RowNumsMember(up: seq<Message>, n: nat)
    ensures n in RowNums(up) <==> RowMsg(n) in up
  {
    if up != [] {
      RowNumsMember(up[1..], n);
      assert RowMsg(n) in up <==> RowMsg(n) == up[0] || RowMsg(n) in up[1..];
    }
  }

  lemma {:induction false} ChainUpWeaken(rows: seq<Row>, rows': seq<Row>, up: seq<Message>, done: set<nat>, done': set<nat>, last: nat)
    requires ChainUp(rows, up, done) && done <= done'
    requires forall n :: n in RowNums(up) ==> n <= last
    requires forall r :: r in rows' ==> r in rows || last < r.num
    ensures ChainUp(rows', up, done')
  {
    if up != [] {
      var head := RowOf(up[0]);
      assert RowNums(up) == head + RowNums(up[1..]);
      assert up[0].RowMsg? ==> up[0].num in RowNums(up);
      ChainUpWeaken(rows, rows', up[1..], done + head, done' + head, last);
    }
  }

  lemma {:induction false} ChainUpAppend(rows: seq<Row>, up: seq<Message>, done: set<nat>, m: Message)
    requires ChainUp(rows, up, done)
    requires m.RowMsg? ==> Covered(rows, m.num, done + RowNums(up) + {m.num})
    ensures ChainUp(rows, up + [m], done)
  {
    if up == [] {
      assert up + [m] == [m];
      assert done + RowNums(up) + {m.num} == done + {m.num};
    } else {
      var head := RowOf(up[0]);
      assert done + RowNums(up) + {m.num} == done + head + RowNums(up[1..]) + {m.num};
      ChainUpAppend(rows, up[1..], done + head, m);
      assert (up + [m])[1..] == up[1..] + [m];
    }
  }

  // -------------------------------------------------------------------- preservation

  // The table may lose any rows and gain rows with new keys.
  lemma RowsChangeKeeps(rows: seq<Row>, last: nat, rows': seq<Row>, last': nat, d: Delivery)
    requires DeliveryInv(rows, last, d)
    requires TableOk(rows', last') && last <= last'
    requires forall r :: r in rows' ==> r in rows || last < r.num
    ensures DeliveryInv(rows', last', d)
  {
    if !d.tainted {
      ChainUpWeaken(rows, rows', d.up, Answered(d), Answered(d), last);
    }
  }

  lemma AttachRewindKeeps(rows: seq<Row>, last: nat, d: Delivery)
    requires DeliveryInv(rows, last, d) && d.drain.Starting?
    ensures DeliveryInv(rows, last, Rewind(d, rows))
  {
  }

  // A batch read right above the captured cursor.
  lemma BatchKeeps(rows: seq<Row>, last: nat, d: Delivery, batch: seq<Row>)
    requires DeliveryInv(rows, last, d) && d.drain.Reading? && batch != []
    requires Ascending(batch) && forall r :: r in batch ==> r in rows && d.drain.after < r.num <= last
    requires forall r :: r in rows && d.drain.after < r.num <= batch[|batch| - 1].num ==> r in batch
    ensures DeliveryInv(rows, last, d.(drain := Sending(d.drain.after, batch, false)))
  {
  }

  // Leaving the drain loop early, or finding nothing to read.
  lemma StopKeeps(rows: seq<Row>, last: nat, d: Delivery)
    requires DeliveryInv(rows, last, d)
    requires d.drain.Reading? || (d.drain.Sending? && !d.drain.marking)
    ensures DeliveryInv(rows, last, d.(drain := Ready))
  {
  }

  lemma DrainReadKeeps(rows: seq<Row>, last: nat, d: Delivery)
    requires DeliveryInv(rows, last, d) && d.drain.Reading?
    ensures DeliveryInv(rows, last, DrainRead(d, rows))
  {
    BatchIsContiguous(rows, last, d.drain.after, DRAIN_BATCH);
    var batch := Batch(rows, d.drain.after, DRAIN_BATCH);
    if batch == [] {
      StopKeeps(rows, last, d);
    } else {
      BatchKeeps(rows, last, d, batch);
    }
  }

  lemma NoRowBeforeHead(rows: seq<Row>, last: nat, d: Delivery)
    requires DrainOk(rows, last, d.drain, d.sendSeq, d.handed) && d.drain.Sending?
    ensures forall r :: r in rows && d.drain.pos < r.num <= d.drain.rest[0].num ==> r == d.drain.rest[0]
    ensures forall r :: r in d.drain.rest[1..] ==> r in d.drain.rest && d.drain.rest[0].num < r.num
  {
    var rest := d.drain.rest;
    forall r | r in rows && d.drain.pos < r.num <= rest[0].num ensures r == rest[0] {
      assert r in rest;
    }
  }

  predicate CanMark(d: Delivery) {
    d.drain.Sending? && d.drain.rest != [] && (d.drain.marking || !d.drain.rest[0].event.readable)
  }

  lemma MarkHeadCursor(rows: seq<Row>, last: nat, d: Delivery)
    requires CursorInv(rows, last, d) && CanMark(d)
    ensures CursorInv(rows, last, MarkHead(d))
  {
    NoRowBeforeHead(rows, last, d);
  }

  lemma MarkHeadChain(rows: seq<Row>, last: nat, d: Delivery)
    requires CursorInv(rows, last, d) && ChainInv(rows, d) && CanMark(d)
    ensures ChainInv(rows, MarkHead(d))
  {
    NoRowBeforeHead(rows, last, d);
  }

  lemma MarkHeadKeeps(rows: seq<Row>, last: nat, d: Delivery)
    requires DeliveryInv(rows, last, d) && CanMark(d)
    ensures DeliveryInv(rows, last, MarkHead(d))
  {
    MarkHeadCursor(rows, last, d);
    if !d.tainted { MarkHeadChain(rows, last, d); }
  }

  lemma DrainSendCursor(rows: seq<Row>, last: nat, d: Delivery)
    requires CursorInv(rows, last, d) && AtRow(d, true)
    ensures CursorInv(rows, last, DrainSend(d))
  {
    RowNumsAppend(d.up, RowMsg(d.drain.rest[0].num));
    assert d.drain.rest[0] in d.drain.rest;
  }

  lemma DrainSendChain(rows: seq<Row>, last: nat, d: Delivery)
    requires CursorInv(rows, last, d) && ChainInv(rows, d) && LiveInv(rows, d) && !d.skipped && AtRow(d, true)
    ensures ChainInv(rows, DrainSend(d))
  {
    var m := RowMsg(d.drain.rest[0].num);
    NoRowBeforeHead(rows, last, d);
    RowNumsAppend(d.up, m);
    ChainUpAppend(rows, d.up, Answered(d), m);
  }

  lemma DrainSendKeeps(rows: seq<Row>, last: nat, d: Delivery)
    requires DeliveryInv(rows, last, d) && AtRow(d, true)
    ensures DeliveryInv(rows, last, DrainSend(d))
  {
    DrainSendCursor(rows, last, d);
    RowNumsAppend(d.up, RowMsg(d.drain.rest[0].num));
    if !d.tainted { DrainSendChain(rows, last, d); }
  }

  lemma SnapshotChain(rows: seq<Row>, d: Delivery, k: nat)
    requires ChainInv(rows, d)
    ensures ChainInv(rows, d.(up := d.up + [Snapshot(k)]))
  {
    RowNumsAppend(d.up, Snapshot(k));
    ChainUpAppend(rows, d.up, Answered(d), Snapshot(k));
  }

  lemma SnapshotKeeps(rows: seq<Row>, last: nat, d: Delivery, k: nat)
    requires DeliveryInv(rows, last, d)
    ensures DeliveryInv(rows, last, d.(up := d.up + [Snapshot(k)]))
  {
    RowNumsAppend(d.up, Snapshot(k));
    if !d.tainted { SnapshotChain(rows, d, k); }
  }

  lemma RecvAckCursor(rows: seq<Row>, last: nat, d: Delivery)
    requires CursorInv(rows, last, d) && d.down != [] && d.down[0].Ack? && d.purge.None?
    ensures CursorInv(rows, last, RecvAck(d))
  {
    assert forall a :: a in d.down[1..] ==> a in d.down;
  }

  lemma RecvAckChain(rows: seq<Row>, d: Delivery)
    requires ChainInv(rows, d) && d.down != [] && d.down[0].Ack? && d.purge.None?
    requires d.ackSeq <= d.sendSeq
    ensures !RecvAck(d).tainted ==> ChainInv(rows, RecvAck(d))
  {
    assert forall a :: a in d.down[1..] ==> a in d.down;
    assert d.down[0] in d.down;
  }

  lemma RecvAckKeeps(rows: seq<Row>, last: nat, d: Delivery)
    requires DeliveryInv(rows, last, d) && d.down != [] && d.down[0].Ack? && d.purge.None?
    ensures DeliveryInv(rows, last, RecvAck(d))
  {
    RecvAckCursor(rows, last, d);
    if !d.tainted { RecvAckChain(rows, d); }
  }

  lemma RecvLimitKeeps(rows: seq<Row>, last: nat, d: Delivery)
    requires DeliveryInv(rows, last, d) && d.down != [] && d.down[0].RateLimit?
    ensures DeliveryInv(rows, last, RecvLimit(d))
  {
    assert forall a :: a in d.down[1..] ==> a in d.down;
  }

  lemma ReadLeftCursor(rows: seq<Row>, last: nat, d: Delivery, i: nat, accept: bool)
    requires CursorInv(rows, last, d) && i < |d.left| && d.left[i] != []
    ensures CursorInv(rows, last, ReadLeft(d, i, accept))
  {
    assert RowNums(d.left[i]) == RowOf(d.left[i][0]) + RowNums(d.left[i][1..]);
  }

  lemma ReadLeftKeeps(rows: seq<Row>, last: nat, d: Delivery, i: nat, accept: bool)
    requires DeliveryInv(rows, last, d) && i < |d.left| && d.left[i] != []
    ensures DeliveryInv(rows, last, ReadLeft(d, i, accept))
  {
    ReadLeftCursor(rows, last, d, i, accept);
    if !d.tainted {
      ChainUpWeaken(rows, rows, d.up, Answered(d), Answered(ReadLeft(d, i, accept)), last);
    }
  }

  lemma CutKeeps(rows: seq<Row>, last: nat, d: Delivery)
    requires DeliveryInv(rows, last, d) && d.drain.Off?
    ensures DeliveryInv(rows, last, Cut(d))
  {
  }

  lemma RestartKeeps(rows: seq<Row>, last: nat, d: Delivery)
    requires DeliveryInv(rows, last, d)
    ensures DeliveryInv(rows, last, Restart(d))
  {
  }

  lemma PurgedKeeps(rows: seq<Row>, last: nat, d: Delivery)
    requires DeliveryInv(rows, last, d) && d.purge.Some?
    ensures DeliveryInv(rows, last, Purged(d, rows))
  {
  }

  lemma RefuseKeeps(rows: seq<Row>, last: nat, d: Delivery, told: bool)
    requires DeliveryInv(rows, last, d) && d.up != []
    ensures DeliveryInv(rows, last, Refuse(d, told))
  {
    assert Answered(Refuse(d, told)) == Answered(d) + RowOf(d.up[0]);
  }

  lemma AcceptCursor(rows: seq<Row>, last: nat, d: Delivery)
    requires CursorInv(rows, last, d) && d.up != []
    ensures CursorInv(rows, last, Accept(d))
  {
  }

  lemma AcceptChain(rows: seq<Row>, d: Delivery)
    requires ChainInv(rows, d) && d.up != []
    ensures ChainInv(rows, Accept(d))
    ensures d.up[0].RowMsg? ==> Covered(rows, d.up[0].num, Answered(Accept(d)))
  {
    assert Answered(Accept(d)) == Answered(d) + RowOf(d.up[0]);
  }

  lemma AcceptKeeps(rows: seq<Row>, last: nat, d: Delivery)
    requires DeliveryInv(rows, last, d) && d.up != []
    ensures DeliveryInv(rows, last, Accept(d))
  {
    AcceptCursor(rows, last, d);
    if !d.tainted { AcceptChain(rows, d); }
  }

  lemma AnswerKeeps(rows: seq<Row>, last: nat, d: Delivery, a: Reply)
    requires DeliveryInv(rows, last, d) && a.Ack?
    requires a.row ==> a.num in d.handed && (!d.tainted ==> Covered(rows, a.num, Answered(d)))
    ensures DeliveryInv(rows, last, Answer(d, a))
  {
    assert forall x :: x in d.down + [a] <==> x in d.down || x == a;
  }

  lemma DeliverKeeps(rows: seq<Row>, last: nat, d: Delivery, accept: bool, reply: bool)
    requires DeliveryInv(rows, last, d) && d.up != []
    ensures DeliveryInv(rows, last, Deliver(d, accept, reply))
  {
    if !accept {
      RefuseKeeps(rows, last, d, reply);
    } else {
      AcceptKeeps(rows, last, d);
      if reply {
        var m := d.up[0];
        if !d.tainted { AcceptChain(rows, d); }
        AnswerKeeps(rows, last, Accept(d), Ack(m.num, m.RowMsg?));
      }
    }
  }
}
