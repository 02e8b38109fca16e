/**
 The server's receive loop for one agent stream: which messages count as events, which are
 refused, which acknowledgements go back, and how the loop ends. The limiter's verdicts, the
 clock, the fate of each send and the order in which the loop finds its channels ready are
 inputs. Its replies are those of the delivery protocol's server step.
 */
module PushLoop {
  import opened Options
  import D = SpoolDelivery
  import S = AgentSessions

  const ACK_EVERY: nat := 100
  const ACK_AFTER: int := 5000

  // A command reply, a spool status or an unknown payload is `Control`.
  datatype Incoming = Control | Telemetry(event: D.Message)

  // What one turn of the loop finds ready. `sent` says whether a send of that turn succeeds.
  datatype Input =
    | Cancelled(revoked: bool)
    | Outgoing(sent: bool)
    | Broken
    | Received(msg: Incoming, allowed: bool, now: int, sent: bool)

  datatype End = AgentRevoked | SessionClosed | Failed

  datatype State = State(count: nat, lastSeen: nat, lastIsRow: bool, lastAck: int, replies: seq<D.Reply>, ended: Option<End>)

  function Begin(now: int): State { State(0, 0, false, now, [], None) }

  predicate AckDue(count: nat, lastAck: int, now: int) {
    count % ACK_EVERY == 0 || now - lastAck >= ACK_AFTER
  }

  // The turn takes an event off the stream.
  predicate Takes(st: State, i: Input) { st.ended.None? && i.Received? && i.msg.Telemetry? }

  predicate Accepts(st: State, i: Input) { Takes(st, i) && i.allowed }

  function Seen(st: State, m: D.Message): State {
    st.(count := st.count + 1, lastSeen := m.num, lastIsRow := m.RowMsg?)
  }

  function Acked(st: State, now: int, sent: bool): State {
    if !AckDue(st.count, st.lastAck, now) then st
    else if sent then st.(lastAck := now, replies := st.replies + [D.Ack(st.lastSeen, st.lastIsRow)])
    else st.(ended := Some(Failed))
  }

  // A refusal that cannot be sent is dropped; any other failing send ends the loop.
  function Step(st: State, i: Input): State {
    if st.ended.Some? then st
    else
      match i
      case Cancelled(revoked) => st.(ended := Some(if revoked then AgentRevoked else SessionClosed))
      case Outgoing(sent) => if sent then st else st.(ended := Some(Failed))
      case Broken => st.(ended := Some(Failed))
      case Received(msg, allowed, now, sent) =>
        if msg.Control? then st
        else if !allowed then st.(replies := st.replies + if sent then [D.RateLimit] else [])
        else Acked(Seen(st, msg.event), now, sent)
  }

  function Run(start: int, inputs: seq<Input>): State {
    if inputs == [] then Begin(start) else Step(Run(start, inputs[..|inputs| - 1]), inputs[|inputs| - 1])
  }

  lemma {:induction false} EndedForGood(start: int, inputs: seq<Input>, n: nat)
    requires n <= |inputs| && Run(start, inputs[..n]).ended.Some?
    ensures Run(start, inputs) == Run(start, inputs[..n])
  {
    if n == |inputs| {
      assert inputs[..n] == inputs;
    } else {
      var prefix := inputs[..|inputs| - 1];
      assert prefix[..n] == inputs[..n];
      EndedForGood(start, prefix, n);
    }
  }

  // The events the loop has accepted, in order.
  function Accepted(start: int, inputs: seq<Input>): seq<D.Message> {
    if inputs == [] then []
    else
      var n := |inputs| - 1;
      if Accepts(Run(start, inputs[..n]), inputs[n]) then Accepted(start, inputs[..n]) + [inputs[n].msg.event]
      else Accepted(start, inputs[..n])
  }

  // How many of them come after the last ack that was sent.
  function Unacked(start: int, inputs: seq<Input>): nat {
    if inputs == [] then 0
    else
      var n := |inputs| - 1;
      var st := Run(start, inputs[..n]);
      if !Accepts(st, inputs[n]) then Unacked(start, inputs[..n])
      else if AckDue(st.count + 1, st.lastAck, inputs[n].now) && inputs[n].sent then 0
      else Unacked(start, inputs[..n]) + 1
  }

  /** The loop counts exactly the accepted events and remembers the last one: refusals,
      command replies and status reports never move what an ack will name. */
  lemma {:induction false} SeesExactlyAccepted(start: int, inputs: seq<Input>)
    ensures var st, taken := Run(start, inputs), Accepted(start, inputs);
      && st.count == |taken|
      && (taken != [] ==> st.lastSeen == taken[|taken| - 1].num && st.lastIsRow == taken[|taken| - 1].RowMsg?)
  {
    if inputs != [] {
      var n := |inputs| - 1;
      SeesExactlyAccepted(start, inputs[..n]);
      StepSees(Run(start, inputs[..n]), inputs[n]);
    }
  }

  lemma StepSees(st: State, i: Input)
    ensures var st' := Step(st, i);
      if Accepts(st, i) then
        st'.count == st.count + 1 && st'.lastSeen == i.msg.event.num && st'.lastIsRow == i.msg.event.RowMsg?
      else st'.count == st.count && st'.lastSeen == st.lastSeen && st'.lastIsRow == st.lastIsRow
  {
  }

  ghost predicate NamesAnAccepted(r: D.Reply, taken: seq<D.Message>) {
    r.Ack? ==> exists m :: m in taken && r == D.Ack(m.num, m.RowMsg?)
  }

  /** Every ack of a run names an event accepted before it, and the bound on silence holds:
      while the loop runs, fewer than a hundred accepted events are beyond the last ack. */
  lemma {:induction false} AcksNameAcceptedEvents(start: int, inputs: seq<Input>)
    ensures forall r :: r in Run(start, inputs).replies ==> NamesAnAccepted(r, Accepted(start, inputs))
    ensures Run(start, inputs).ended.None? ==> Unacked(start, inputs) <= |Accepted(start, inputs)| % ACK_EVERY
  {
    if inputs != [] {
      var prefix := inputs[..|inputs| - 1];
      AcksNameAcceptedEvents(start, prefix);
      SeesExactlyAccepted(start, prefix);
      StepReplies(start, inputs);
      CountStep(|Accepted(start, prefix)|);
    }
  }

  lemma CountStep(n: nat)
    ensures (n + 1) % ACK_EVERY == 0 || (n + 1) % ACK_EVERY == n % ACK_EVERY + 1
  {
  }

  lemma StepReplies(start: int, inputs: seq<Input>)
    requires inputs != []
    requires var before := inputs[..|inputs| - 1];
      forall r :: r in Run(start, before).replies ==> NamesAnAccepted(r, Accepted(start, before))
    ensures forall r :: r in Run(start, inputs).replies ==> NamesAnAccepted(r, Accepted(start, inputs))
  {
    var n := |inputs| - 1;
    var before, taken := Run(start, inputs[..n]).replies, Accepted(start, inputs[..n]);
    forall r | r in before ensures NamesAnAccepted(r, Accepted(start, inputs)) {
      assert NamesAnAccepted(r, taken);
      assert forall m :: m in taken ==> m in Accepted(start, inputs);
    }
    if Accepts(Run(start, inputs[..n]), inputs[n]) {
      assert inputs[n].msg.event in Accepted(start, inputs);
    }
  }

  lemma RunSnoc(start: int, inputs: seq<Input>, i: Input)
    ensures Run(start, inputs + [i]) == Step(Run(start, inputs), i)
  {
    assert (inputs + [i])[..|inputs|] == inputs;
  }

  // When the last ack went out, read off the replies; the start of the loop before any.
  function AckTime(start: int, inputs: seq<Input>): int {
    if inputs == [] then start
    else
      var n := |inputs| - 1;
      var before, after := Run(start, inputs[..n]).replies, Run(start, inputs).replies;
      if inputs[n].Received? && |before| < |after| && after[|after| - 1].Ack? then inputs[n].now
      else AckTime(start, inputs[..n])
  }

  lemma {:induction false} RemembersAckTime(start: int, inputs: seq<Input>)
    ensures Run(start, inputs).lastAck == AckTime(start, inputs)
  {
    if inputs != [] { RemembersAckTime(start, inputs[..|inputs| - 1]); }
  }

  // What the loop sends back for an event, as the count and the clock have it.
  function ReplyTo(m: D.Message, allowed: bool, due: bool): seq<D.Reply> {
    if !allowed then [D.RateLimit] else if due then [D.Ack(m.num, m.RowMsg?)] else []
  }

  lemma AnswersEvent(st: State, m: D.Message, allowed: bool, now: int, sent: bool)
    requires st.ended.None?
    ensures var st' := Step(st, Received(Telemetry(m), allowed, now, sent));
      var due := (st.count + 1) % 100 == 0 || now - st.lastAck >= 5000;
      && st'.replies == st.replies + (if sent then ReplyTo(m, allowed, due) else [])
      && (st'.ended == if allowed && due && !sent then Some(Failed) else None)
  {
  }

  /** After any turns, what the next event does: an accepted one is acknowledged by its own
      number if and only if it is the hundredth, two-hundredth, ... accepted, or five seconds
      have passed since the last ack went out; a refused one is reported. A failing ack ends
      the loop, a failing report does not. */
  lemma RepliesExactly(start: int, inputs: seq<Input>, m: D.Message, allowed: bool, now: int, sent: bool)
    requires Run(start, inputs).ended.None?
    ensures var st, st' := Run(start, inputs), Run(start, inputs + [Received(Telemetry(m), allowed, now, sent)]);
      var due := (|Accepted(start, inputs)| + 1) % 100 == 0 || now - AckTime(start, inputs) >= 5000;
      && st'.replies == st.replies + (if sent then ReplyTo(m, allowed, due) else [])
      && (st'.ended == if allowed && due && !sent then Some(Failed) else None)
  {
    RunSnoc(start, inputs, Received(Telemetry(m), allowed, now, sent));
    SeesExactlyAccepted(start, inputs);
    RemembersAckTime(start, inputs);
    AnswersEvent(Run(start, inputs), m, allowed, now, sent);
  }

  // Nothing else that arrives is answered, and only errors and cancellation end the loop.
  lemma OthersUnanswered(start: int, inputs: seq<Input>, i: Input)
    requires Run(start, inputs).ended.None? && (i.Received? ==> i.msg.Control?)
    ensures var st, st' := Run(start, inputs), Run(start, inputs + [i]);
      && st'.replies == st.replies
      && (st'.ended == Some(AgentRevoked) <==> i == Cancelled(true))
      && (st'.ended == Some(SessionClosed) <==> i == Cancelled(false))
      && (st'.ended == Some(Failed) <==> i == Broken || i == Outgoing(false))
  {
    RunSnoc(start, inputs, i);
  }

  /** The loop ends as "agent_revoked" exactly when it was still running at the moment it
      acted on a context cancelled by a revocation. A receive error or a failing send that
      it meets first ends it otherwise, revoked or not. */
  lemma {:induction false} EndsRevokedIff(start: int, inputs: seq<Input>)
    ensures Run(start, inputs).ended == Some(AgentRevoked) <==>
      exists n {:trigger inputs[n]} :: 0 <= n < |inputs| && inputs[n] == Cancelled(true) && Run(start, inputs[..n]).ended.None?
  {
    if inputs != [] {
      var last := |inputs| - 1;
      var prefix := inputs[..last];
      EndsRevokedIff(start, prefix);
      forall n | 0 <= n < last ensures prefix[..n] == inputs[..n] && prefix[n] == inputs[n] {}
      if Run(start, prefix).ended == Some(AgentRevoked) {
        var n :| 0 <= n < last && prefix[n] == Cancelled(true) && Run(start, prefix[..n]).ended.None?;
        assert inputs[n] == Cancelled(true) && inputs[..n] == prefix[..n];
      }
      if n :| 0 <= n < last && inputs[n] == Cancelled(true) && Run(start, inputs[..n]).ended.None? {
        assert prefix[n] == Cancelled(true) && prefix[..n] == inputs[..n];
      }
    }
  }

  // The loop acts on a cancelled context only when the registry cancelled the stream, and
  // finds the cause the registry gave it.
  ghost predicate SeesCause(inputs: seq<Input>, ops: seq<S.Op>, sid: nat) {
    forall n :: 0 <= n < |inputs| && inputs[n].Cancelled? ==>
      && sid in S.Run(ops).streams && S.Run(ops).streams[sid].cause.Some?
      && inputs[n].revoked == (S.Run(ops).streams[sid].cause.value == S.Revoked)
  }

  /** A loop over a stream of the registry ends as "agent_revoked" only if a revoke or delete
      tore that stream down while it was registered; and if it ends because its session was
      closed, none did. */
  lemma PushEndsRevokedOnlyIfTornDown(start: int, inputs: seq<Input>, ops: seq<S.Op>, sid: nat)
    requires SeesCause(inputs, ops, sid)
    ensures Run(start, inputs).ended == Some(AgentRevoked) ==> exists i :: S.TornDownAt(ops, sid, i)
    ensures Run(start, inputs).ended == Some(SessionClosed) ==> !exists i :: S.TornDownAt(ops, sid, i)
  {
    S.RevokedExactlyWhenTornDown(ops, sid);
    EndsRevokedIff(start, inputs);
    if Run(start, inputs).ended == Some(SessionClosed) {
      var n := EndsClosedOnCancel(start, inputs);
    }
  }

  lemma {:induction false} EndsClosedOnCancel(start: int, inputs: seq<Input>) returns (n: nat)
    requires Run(start, inputs).ended == Some(SessionClosed)
    ensures n < |inputs| && inputs[n] == Cancelled(false)
  {
    n := |inputs| - 1;
    if Run(start, inputs[..n]).ended.Some? {
      n := EndsClosedOnCancel(start, inputs[..n]);
    }
  }

  // ------------------------------------------------------------------- refinement

  // The events taken off the stream, in order.
  function Taken(start: int, inputs: seq<Input>): seq<D.Message> {
    if inputs == [] then []
    else
      var n := |inputs| - 1;
      if Takes(Run(start, inputs[..n]), inputs[n]) then Taken(start, inputs[..n]) + [inputs[n].msg.event]
      else Taken(start, inputs[..n])
  }

  // Whether a reply goes out: a refusal if it can be sent, an ack if it is also due.
  predicate Replies(st: State, i: Input)
    requires i.Received?
  {
    i.sent && (i.allowed ==> AckDue(st.count + 1, st.lastAck, i.now))
  }

  // The protocol's server step, once for every event taken.
  function Served(d: D.Delivery, start: int, inputs: seq<Input>): D.Delivery {
    if inputs == [] then d
    else
      var n := |inputs| - 1;
      var st, d' := Run(start, inputs[..n]), Served(d, start, inputs[..n]);
      if Takes(st, inputs[n]) && d'.up != [] then
        D.Deliver(d', inputs[n].allowed, Replies(st, inputs[n]))
      else d'
  }

  /** Over any sequence of turns, whatever sends fail, the loop does to the stream what the
      delivery protocol's server does: it takes the same messages off and sends the same
      replies, in the same order. */
  lemma {:induction false} RefinesDelivery(d: D.Delivery, start: int, inputs: seq<Input>, rest: seq<D.Message>)
    requires d.up == Taken(start, inputs) + rest
    ensures Served(d, start, inputs).up == rest
    ensures Served(d, start, inputs).down == d.down + Run(start, inputs).replies
  {
    if inputs != [] {
      var n := |inputs| - 1;
      var st, i := Run(start, inputs[..n]), inputs[n];
      var rest' := if Takes(st, i) then [i.msg.event] + rest else rest;
      assert d.up == Taken(start, inputs[..n]) + rest';
      RefinesDelivery(d, start, inputs[..n], rest');
      if Takes(st, i) { TurnRefines(Served(d, start, inputs[..n]), d.down, st, i); }
    }
  }

  lemma TurnRefines(d: D.Delivery, down: seq<D.Reply>, st: State, i: Input)
    requires Takes(st, i) && d.up != [] && d.up[0] == i.msg.event && d.down == down + st.replies
    ensures var d' := D.Deliver(d, i.allowed, Replies(st, i));
      d'.down == down + Step(st, i).replies && d'.up == d.up[1..]
  {
  }

  // -------------------------------------------------------------------- the handler

  class Handler {
    var count: nat
    var lastSeen: nat
    var lastIsRow: bool
    var lastAck: int
    var replies: seq<D.Reply>

    function View(ended: Option<End>): State
      reads this
    {
      State(count, lastSeen, lastIsRow, lastAck, replies, ended)
    }

    constructor (now: int)
      ensures View(None) == Begin(now)
    {
      count, lastSeen, lastIsRow, lastAck, replies := 0, 0, false, now, [];
    }

    method MaybeAck(now: int, sent: bool) returns (ended: Option<End>)
      modifies this`lastAck, this`replies
      ensures View(ended) == Acked(old(View(None)), now, sent)
      ensures var due := count % 100 == 0 || now - old(lastAck) >= 5000;
        && replies == old(replies) + (if due && sent then [D.Ack(lastSeen, lastIsRow)] else [])
        && (ended == if due && !sent then Some(Failed) else None)
    {
      ended := None;
      if count % ACK_EVERY != 0 && now - lastAck < ACK_AFTER {
        return;
      }
      if !sent {
        return Some(Failed);
      }
      replies := replies + [D.Ack(lastSeen, lastIsRow)];
      lastAck := now;
    }

    method Turn(i: Input) returns (ended: Option<End>)
      modifies this
      ensures View(ended) == Step(old(View(None)), i)
    {
      ended := None;
      match i {
        case Cancelled(revoked) =>
          ended := Some(if revoked then AgentRevoked else SessionClosed);
        case Outgoing(sent) =>
          if !sent {
            ended := Some(Failed);
          }
        case Broken =>
          ended := Some(Failed);
        case Received(msg, allowed, now, sent) =>
          if msg.Control? {
            return;
          }
          if !allowed {
            if sent {
              replies := replies + [D.RateLimit];
            }
            return;
          }
          count, lastSeen, lastIsRow := count + 1, msg.event.num, msg.event.RowMsg?;
          ended := MaybeAck(now, sent);
      }
    }

    /** The whole loop, to its end or to the end of the given turns. */
    method Serve(start: int, inputs: seq<Input>) returns (ended: Option<End>)
      requires View(None) == Begin(start)
      modifies this
      ensures View(ended) == Run(start, inputs)
    {
      ended := None;
      for n := 0 to |inputs|
        invariant View(ended) == Run(start, inputs[..n])
      {
        if ended.Some? {
          EndedForGood(start, inputs, n);
          return;
        }
        assert inputs[..n + 1][..n] == inputs[..n];
        ended := Turn(inputs[n]);
      }
      assert inputs[..|inputs|] == inputs;
    }
  }
}
