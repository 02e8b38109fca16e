/**
 Reply channels of the commands issued on one agent stream. Steps are critical sections of
 the stream's own lock, plus the close a delivery performs after leaving it, so commands,
 deliveries, releases and the teardown interleave freely. Request ids may repeat.
 */
module CommandChannels {

  const MAX_IN_FLIGHT: nat := 8

  datatype State = State(
    pending: map<string, nat>,  // request id to reply channel
    closed: bool,
    next: nat,                  // channels are numbered as they are made
    closing: set<nat>,          // taken out by a final delivery, about to be closed
    closes: multiset<nat>,      // every close performed so far
    released: set<nat>,         // given up by the caller before a final reply
    replaced: set<nat>)         // pushed out by a second command with the same id

  const FRESH := State(map[], false, 0, {}, multiset{}, {}, {})

  datatype Op =
    | Register(id: string)
    | Release(id: string)
    | Deliver(id: string, last: bool)
    | CloseDelivered(chan: nat)
    | CloseAll

  predicate Admits(st: State) {
    !st.closed && |st.pending| < MAX_IN_FLIGHT
  }

  function Apply(st: State, op: Op): State {
    match op
    case Register(id) =>
      if !Admits(st) then st
      else st.(pending := st.pending[id := st.next], next := st.next + 1,
               replaced := if id in st.pending then st.replaced + {st.pending[id]} else st.replaced)
    case Release(id) =>
      if id !in st.pending then st
      else st.(pending := st.pending - {id}, released := st.released + {st.pending[id]})
    case Deliver(id, last) =>
      if id !in st.pending || !last then st
      else st.(pending := st.pending - {id}, closing := st.closing + {st.pending[id]})
    case CloseDelivered(c) =>
      if c !in st.closing then st
      else st.(closing := st.closing - {c}, closes := st.closes + multiset{c})
    case CloseAll =>
      if st.closed then st
      else st.(closed := true, pending := map[], closes := st.closes + multiset(st.pending.Values))
  }

  function Run(ops: seq<Op>): State {
    if ops == [] then FRESH else Apply(Run(ops[..|ops| - 1]), ops[|ops| - 1])
  }

  // In how many places a channel is: waiting, being closed, closed, released or replaced.
  function Places(waiting: set<nat>, closing: set<nat>, closes: multiset<nat>, released: set<nat>, replaced: set<nat>, c: nat): nat {
    (if c in waiting then 1 else 0) + (if c in closing then 1 else 0) + closes[c]
    + (if c in released then 1 else 0) + (if c in replaced then 1 else 0)
  }

  // Every channel made so far is in exactly one place, and no other is anywhere.
  ghost predicate OnePlaceEach(waiting: set<nat>, closing: set<nat>, closes: multiset<nat>, released: set<nat>, replaced: set<nat>, next: nat) {
    forall c: nat :: Places(waiting, closing, closes, released, replaced, c) == if c < next then 1 else 0
  }

  ghost predicate ChannelsOk(st: State) {
    && OnePlaceEach(st.pending.Values, st.closing, st.closes, st.released, st.replaced, st.next)
    && Injective(st.pending)
    && |st.pending| <= MAX_IN_FLIGHT
    && (st.closed ==> st.pending == map[])
  }

  ghost predicate Injective(m: map<string, nat>) {
    forall id, id' :: id in m && id' in m && m[id] == m[id'] ==> id == id'
  }

  lemma RemoveValue(m: map<string, nat>, id: string)
    requires id in m && Injective(m)
    ensures (m - {id}).Values == m.Values - {m[id]} && Injective(m - {id})
    ensures |m - {id}| < |m|
  {
    var m' := m - {id};
    assert m'.Keys == m.Keys - {id};
    forall c | c in m.Values - {m[id]} ensures c in m'.Values {
      var a :| a in m && m[a] == c;
      assert a in m' && m'[a] == c;
    }
    assert |m'.Keys| < |m.Keys|;
  }

  lemma PutValue(m: map<string, nat>, id: string, c: nat, out: set<nat>)
    requires Injective(m) && c !in m.Values && out == if id in m then {m[id]} else {}
    ensures var m' := m[id := c];
      && Injective(m') && |m'| <= |m| + 1
      && m'.Values == (m.Values - out) + {c}
  {
    PutInjective(m, id, c);
    forall v ensures v in m[id := c].Values <==> v in (m.Values - out) + {c} {
      PutOne(m, id, c, v);
    }
  }

  lemma PutInjective(m: map<string, nat>, id: string, c: nat)
    requires Injective(m) && c !in m.Values
    ensures Injective(m[id := c]) && |m[id := c]| <= |m| + 1
  {
    var m' := m[id := c];
    assert m'.Keys == m.Keys + {id};
    forall x, y | x in m' && y in m' && m'[x] == m'[y] ensures x == y {
      assert x != id ==> m[x] in m.Values;
      assert y != id ==> m[y] in m.Values;
    }
  }

  lemma PutOne(m: map<string, nat>, id: string, c: nat, v: nat)
    requires Injective(m) && c !in m.Values
    ensures v in m[id := c].Values <==> v == c || (v in m.Values && (id in m ==> v != m[id]))
  {
    var m' := m[id := c];
    assert m'[id] == c;
    if v != c && v in m'.Values {
      var a :| a in m' && m'[a] == v;
      assert a in m && m[a] == v;
    }
    if v in m.Values && (id in m ==> v != m[id]) {
      var a :| a in m && m[a] == v;
      assert m'[a] == v;
    }
  }

  lemma NewPlace(waiting: set<nat>, closing: set<nat>, closes: multiset<nat>, released: set<nat>, replaced: set<nat>, next: nat, out: set<nat>)
    requires OnePlaceEach(waiting, closing, closes, released, replaced, next) && out <= waiting
    ensures OnePlaceEach((waiting - out) + {next}, closing, closes, released, replaced + out, next + 1)
    ensures next !in waiting
  {
    assert Places(waiting, closing, closes, released, replaced, next) == 0;
    forall c: nat
      ensures Places((waiting - out) + {next}, closing, closes, released, replaced + out, c) == if c < next + 1 then 1 else 0
    {
      assert Places(waiting, closing, closes, released, replaced, c) == if c < next then 1 else 0;
    }
  }

  lemma MovePlace(waiting: set<nat>, closing: set<nat>, closes: multiset<nat>, released: set<nat>, replaced: set<nat>, next: nat, c: nat)
    requires OnePlaceEach(waiting, closing, closes, released, replaced, next)
    ensures c in waiting ==> OnePlaceEach(waiting - {c}, closing + {c}, closes, released, replaced, next)
    ensures c in waiting ==> OnePlaceEach(waiting - {c}, closing, closes, released + {c}, replaced, next)
    ensures c in closing ==> OnePlaceEach(waiting, closing - {c}, closes + multiset{c}, released, replaced, next)
    ensures OnePlaceEach({}, closing, closes + multiset(waiting), released, replaced, next)
  {
    forall x: nat
      ensures c in waiting ==> Places(waiting - {c}, closing + {c}, closes, released, replaced, x) == if x < next then 1 else 0
      ensures c in waiting ==> Places(waiting - {c}, closing, closes, released + {c}, replaced, x) == if x < next then 1 else 0
      ensures c in closing ==> Places(waiting, closing - {c}, closes + multiset{c}, released, replaced, x) == if x < next then 1 else 0
      ensures Places({}, closing, closes + multiset(waiting), released, replaced, x) == if x < next then 1 else 0
    {
      assert Places(waiting, closing, closes, released, replaced, x) == if x < next then 1 else 0;
      assert Places(waiting, closing, closes, released, replaced, c) == if c < next then 1 else 0;
    }
  }

  lemma RegisterKeeps(st: State, id: string)
    requires ChannelsOk(st)
    ensures ChannelsOk(Apply(st, Register(id)))
  {
    if Admits(st) {
      var out := if id in st.pending then {st.pending[id]} else {};
      RegisterPlaces(st, id, out);
      PutValue(st.pending, id, st.next, out);
      assert st.replaced + out == if id in st.pending then st.replaced + {st.pending[id]} else st.replaced;
    }
  }

  lemma RegisterPlaces(st: State, id: string, out: set<nat>)
    requires ChannelsOk(st) && out == if id in st.pending then {st.pending[id]} else {}
    ensures OnePlaceEach((st.pending.Values - out) + {st.next}, st.closing, st.closes, st.released, st.replaced + out, st.next + 1)
    ensures st.next !in st.pending.Values
  {
    assert id in st.pending ==> st.pending[id] in st.pending.Values;
    NewPlace(st.pending.Values, st.closing, st.closes, st.released, st.replaced, st.next, out);
  }

  lemma ApplyKeeps(st: State, op: Op)
    requires ChannelsOk(st)
    ensures ChannelsOk(Apply(st, op))
  {
    match op
    case Register(id) => RegisterKeeps(st, id);
    case Release(id) =>
      if id in st.pending {
        RemoveValue(st.pending, id);
        MovePlace(st.pending.Values, st.closing, st.closes, st.released, st.replaced, st.next, st.pending[id]);
      }
    case Deliver(id, _) =>
      if id in st.pending {
        RemoveValue(st.pending, id);
        MovePlace(st.pending.Values, st.closing, st.closes, st.released, st.replaced, st.next, st.pending[id]);
      }
    case CloseDelivered(c) => MovePlace(st.pending.Values, st.closing, st.closes, st.released, st.replaced, st.next, c);
    case CloseAll =>
      MovePlace(st.pending.Values, st.closing, st.closes, st.released, st.replaced, st.next, 0);
      assert Apply(st, CloseAll).pending.Values == {} || st.closed;
  }

  /** Whatever the interleaving, a reply channel is closed at most once, at most eight
      commands are pending, and once the stream is closed nothing is pending. */
  lemma {:induction false} ChannelsCloseAtMostOnce(ops: seq<Op>)
    ensures ChannelsOk(Run(ops))
    ensures forall c: nat :: Run(ops).closes[c] <= 1
    ensures |Run(ops).pending| <= MAX_IN_FLIGHT
  {
    if ops != [] {
      ChannelsCloseAtMostOnce(ops[..|ops| - 1]);
      ApplyKeeps(Run(ops[..|ops| - 1]), ops[|ops| - 1]);
    }
    var st := Run(ops);
    forall c: nat ensures st.closes[c] <= 1 {
      assert Places(st.pending.Values, st.closing, st.closes, st.released, st.replaced, c) <= 1;
    }
  }

  lemma {:induction false} ClosedIffClosedAll(ops: seq<Op>)
    ensures Run(ops).closed <==> CloseAll in ops
  {
    if ops != [] {
      var n := |ops| - 1;
      ClosedIffClosedAll(ops[..n]);
      StepCloses(Run(ops[..n]), ops[n]);
      MemberSnoc(ops[..n], ops[n], CloseAll);
      assert ops == ops[..n] + [ops[n]];
    }
  }

  lemma StepCloses(st: State, op: Op)
    ensures Apply(st, op).closed <==> st.closed || op == CloseAll
  {
  }

  lemma MemberSnoc(ops: seq<Op>, op: Op, x: Op)
    ensures x in ops + [op] <==> x in ops || x == op
  {
  }

  /** A command gets a channel of its own exactly while the stream was not torn down and fewer
      than eight commands are pending; otherwise nothing changes. */
  lemma AdmittedIff(ops: seq<Op>, id: string)
    ensures var st, st' := Run(ops), Run(ops + [Register(id)]);
      if CloseAll !in ops && |st.pending| < 8 then st'.pending == st.pending[id := st.next] && st'.next == st.next + 1
      else st' == st
  {
    assert (ops + [Register(id)])[..|ops|] == ops;
    ClosedIffClosedAll(ops);
  }

  /** What the other critical sections do to the channel of a pending command: the last reply
      has it closed, a release gives it up, a teardown closes it, and nothing else moves it. */
  lemma ChannelFate(ops: seq<Op>, op: Op, id: string)
    requires id in Run(ops).pending && !op.Register?
    ensures var st, st', c := Run(ops), Run(ops + [op]), Run(ops).pending[id];
      && (op == Release(id) ==> id !in st'.pending && c in st'.released && st'.closes == st.closes)
      && (op == Deliver(id, true) ==> id !in st'.pending && c in st'.closing)
      && (op == CloseAll ==> id !in st'.pending && st'.closes[c] == st.closes[c] + 1)
      && (op != Release(id) && op != Deliver(id, true) && op != CloseAll ==> id in st'.pending && st'.pending[id] == c)
  {
    assert (ops + [op])[..|ops|] == ops;
    ChannelsCloseAtMostOnce(ops);
    var st := Run(ops);
    assert st.pending[id] in st.pending.Values;
  }

  /** Closing is final: after it the pending map stays empty in every continuation. */
  lemma {:induction false} ClosedStaysEmpty(ops: seq<Op>, more: seq<Op>)
    requires Run(ops).closed
    ensures Run(ops + more).closed && Run(ops + more).pending == map[]
  {
    if more == [] {
      assert ops + more == ops;
      ChannelsCloseAtMostOnce(ops);
    } else {
      var n := |more| - 1;
      ClosedStaysEmpty(ops, more[..n]);
      assert (ops + more)[..|ops + more| - 1] == ops + more[..n];
    }
  }

  /** No waiter is left behind: once the stream is closed, every channel ever made has been
      closed, is being closed by a final delivery, or was given up; with unrepeated ids none
      was pushed out. */
  lemma NoWaiterLeftBehind(ops: seq<Op>, c: nat)
    requires Run(ops).closed && c < Run(ops).next
    ensures var st := Run(ops); st.closes[c] == 1 || c in st.closing || c in st.released || c in st.replaced
    ensures (forall i, j :: 0 <= i < j < |ops| && ops[i].Register? && ops[j].Register? ==> ops[i].id != ops[j].id)
      ==> c !in Run(ops).replaced
  {
    ChannelsCloseAtMostOnce(ops);
    var st := Run(ops);
    assert Places(st.pending.Values, st.closing, st.closes, st.released, st.replaced, c) == 1;
    if forall i, j :: 0 <= i < j < |ops| && ops[i].Register? && ops[j].Register? ==> ops[i].id != ops[j].id {
      FreshIdsReplaceNothing(ops);
    }
  }

  // Ids registered by a run.
  function Registered(ops: seq<Op>): set<string> {
    set op | op in ops && op.Register? :: op.id
  }

  lemma {:induction false} FreshIdsReplaceNothing(ops: seq<Op>)
    requires forall i, j :: 0 <= i < j < |ops| && ops[i].Register? && ops[j].Register? ==> ops[i].id != ops[j].id
    ensures Run(ops).replaced == {} && Run(ops).pending.Keys <= Registered(ops)
  {
    if ops != [] {
      var n := |ops| - 1;
      FreshIdsReplaceNothing(ops[..n]);
      assert ops == ops[..n] + [ops[n]];
      assert Registered(ops[..n]) <= Registered(ops);
      if ops[n].Register? {
        assert ops[n].id in Registered(ops);
        assert ops[n].id !in Registered(ops[..n]);
      }
    }
  }

  // --------------------------------------------------------------- the stream object

  lemma DoneOneMore(done: set<nat>, left: map<string, nat>, id: string, all: set<nat>)
    requires id in left && Injective(left) && done !! left.Values && done + left.Values == all
    ensures var left', done' := left - {id}, done + {left[id]};
      && Injective(left') && |left'| < |left|
      && done' !! left'.Values && done' + left'.Values == all
      && multiset(done') == multiset(done) + multiset{left[id]}
  {
    RemoveValue(left, id);
    assert left[id] in left.Values;
  }

  class ActiveStream {
    var pending: map<string, nat>
    var closed: bool
    var next: nat
    ghost var closing: set<nat>
    var closes: multiset<nat>
    ghost var released: set<nat>
    ghost var replaced: set<nat>

    ghost function View(): State
      reads this
    {
      State(pending, closed, next, closing, closes, released, replaced)
    }

    method RegisterCommand(id: string) returns (ok: bool, chan: nat)
      requires ChannelsOk(View())
      modifies this
      ensures View() == Apply(old(View()), Register(id)) && ChannelsOk(View())
      ensures ok <==> !old(closed) && |old(pending)| < 8
      ensures ok ==> id in pending && pending[id] == chan && chan == old(next)
    {
      RegisterKeeps(View(), id);
      chan := next;
      ok := false;
      if closed {
        return;
      }
      if |pending| >= MAX_IN_FLIGHT {
        return;
      }
      if id in pending {
        replaced := replaced + {pending[id]};
      }
      pending, next := pending[id := chan], next + 1;
      ok := true;
    }

    method ReleaseCommand(id: string) returns (stillPending: bool)
      requires ChannelsOk(View())
      modifies this
      ensures View() == Apply(old(View()), Release(id)) && ChannelsOk(View())
      ensures stillPending <==> id in old(pending)
    {
      ApplyKeeps(View(), Release(id));
      stillPending := id in pending;
      if stillPending {
        released := released + {pending[id]};
      }
      pending := pending - {id};
    }

    /** A delivery: the lookup under the lock, then the close of a finished channel. */
    method DeliverResult(id: string, last: bool) returns (delivered: bool)
      requires ChannelsOk(View())
      modifies this
      ensures delivered <==> id in old(pending)
      ensures View() == if delivered && last then Apply(Apply(old(View()), Deliver(id, last)), CloseDelivered(old(pending)[id]))
                        else old(View())
      ensures ChannelsOk(View())
    {
      delivered := id in pending;
      if delivered && last {
        var c := pending[id];
        ApplyKeeps(View(), Deliver(id, last));
        ApplyKeeps(Apply(View(), Deliver(id, last)), CloseDelivered(c));
        assert c in pending.Values;
        assert Places(pending.Values, closing, closes, released, replaced, c) == 1 || c >= next;
        pending := pending - {id};
        closes := closes + multiset{c};
        assert closing + {c} - {c} == closing;
      }
    }

    // Closes the channels one by one, in any order, and empties the map.
    method CloseEach()
      requires Injective(pending)
      modifies this`pending, this`closes
      ensures pending == map[] && closes == old(closes) + multiset(old(pending).Values)
    {
      ghost var done: set<nat> := {};
      while pending != map[]
        invariant Injective(pending)
        invariant done !! pending.Values && done + pending.Values == old(pending).Values
        invariant closes == old(closes) + multiset(done)
        decreases |pending|
      {
        var id :| id in pending;
        var c := pending[id];
        DoneOneMore(done, pending, id, old(pending).Values);
        closes := closes + multiset{c};
        pending := pending - {id};
        done := done + {c};
      }
      assert done == old(pending).Values;
    }

    method ReleaseAll()
      requires ChannelsOk(View())
      modifies this
      ensures View() == Apply(old(View()), CloseAll) && ChannelsOk(View())
    {
      ApplyKeeps(View(), CloseAll);
      if closed {
        return;
      }
      closed := true;
      CloseEach();
    }
  }
}
