/** The lock-protected tables of a connection as the objects they are. Each
    carries the half of the shared state it stands for, and each method is shown
    to be the atomic sections and sends that the transition system is made of, in
    that order and with nothing in between. */
module Tables {
  import opened Wrappers
  import opened Messages
  import C = Calls
  import R = Reverse

  /** Both ends of a one-shot channel. */
  class OneShot {
    var slot: Option<Payload>
    var listening: bool              // the receiver has not been dropped

    constructor ()
      ensures slot == None && listening
    {
      slot, listening := None, true;
    }

    /** Uses the sending end; fails when nobody listens any more. */
    method Send(p: Payload) returns (ok: bool)
      modifies this
      ensures ok == old(listening) && listening == old(listening)
      ensures slot == if ok then Some(p) else old(slot)
    {
      ok := listening;
      if ok {
        slot := Some(p);
      }
    }

    /** Drops the receiving end. */
    method Close()
      modifies this
      ensures !listening && slot == old(slot)
    {
      listening := false;
    }
  }

  // ----- objects and their numbers --------------------------------------

  ghost predicate Injective<T>(objects: map<nat, T>) {
    forall m, n | m in objects && n in objects && objects[m] == objects[n] :: m == n
  }

  /** The table of objects is the abstract table seen through the owners. */
  ghost predicate InStep<T>(table: map<Id, T>, numbers: map<Id, nat>, objects: map<nat, T>) {
    && table.Keys == numbers.Keys
    && forall id | id in table :: numbers[id] in objects && table[id] == objects[numbers[id]]
  }

  /** The set holds the objects of the given numbers. */
  ghost predicate Covers<T>(held: set<T>, numbers: set<nat>, objects: map<nat, T>) {
    && (forall n | n in numbers :: n in objects && objects[n] in held)
    && (forall x | x in held :: exists n :: n in numbers && n in objects && objects[n] == x)
  }

  lemma ValuesCovered<T>(table: map<Id, T>, numbers: map<Id, nat>, objects: map<nat, T>)
    requires InStep(table, numbers, objects)
    ensures Covers(table.Values, numbers.Values, objects)
  {
    forall n | n in numbers.Values ensures n in objects && objects[n] in table.Values {
      var id :| id in numbers && numbers[id] == n;
      assert table[id] in table.Values;
    }
    forall x | x in table.Values ensures exists n :: n in numbers.Values && n in objects && objects[n] == x {
      var id :| id in table && table[id] == x;
      assert numbers[id] in numbers.Values;
    }
  }

  lemma Pick<T>(held: set<T>, numbers: set<nat>, objects: map<nat, T>, x: T) returns (n: nat)
    requires Covers(held, numbers, objects) && x in held
    ensures n in numbers && n in objects && objects[n] == x
  {
    n :| n in numbers && n in objects && objects[n] == x;
  }

  lemma Drop<T>(held: set<T>, numbers: set<nat>, objects: map<nat, T>, n: nat)
    requires Covers(held, numbers, objects) && Injective(objects) && n in numbers
    ensures Covers(held - {objects[n]}, numbers - {n}, objects)
  {
    forall x | x in held - {objects[n]} ensures exists m :: m in numbers - {n} && m in objects && objects[m] == x {
      var m :| m in numbers && m in objects && objects[m] == x;
      assert m in numbers - {n};
    }
  }

  lemma NoneLeft<T>(numbers: set<nat>, objects: map<nat, T>)
    requires Covers({}, numbers, objects)
    ensures numbers == {}
  {
  }

  lemma InStepMore<T>(table: map<Id, T>, numbers: map<Id, nat>, objects: map<nat, T>, id: Id, n: nat, x: T)
    requires InStep(table, numbers, objects) && n !in objects
    ensures InStep(table[id := x], numbers[id := n], objects[n := x])
  {
  }

  lemma InStepLess<T>(table: map<Id, T>, numbers: map<Id, nat>, objects: map<nat, T>, id: Id)
    requires InStep(table, numbers, objects)
    ensures InStep(table - {id}, numbers - {id}, objects)
  {
  }

  lemma InStepAt<T>(table: map<Id, T>, numbers: map<Id, nat>, objects: map<nat, T>, id: Id)
    requires InStep(table, numbers, objects)
    ensures id in table <==> id in numbers
    ensures id in table ==> numbers[id] in objects && table[id] == objects[numbers[id]]
  {
  }

  lemma InjectiveMore<T>(objects: map<nat, T>, n: nat, x: T)
    requires Injective(objects) && forall m | m in objects :: objects[m] != x
    ensures Injective(objects[n := x])
  {
  }

  // ----- pending calls --------------------------------------------------

  datatype ResolveResult = ResolvedDelivered | AwaiterDropped | NoMatch

  /** Which of the two tasks drains. */
  datatype Drainer = ByReader | ByWriter

  function Held(c: C.Calls, who: Drainer): set<nat> {
    if who.ByReader? then c.readerHeld else c.writerHeld
  }

  function Drain(c: C.Calls, who: Drainer): C.Calls {
    if who.ByReader? then C.ReaderDrain(c) else C.WriterDrain(c)
  }

  function TellOne(c: C.Calls, who: Drainer, n: nat, reason: string): C.Calls {
    if who.ByReader? then C.ReaderSend(c, n, reason) else C.WriterSend(c, n, reason)
  }

  function TellEach(c: C.Calls, who: Drainer, order: seq<nat>, reason: string): C.Calls {
    if order == [] then c
    else TellOne(TellEach(c, who, order[..|order| - 1], reason), who, order[|order| - 1], reason)
  }

  ghost predicate Places(c: C.Calls) {
    C.Named(c) && C.TableNamed(c) && C.OnePlace(c)
  }

  /** What a channel shows. */
  datatype Shown = Shown(slot: Option<Payload>, listening: bool)

  /** A channel shows what the call it belongs to has got, and listens as long as
      that call is live; every sender a drainer holds has its channel. */
  ghost predicate Matches(shown: map<nat, Shown>, c: C.Calls) {
    && Places(c)
    && (forall n | n in shown :: C.Joined(c, n) && shown[n] == Shown(c.calls[n].slot, C.Live(c, n)))
    && (forall n | n in c.readerHeld || n in c.writerHeld :: n in shown)
    && (forall n | n in c.pending.Values :: n in shown)
    && (c.hand.Some? ==> c.hand.value.call in shown)
  }

  lemma RegisterKeepsPlaces(c: C.Calls, n: nat)
    requires Places(c) && n < |c.calls| && c.calls[n].pc.Minted?
    ensures Places(C.Register(c, n)) && !C.Joined(c, n)
  {
    C.FreshId(c, n);
    C.RegisterPlaces(c, n);
    hide C.OnePlace, C.TableNamed;
  }

  lemma RegisterMatches(shown: map<nat, Shown>, c: C.Calls, n: nat)
    requires Matches(shown, c) && n < |c.calls| && c.calls[n].pc.Minted?
    ensures n !in shown && Matches(shown[n := Shown(None, true)], C.Register(c, n))
    ensures C.Register(c, n).pending == c.pending[c.calls[n].id := n]
  {
    RegisterKeepsPlaces(c, n);
    hide Places;
  }

  /** Drawing an id concerns no channel. */
  lemma MintMatches(shown: map<nat, Shown>, c: C.Calls)
    requires Matches(shown, c)
    ensures Matches(shown, C.Mint(c))
  {
    C.MintPlaces(c);
    hide C.OnePlace;
  }

  /** A call that moves on keeps its receiver or drops it. */
  predicate MovesOn(c: C.Calls, n: nat, pc: C.CallPc) {
    && C.Live(c, n) && !pc.Minted?
    && (c.calls[n].pc.Waiting? ==> !pc.Registered?)
  }

  lemma SetPcMatches(shown: map<nat, Shown>, c: C.Calls, n: nat, pc: C.CallPc)
    requires Matches(shown, c) && MovesOn(c, n, pc)
    ensures Matches(if n in shown then shown[n := shown[n].(listening := pc.Registered? || pc.Waiting?)] else shown,
                    C.SetPc(c, n, pc))
  {
    C.SetPcPlaces(c, n, pc);
    hide C.OnePlace;
  }

  function Resolved(c: C.Calls, id: Id, outcome: Outcome): C.Calls {
    var removed := C.Remove(c, id, outcome);
    if removed.hand.Some? then C.DeliverHand(removed) else removed
  }

  /** What a send shows. */
  function After(v: Shown, p: Payload): Shown {
    if v.listening then v.(slot := Some(p)) else v
  }

  lemma RemoveMatches(shown: map<nat, Shown>, c: C.Calls, id: Id, outcome: Outcome)
    requires Matches(shown, c) && c.hand.None?
    ensures Matches(shown, C.Remove(c, id, outcome)) && C.Remove(c, id, outcome).pending == c.pending - {id}
  {
    C.RemovePlaces(c, id, outcome);
    assert id in c.pending ==> c.pending[id] in c.pending.Values;
    hide C.OnePlace;
  }

  lemma DeliverMatches(shown: map<nat, Shown>, c: C.Calls)
    requires Matches(shown, c) && c.hand.Some?
    ensures c.hand.value.call in shown
    ensures var n := c.hand.value.call;
            Matches(shown[n := After(shown[n], Answer(c.hand.value.outcome))], C.DeliverHand(c))
    ensures C.DeliverHand(c).pending == c.pending
  {
    DeliverKeepsPlaces(c);
    hide Places;
  }

  lemma DeliverKeepsPlaces(c: C.Calls)
    requires Places(c) && c.hand.Some?
    ensures Places(C.DeliverHand(c))
  {
    C.DeliverPlaces(c);
    hide C.OnePlace, C.TableNamed;
  }

  lemma MatchesAt(shown: map<nat, Shown>, c: C.Calls, n: nat)
    requires Matches(shown, c) && n in shown
    ensures n < |c.calls| && shown[n] == Shown(c.calls[n].slot, C.Live(c, n))
  {
  }

  lemma DrainMatches(shown: map<nat, Shown>, c: C.Calls, who: Drainer)
    requires Matches(shown, c) && Held(c, who) == {}
    ensures Matches(shown, Drain(c, who))
    ensures Held(Drain(c, who), who) == c.pending.Values && Drain(c, who).pending == map[]
  {
    C.DrainPlaces(c);
    hide C.OnePlace;
  }

  lemma SendMatches(shown: map<nat, Shown>, c: C.Calls, d: C.Calls, n: nat, p: Payload)
    requires Matches(shown, c) && n in shown && Places(d)
    requires d == C.Send(c, n, p).(readerHeld := d.readerHeld, writerHeld := d.writerHeld)
    requires d.readerHeld <= c.readerHeld && d.writerHeld <= c.writerHeld
    ensures Matches(shown[n := After(shown[n], p)], d)
  {
    hide Places;
  }

  lemma TellMatches(shown: map<nat, Shown>, c: C.Calls, who: Drainer, n: nat, reason: string)
    requires Matches(shown, c) && n in Held(c, who)
    ensures n in shown
    ensures Matches(shown[n := After(shown[n], Disconnected(reason))], TellOne(c, who, n, reason))
    ensures TellOne(c, who, n, reason).pending == c.pending
    ensures Held(TellOne(c, who, n, reason), who) == Held(c, who) - {n}
  {
    TellKeepsPlaces(c, who, n, reason);
    SendMatches(shown, c, TellOne(c, who, n, reason), n, Disconnected(reason));
    hide Places, Matches;
  }

  lemma TellKeepsPlaces(c: C.Calls, who: Drainer, n: nat, reason: string)
    requires Places(c) && n in Held(c, who)
    ensures Places(TellOne(c, who, n, reason))
  {
    if who.ByReader? {
      C.ReaderSendPlaces(c, n, reason);
    } else {
      C.WriterSendPlaces(c, n, reason);
    }
  }

  lemma TellEachMore(c: C.Calls, who: Drainer, order: seq<nat>, n: nat, reason: string)
    ensures TellEach(c, who, order + [n], reason) == TellOne(TellEach(c, who, order, reason), who, n, reason)
  {
    assert (order + [n])[..|order|] == order;
  }

  class PendingRequests {
    var pending: map<Id, OneShot>
    ghost var calls: C.Calls                  // the shared state it stands for
    ghost var senders: map<nat, OneShot>      // the channel of each registered call
    ghost var owned: set<OneShot>

    ghost function View(): map<nat, Shown>
      reads this, owned
      requires forall n | n in senders :: senders[n] in owned
    {
      map n | n in senders :: Shown(senders[n].slot, senders[n].listening)
    }

    /** The table holds the channels of the pending calls, and every channel shows
        what its call has got. */
    ghost predicate Valid()
      reads this, owned
    {
      && (forall n | n in senders :: senders[n] in owned)
      && Injective(senders) && InStep(pending, calls.pending, senders)
      && Matches(View(), calls)
    }

    constructor ()
      ensures Valid() && calls == C.Initial && fresh(this)
    {
      pending := map[];
      calls, senders, owned := C.Initial, map[], {};
    }

    /** A send, and what it shows. */
    method SendTo(tx: OneShot, p: Payload, ghost n: nat) returns (ok: bool)
      requires (forall m | m in senders :: senders[m] in owned) && Injective(senders)
      requires n in senders && senders[n] == tx
      modifies tx
      ensures View() == old(View())[n := After(old(View())[n], p)]
      ensures ok == old(View())[n].listening
    {
      ghost var shown := View();
      assert forall m | m in senders && m != n :: senders[m] != tx;
      ok := tx.Send(p);
      assert View() == shown[n := After(shown[n], p)];
    }

    /** Some call draws its id. */
    ghost method NoteMinted()
      requires Valid()
      modifies `calls
      ensures Valid() && calls == C.Mint(old(calls))
    {
      MintMatches(View(), calls);
      hide Matches;
      calls := C.Mint(calls);
    }

    /** Some call has queued its request and goes on to wait for its answer. */
    ghost method NoteQueued(n: nat)
      requires Valid() && n < |calls.calls| && calls.calls[n].pc.Registered?
      modifies `calls
      ensures Valid() && calls == C.SetPc(old(calls), n, C.Waiting)
    {
      ghost var shown := View();
      SetPcMatches(shown, calls, n, C.Waiting);
      assert n in shown ==> shown[n := shown[n].(listening := true)] == shown;
      hide Matches;
      calls := C.SetPc(calls, n, C.Waiting);
    }

    /** Some call returns or is dropped, and its receiver goes with it. */
    method CloseReceiver(rx: OneShot, ghost n: nat, ghost pc: C.CallPc)
      requires Valid() && C.Live(calls, n) && (pc.Returned? || pc.Dropped?)
      requires n in senders && senders[n] == rx
      modifies `calls, rx
      ensures Valid() && calls == C.SetPc(old(calls), n, pc)
      ensures !rx.listening && rx.slot == old(rx.slot)
    {
      ghost var shown := View();
      SetPcMatches(shown, calls, n, pc);
      ClosedShows(rx, n);
      hide Matches, Injective, InStep;
      rx.Close();
      calls := C.SetPc(calls, n, pc);
      assert View() == shown[n := shown[n].(listening := false)];
    }

    lemma ClosedShows(rx: OneShot, n: nat)
      requires Injective(senders) && n in senders && senders[n] == rx
      ensures forall m | m in senders && m != n :: senders[m] != rx
    {
    }

    /** The critical section of a call that registers under its id. Its id is new,
        so no sender is replaced. */
    method Register(id: Id, ghost n: nat) returns (rx: OneShot)
      requires Valid()
      requires n < |calls.calls| && calls.calls[n].pc.Minted? && calls.calls[n].id == id
      modifies this
      ensures Valid() && fresh(rx) && rx.slot == None && rx.listening
      ensures calls == C.Register(old(calls), n)
      ensures senders == old(senders)[n := rx] && owned == old(owned) + {rx}
    {
      rx := new OneShot();
      AddSender(id, rx, n);
    }

    /** Its locked part. */
    method AddSender(id: Id, rx: OneShot, ghost n: nat)
      requires Valid() && rx !in owned && rx.slot == None && rx.listening
      requires n < |calls.calls| && calls.calls[n].pc.Minted? && calls.calls[n].id == id
      modifies this
      ensures Valid() && calls == C.Register(old(calls), n)
      ensures senders == old(senders)[n := rx] && owned == old(owned) + {rx}
    {
      hide Matches, Injective, InStep, C.Register;
      ghost var shown := View();
      RegisterMatches(shown, calls, n);
      assert n !in senders;
      InjectiveMore(senders, n, rx);
      InStepMore(pending, calls.pending, senders, id, n, rx);
      pending := pending[id := rx];
      calls := C.Register(calls, n);
      assert View() == shown;
      NoteSender(n, rx);
    }

    /** The books of a registration. */
    ghost method NoteSender(n: nat, rx: OneShot)
      requires (forall m | m in senders :: senders[m] in owned) && n !in senders && rx.slot == None && rx.listening
      modifies `senders, `owned
      ensures senders == old(senders)[n := rx] && owned == old(owned) + {rx}
      ensures forall m | m in senders :: senders[m] in owned
      ensures View() == old(View())[n := Shown(None, true)]
    {
      ghost var shown := View();
      senders, owned := senders[n := rx], owned + {rx};
      assert View() == shown[n := Shown(None, true)];
    }

    /** A response: the sender is removed under the lock and then used. A second
        response with the same id, or one with an unknown id, finds nothing. */
    method Resolve(id: Id, outcome: Outcome) returns (r: ResolveResult)
      requires Valid() && calls.hand.None?
      modifies this, if id in pending then {pending[id]} else {}
      ensures Valid() && senders == old(senders) && owned == old(owned)
      ensures calls == Resolved(old(calls), id, outcome)
      ensures r == NoMatch <==> id !in old(calls.pending)
      ensures r == ResolvedDelivered <==> id in old(calls.pending) && C.Live(old(calls), old(calls.pending)[id])
    {
      var tx := TakeSender(id, outcome);
      if tx == null {
        return NoMatch;
      }
      var ok := UseSender(tx, outcome);
      r := if ok then ResolvedDelivered else AwaiterDropped;
    }

    /** The locked part of a resolve. */
    method TakeSender(id: Id, outcome: Outcome) returns (tx: OneShot?)
      requires Valid() && calls.hand.None?
      modifies `pending, `calls
      ensures Valid() && calls == C.Remove(old(calls), id, outcome)
      ensures if id in old(calls.pending)
              then tx != null && old(calls.pending)[id] in senders && tx == senders[old(calls.pending)[id]]
                   && id in old(pending) && tx == old(pending)[id]
              else tx == null
    {
      hide Matches, Injective, InStep, C.Remove;
      ghost var shown := View();
      RemoveMatches(shown, calls, id, outcome);
      InStepAt(pending, calls.pending, senders, id);
      InStepLess(pending, calls.pending, senders, id);
      tx := null;
      if id in pending {
        tx := pending[id];
      }
      pending := pending - {id};
      calls := C.Remove(calls, id, outcome);
      assert View() == shown;
    }

    /** The send of a resolve. */
    method UseSender(tx: OneShot, outcome: Outcome) returns (ok: bool)
      requires Valid() && calls.hand.Some? && calls.hand.value.outcome == outcome
      requires calls.hand.value.call in senders && senders[calls.hand.value.call] == tx
      modifies `calls, tx
      ensures Valid() && calls == C.DeliverHand(old(calls))
      ensures ok <==> C.Live(old(calls), old(calls.hand.value.call))
    {
      hide Matches, Injective, InStep, C.DeliverHand, C.Live, After;
      ghost var n, shown := calls.hand.value.call, View();
      DeliverMatches(shown, calls);
      MatchesAt(shown, calls, n);
      ok := SendTo(tx, Answer(outcome), n);
      ghost var sent := View();
      calls := C.DeliverHand(calls);
      assert View() == sent;
    }

    /** Empties the table under the lock, then uses one sender after the other. */
    method DrainWithDisconnected(reason: string, ghost who: Drainer) returns (ghost order: seq<nat>)
      requires Valid() && Held(calls, who) == {}
      modifies this, owned
      ensures Valid() && senders == old(senders) && owned == old(owned) && pending == map[]
      ensures calls == TellEach(Drain(old(calls), who), who, order, reason) && Held(calls, who) == {}
    {
      var drained := TakeAll(who);
      order := TellAll(drained, reason, who);
    }

    /** The locked part of a drain. */
    method TakeAll(ghost who: Drainer) returns (drained: set<OneShot>)
      requires Valid() && Held(calls, who) == {}
      modifies this
      ensures Valid() && senders == old(senders) && owned == old(owned)
      ensures pending == map[] && calls == Drain(old(calls), who) && Covers(drained, Held(calls, who), senders)
    {
      DrainMatches(View(), calls, who);
      ValuesCovered(pending, calls.pending, senders);
      drained := pending.Values;
      ghost var shown := View();
      hide Matches, Covers, Injective, Drain, Held;
      pending := map[];
      calls := Drain(calls, who);
      assert View() == shown;
    }

    /** The sends of a drain, in whatever order the table was drained. */
    method TellAll(drained: set<OneShot>, reason: string, ghost who: Drainer) returns (ghost order: seq<nat>)
      requires Valid() && Covers(drained, Held(calls, who), senders)
      modifies `calls, drained
      ensures Valid() && calls == TellEach(old(calls), who, order, reason) && Held(calls, who) == {}
      ensures pending == old(pending)
    {
      order := [];
      ghost var start := calls;
      var left := drained;
      assert TellEach(start, who, [], reason) == start;
      hide *;
      while left != {}
        invariant Valid() && left <= drained && calls == TellEach(start, who, order, reason)
        invariant Covers(left, Held(calls, who), senders)
        decreases left
      {
        var tx :| tx in left;
        ghost var n := Pick(left, Held(calls, who), senders, tx);
        TellEachMore(start, who, order, n, reason);
        TellSender(tx, reason, who, n, left);
        left := left - {tx};
        order := order + [n];
      }
      NoneLeft(Held(calls, who), senders);
    }

    /** One send of a drain. */
    method TellSender(tx: OneShot, reason: string, ghost who: Drainer, ghost n: nat, ghost left: set<OneShot>)
      requires Valid() && n in Held(calls, who) && n in senders && senders[n] == tx
      requires Covers(left, Held(calls, who), senders)
      modifies `calls, tx
      ensures Valid() && calls == TellOne(old(calls), who, n, reason)
      ensures Covers(left - {tx}, Held(calls, who), senders)
    {
      hide Matches, Covers, Injective, InStep, TellOne, After;
      Drop(left, Held(calls, who), senders, n);
      TellMatches(View(), calls, who, n, reason);
      var ok := SendTo(tx, Disconnected(reason), n);
      ghost var sent := View();
      calls := TellOne(calls, who, n, reason);
      assert View() == sent;
    }
  }

  /** A call draws its id, registers and queues its request, or drops its receiver
      right after registering. */
  function Begun(c: C.Calls, gone: bool): (d: C.Calls)
    ensures |d.calls| == |c.calls| + 1
  {
    var n := |c.calls|;
    C.SetPc(C.Register(C.Mint(c), n), n, if gone then C.Dropped else C.Waiting)
  }

  lemma BegunPending(c: C.Calls, gone: bool)
    ensures var d, n := Begun(c, gone), |c.calls|;
            && d.hand == c.hand && d.pending == c.pending[CallId(n + 1) := n]
            && (C.Live(d, n) <==> !gone) && d.calls[n].slot.None?
  {
  }

  lemma ResolvedOnce(c: C.Calls, id: Id, n: nat, outcome: Outcome)
    requires c.hand.None? && id in c.pending && c.pending[id] == n < |c.calls| && c.calls[n].slot.None?
    ensures var d := Resolved(c, id, outcome);
            && d.hand.None? && id !in d.pending && n < |d.calls|
            && d.calls[n].slot == if C.Live(c, n) then Some(Answer(outcome)) else None
  {
  }

  lemma ResolvedNot(c: C.Calls, id: Id, outcome: Outcome)
    requires c.hand.None? && id !in c.pending
    ensures Resolved(c, id, outcome).calls == c.calls
  {
  }

  lemma RegisteredLives(c: C.Calls, n: nat)
    requires n < |c.calls|
    ensures var d := C.Register(c, n);
            C.Live(d, n) && n < |d.calls| && d.calls[n].pc.Registered?
  {
  }

  method Begin(table: PendingRequests, n: nat, gone: bool) returns (rx: OneShot)
    requires table.Valid() && n == |table.calls.calls|
    modifies table, table.owned
    ensures table.Valid() && fresh(rx) && table.calls == Begun(old(table.calls), gone)
    ensures n in table.senders && table.senders[n] == rx && table.owned == old(table.owned) + {rx}
  {
    hide Matches, InStep, Injective, C.Register, C.Live, CallId;
    table.NoteMinted();
    RegisteredLives(table.calls, n);
    rx := table.Register(CallId(n + 1), n);
    if gone {
      table.CloseReceiver(rx, n, C.Dropped);
    } else {
      table.NoteQueued(n);
    }
  }

  /** Whatever else is in the table: the first response with the id of a call is
      delivered, or finds its receiver dropped; a second one finds nothing. */
  method RegisterThenResolve(table: PendingRequests, n: nat, gone: bool, first: Outcome, second: Outcome)
    returns (rx: OneShot, r: ResolveResult, again: ResolveResult)
    requires table.Valid() && table.calls.hand.None? && n == |table.calls.calls|
    modifies table, table.owned
    ensures table.Valid() && fresh(rx)
    ensures r == if gone then AwaiterDropped else ResolvedDelivered
    ensures rx.slot == if gone then None else Some(Answer(first))
    ensures again == NoMatch
  {
    hide Matches, Injective, Resolved, Begun, C.Live, CallId;
    BegunPending(table.calls, gone);
    rx := Begin(table, n, gone);
    ResolvedOnce(table.calls, CallId(n + 1), n, first);
    r := table.Resolve(CallId(n + 1), first);
    ResolvedNot(table.calls, CallId(n + 1), second);
    again := table.Resolve(CallId(n + 1), second);
    MatchesAt(table.View(), table.calls, n);
  }

  // ----- handler tasks --------------------------------------------------

  class JoinHandle {
    var aborted: bool

    constructor ()
      ensures !aborted
    {
      aborted := false;
    }

    method Abort()
      modifies this
      ensures aborted
    {
      aborted := true;
    }
  }

  function AbortEach(r: R.Reverse, order: seq<nat>): R.Reverse {
    if order == [] then r
    else
      var before := AbortEach(r, order[..|order| - 1]);
      var k := order[|order| - 1];
      if k < |before.requests| then R.AbortOne(before, k) else before
  }

  lemma AbortEachMore(r: R.Reverse, order: seq<nat>, k: nat)
    requires k < |AbortEach(r, order).requests|
    ensures AbortEach(r, order + [k]) == R.AbortOne(AbortEach(r, order), k)
  {
    assert (order + [k])[..|order|] == order;
  }

  class PendingReverse {
    var table: map<Id, JoinHandle>
    ghost var reverse: R.Reverse                // the shared state it stands for
    ghost var handles: map<nat, JoinHandle>     // the handle of each recorded task
    ghost var owned: set<JoinHandle>

    ghost predicate Valid()
      reads this, owned
    {
      && (forall k | k in handles :: handles[k] in owned)
      && (forall k | k in handles :: k < |reverse.requests| && handles[k].aborted == reverse.requests[k].aborted)
      && Injective(handles)
      && (forall k | k in reverse.aborting :: k in handles)
      && InStep(table, reverse.table, handles)
    }

    constructor ()
      ensures Valid() && reverse == R.Initial && fresh(this)
    {
      table := map[];
      reverse, handles, owned := R.Initial, map[], {};
    }

    /** The reader inserts the handle of the task it has spawned; a handle under the
        same id is replaced, whoever it belongs to. */
    method Insert(id: Id, handle: JoinHandle, ghost k: nat)
      requires Valid() && reverse.recording == Some(k) && k < |reverse.requests| && reverse.requests[k].id == id
      requires k !in handles && handle !in owned && handle.aborted == reverse.requests[k].aborted
      modifies this
      ensures Valid() && reverse == R.Record(old(reverse), k)
      ensures handles == old(handles)[k := handle] && owned == old(owned) + {handle}
    {
      table := table[id := handle];
      reverse := R.Record(reverse, k);
      handles, owned := handles[k := handle], owned + {handle};
    }

    /** A task that cleans up removes whatever handle is under its id. */
    method Remove(id: Id, ghost k: nat) returns (handle: Option<JoinHandle>)
      requires Valid() && k < |reverse.requests|
      requires reverse.requests[k].phase.CleaningUp? && reverse.requests[k].id == id
      modifies this
      ensures Valid() && reverse == R.CleanUp(old(reverse), k) && handles == old(handles) && owned == old(owned)
      ensures handle == if id in old(reverse.table) then Some(handles[old(reverse.table)[id]]) else None
    {
      handle := if id in table then Some(table[id]) else None;
      table := table - {id};
      reverse := R.CleanUp(reverse, k);
    }

    /** Empties the table under the lock, then aborts one handle after the other. */
    method AbortAll() returns (ghost order: seq<nat>)
      requires Valid() && reverse.aborting == {}
      modifies this, owned
      ensures Valid() && handles == old(handles) && owned == old(owned) && table == map[]
      ensures reverse == AbortEach(R.LockAbort(old(reverse)), order) && reverse.aborting == {}
    {
      var drained := TakeAll();
      order := AbortThem(drained);
    }

    /** The aborts, in whatever order the table was drained. */
    method AbortThem(drained: set<JoinHandle>) returns (ghost order: seq<nat>)
      requires Valid() && Covers(drained, reverse.aborting, handles)
      modifies `reverse, drained
      ensures Valid() && reverse == AbortEach(old(reverse), order) && reverse.aborting == {}
    {
      order := [];
      ghost var start := reverse;
      var left := drained;
      assert AbortEach(start, []) == start;
      hide *;
      while left != {}
        invariant Valid() && left <= drained && reverse == AbortEach(start, order)
        invariant Covers(left, reverse.aborting, handles)
        decreases left
      {
        var h :| h in left;
        ghost var k := Pick(left, reverse.aborting, handles, h);
        HandleInRange(k);
        AbortEachMore(start, order, k);
        AbortHandle(h, k, left);
        left := left - {h};
        order := order + [k];
      }
      NoneLeft(reverse.aborting, handles);
    }

    /** The locked part of aborting everything. */
    method TakeAll() returns (drained: set<JoinHandle>)
      requires Valid() && reverse.aborting == {}
      modifies this
      ensures Valid() && handles == old(handles) && owned == old(owned) && table == map[]
      ensures reverse == R.LockAbort(old(reverse)) && Covers(drained, reverse.aborting, handles)
    {
      ValuesCovered(table, reverse.table, handles);
      drained := table.Values;
      table := map[];
      reverse := R.LockAbort(reverse);
    }

    lemma HandleInRange(k: nat)
      requires Valid() && k in handles
      ensures k < |reverse.requests| && handles[k] in owned
    {
    }

    /** One abort. */
    method AbortHandle(h: JoinHandle, ghost k: nat, ghost drained: set<JoinHandle>)
      requires Valid() && k in reverse.aborting && k in handles && handles[k] == h
      requires Covers(drained, reverse.aborting, handles)
      modifies `reverse, h
      ensures Valid() && k < |old(reverse).requests| && reverse == R.AbortOne(old(reverse), k)
      ensures Covers(drained - {h}, reverse.aborting, handles)
    {
      Drop(drained, reverse.aborting, handles, k);
      h.Abort();
      reverse := R.AbortOne(reverse, k);
    }
  }
}
