/** The caller-facing half of a connection: the table from id to one-shot sender
    and where every sender currently is.

    A sender is identified by the number of the call that created it. Between
    the moment a call registers and the moment its channel is used, the sender
    moves between the table, the local list of a draining task and the hand of
    the reader; the theorem of this module is that it is always in exactly one
    of these places, so a channel is used at most once. */
module Calls {
  import opened Wrappers
  import opened Messages

  /** Program counter of one `Client::call` future. */
  datatype CallPc =
    | Minted                          // id taken, not registered yet
    | Registered                      // waiting for room in the outbound queue
    | Waiting                         // awaiting the one-shot receiver
    | Returned(result: CallResult)
    | Dropped                         // the caller dropped the future

  /** What was true when a call took the table lock to register. */
  datatype Registration = Registration(resolvedBefore: nat, afterReaderDrain: bool, afterWriterDrain: bool)

  /** One call: its wire id, where its future stands, what its one-shot channel
      holds and (history, meaningful once registered) when it registered. */
  datatype Call = Call(id: Id, pc: CallPc, slot: Option<Payload>, since: Registration)

  datatype Resolution = Resolution(id: Id, outcome: Outcome)

  datatype InHand = InHand(call: nat, outcome: Outcome)

  datatype Calls = Calls(
    calls: seq<Call>,                  // in the order of their ids
    pending: map<Id, nat>,             // the table guarded by the mutex
    readerHeld: set<nat>,              // senders the reader drained and still holds
    writerHeld: set<nat>,              // senders the writer drained and still holds
    hand: Option<InHand>,              // sender removed by `resolve`, about to be used
    // History: responses in the order in which they took the table lock, and
    // which drains have taken it.
    resolved: seq<Resolution>,
    readerDrained: bool,
    writerDrained: bool,
    drainedByReader: set<nat>)

  const Initial := Calls([], map[], {}, {}, None, [], false, false, {})

  /** Call `n` has registered. */
  predicate Joined(c: Calls, n: nat) {
    n < |c.calls| && !c.calls[n].pc.Minted?
  }

  /** The receiver of call `n` is still alive. */
  predicate Live(c: Calls, n: nat) {
    n < |c.calls| && (c.calls[n].pc.Registered? || c.calls[n].pc.Waiting?)
  }

  /** The table holds the sender of call `n` under the id of that call. */
  predicate Tabled(c: Calls, n: nat) {
    n < |c.calls| && c.calls[n].id in c.pending && c.pending[c.calls[n].id] == n
  }

  predicate InReadersHand(c: Calls, n: nat) {
    c.hand.Some? && c.hand.value.call == n
  }

  predicate Delivered(c: Calls, n: nat) {
    n < |c.calls| && c.calls[n].slot.Some?
  }

  /** The number of places in which the sender of call `n`, or what it
      delivered, can be found. */
  function Places(c: Calls, n: nat): nat {
    (if Tabled(c, n) then 1 else 0)
    + (if n in c.readerHeld then 1 else 0)
    + (if n in c.writerHeld then 1 else 0)
    + (if InReadersHand(c, n) then 1 else 0)
    + (if Delivered(c, n) then 1 else 0)
  }

  // ----- atomic sections ------------------------------------------------

  /** The atomic increment: the first call of a connection has number 1 on the wire. */
  function Mint(c: Calls): Calls {
    c.(calls := c.calls + [Call(CallId(|c.calls| + 1), Minted, None, Registration(0, false, false))])
  }

  function Register(c: Calls, n: nat): Calls
    requires n < |c.calls|
  {
    var since := Registration(|c.resolved|, c.readerDrained, c.writerDrained);
    c.(pending := c.pending[c.calls[n].id := n],
       calls := c.calls[n := c.calls[n].(pc := Registered, since := since)])
  }

  /** Moves the future of call `n` on; its channel is not touched. */
  function SetPc(c: Calls, n: nat, pc: CallPc): Calls
    requires n < |c.calls|
  {
    c.(calls := c.calls[n := c.calls[n].(pc := pc)])
  }

  /** `resolve` under the lock: takes the sender out, if there is one. */
  function Remove(c: Calls, id: Id, outcome: Outcome): Calls {
    c.(resolved := c.resolved + [Resolution(id, outcome)],
       hand := if id in c.pending then Some(InHand(c.pending[id], outcome)) else None,
       pending := c.pending - {id})
  }

  /** A send through the channel of call `n`: lost when the receiver is gone. */
  function Send(c: Calls, n: nat, p: Payload): Calls {
    if Live(c, n) then c.(calls := c.calls[n := c.calls[n].(slot := Some(p))]) else c
  }

  function DeliverHand(c: Calls): Calls
    requires c.hand.Some?
  {
    Send(c, c.hand.value.call, Answer(c.hand.value.outcome)).(hand := None)
  }

  function ReaderDrain(c: Calls): Calls {
    c.(readerHeld := c.pending.Values, pending := map[], readerDrained := true, drainedByReader := c.pending.Values)
  }

  function WriterDrain(c: Calls): Calls {
    c.(writerHeld := c.pending.Values, pending := map[], writerDrained := true)
  }

  function ReaderSend(c: Calls, n: nat, reason: string): Calls {
    Send(c, n, Disconnected(reason)).(readerHeld := c.readerHeld - {n})
  }

  function WriterSend(c: Calls, n: nat, reason: string): Calls {
    Send(c, n, Disconnected(reason)).(writerHeld := c.writerHeld - {n})
  }

  // ----- names ----------------------------------------------------------

  ghost predicate Named(c: Calls) {
    forall n | 0 <= n < |c.calls| :: c.calls[n].id == CallId(n + 1)
  }

  /** The table maps an id only to the call of that name. */
  ghost predicate TableNamed(c: Calls) {
    forall id | id in c.pending :: Joined(c, c.pending[id]) && c.calls[c.pending[id]].id == id
  }

  /** A call that has not registered yet finds no entry under its id, so
      `insert` never overwrites a sender. */
  lemma FreshId(c: Calls, n: nat)
    requires Named(c) && TableNamed(c) && n < |c.calls| && c.calls[n].pc.Minted?
    ensures c.calls[n].id !in c.pending
  {
    if c.calls[n].id in c.pending {
      var m := c.pending[c.calls[n].id];
      assert c.calls[m].id == CallId(m + 1) && c.calls[n].id == CallId(n + 1);
      CallIdInjective(m + 1, n + 1);
    }
  }

  // ----- one place ------------------------------------------------------

  /** Every live call has its sender in exactly one place, every other
      registered call in at most one, and nobody else has one at all. */
  ghost predicate OnePlace(c: Calls) {
    forall n: nat :: Places(c, n) <= (if Joined(c, n) then 1 else 0) && (Live(c, n) ==> Places(c, n) == 1)
  }

  lemma MintPlaces(c: Calls)
    requires TableNamed(c) && OnePlace(c)
    ensures TableNamed(Mint(c)) && OnePlace(Mint(c))
  {
    var d := Mint(c);
    assert Places(c, |c.calls|) == 0;
    forall n: nat ensures Places(d, n) == Places(c, n) && (Live(d, n) <==> Live(c, n)) {
    }
  }

  lemma RegisterPlaces(c: Calls, n: nat)
    requires TableNamed(c) && OnePlace(c)
    requires n < |c.calls| && c.calls[n].pc.Minted? && c.calls[n].id !in c.pending
    ensures TableNamed(Register(c, n)) && OnePlace(Register(c, n))
  {
    var d := Register(c, n);
    assert Places(c, n) == 0;
    forall m: nat ensures Places(d, m) == (if m == n then 1 else Places(c, m)) {
    }
  }

  lemma SetPcPlaces(c: Calls, n: nat, pc: CallPc)
    requires TableNamed(c) && OnePlace(c) && Joined(c, n) && !pc.Minted?
    requires (pc.Registered? || pc.Waiting?) ==> Live(c, n)
    ensures TableNamed(SetPc(c, n, pc)) && OnePlace(SetPc(c, n, pc))
  {
    var d := SetPc(c, n, pc);
    forall m: nat ensures Places(d, m) == Places(c, m) {
    }
  }

  lemma RemovePlaces(c: Calls, id: Id, o: Outcome)
    requires TableNamed(c) && OnePlace(c) && c.hand.None?
    ensures TableNamed(Remove(c, id, o)) && OnePlace(Remove(c, id, o))
  {
    var d := Remove(c, id, o);
    forall m: nat ensures Places(d, m) == Places(c, m) {
    }
  }

  lemma DrainPlaces(c: Calls)
    requires TableNamed(c) && OnePlace(c)
    ensures c.readerHeld == {} ==> TableNamed(ReaderDrain(c)) && OnePlace(ReaderDrain(c))
    ensures c.writerHeld == {} ==> TableNamed(WriterDrain(c)) && OnePlace(WriterDrain(c))
  {
    forall n: nat ensures n in c.pending.Values <==> Tabled(c, n) {
    }
    if c.readerHeld == {} {
      forall n: nat ensures Places(ReaderDrain(c), n) == Places(c, n) {
      }
    }
    if c.writerHeld == {} {
      forall n: nat ensures Places(WriterDrain(c), n) == Places(c, n) {
      }
    }
  }

  /** What a send does to the places of its own call and of the others. */
  lemma SendPlaces(c: Calls, n: nat, p: Payload)
    requires TableNamed(c)
    ensures TableNamed(Send(c, n, p))
    ensures Live(c, n) && !Delivered(c, n) ==> Places(Send(c, n, p), n) == Places(c, n) + 1
    ensures !Live(c, n) ==> Send(c, n, p) == c
    ensures forall m: nat :: m != n ==> Places(Send(c, n, p), m) == Places(c, m)
    ensures forall m: nat :: Live(Send(c, n, p), m) == Live(c, m) && Joined(Send(c, n, p), m) == Joined(c, m)
  {
  }

  lemma DeliverPlaces(c: Calls)
    requires TableNamed(c) && OnePlace(c) && c.hand.Some?
    ensures TableNamed(DeliverHand(c)) && OnePlace(DeliverHand(c))
    ensures !Delivered(c, c.hand.value.call)
  {
    var n, p := c.hand.value.call, Answer(c.hand.value.outcome);
    assert Places(c, n) == 1;
    SendPlaces(c, n, p);
    var d := Send(c, n, p);
    forall m: nat ensures Places(d.(hand := None), m) + (if m == n then 1 else 0) == Places(d, m) {
    }
  }

  lemma ReaderSendPlaces(c: Calls, n: nat, reason: string)
    requires TableNamed(c) && OnePlace(c) && n in c.readerHeld
    ensures TableNamed(ReaderSend(c, n, reason)) && OnePlace(ReaderSend(c, n, reason))
    ensures !Delivered(c, n)
  {
    assert Places(c, n) == 1;
    SendPlaces(c, n, Disconnected(reason));
    var d := Send(c, n, Disconnected(reason));
    forall m: nat ensures Places(ReaderSend(c, n, reason), m) + (if m == n then 1 else 0) == Places(d, m) {
    }
  }

  lemma WriterSendPlaces(c: Calls, n: nat, reason: string)
    requires TableNamed(c) && OnePlace(c) && n in c.writerHeld
    ensures TableNamed(WriterSend(c, n, reason)) && OnePlace(WriterSend(c, n, reason))
    ensures !Delivered(c, n)
  {
    assert Places(c, n) == 1;
    SendPlaces(c, n, Disconnected(reason));
    var d := Send(c, n, Disconnected(reason));
    forall m: nat ensures Places(WriterSend(c, n, reason), m) + (if m == n then 1 else 0) == Places(d, m) {
    }
  }

  // ----- answers --------------------------------------------------------

  /** None of the responses resolved between the registration of call `n` and
      response number `end` carries the id of that call. */
  ghost predicate Unanswered(c: Calls, n: nat, end: nat)
    requires n < |c.calls| && end <= |c.resolved|
  {
    forall j | c.calls[n].since.resolvedBefore <= j < end :: c.resolved[j].id != c.calls[n].id
  }

  /** Response number `i` carries the id of call `n` and outcome `o`, and is the
      first such response resolved since the call registered. */
  ghost predicate FirstAnswer(c: Calls, n: nat, i: nat, o: Outcome)
    requires n < |c.calls|
  {
    && c.calls[n].since.resolvedBefore <= i < |c.resolved|
    && c.resolved[i] == Resolution(c.calls[n].id, o)
    && Unanswered(c, n, i)
  }

  ghost predicate TableUnanswered(c: Calls) {
    forall n | 0 <= n < |c.calls| && Joined(c, n) ::
      c.calls[n].since.resolvedBefore <= |c.resolved| && (Tabled(c, n) ==> Unanswered(c, n, |c.resolved|))
  }

  ghost predicate HandAnswers(c: Calls) {
    c.hand.Some? ==>
      && Joined(c, c.hand.value.call)
      && |c.resolved| > 0
      && FirstAnswer(c, c.hand.value.call, |c.resolved| - 1, c.hand.value.outcome)
  }

  ghost predicate SlotAnswers(c: Calls) {
    forall n | 0 <= n < |c.calls| && c.calls[n].slot.Some? && c.calls[n].slot.value.Answer? ::
      Joined(c, n) && exists i: nat :: FirstAnswer(c, n, i, c.calls[n].slot.value.outcome)
  }

  /** A payload that is a response is the first one the server sent with the
      id of the call after the call registered. */
  ghost predicate Answers(c: Calls) {
    TableUnanswered(c) && HandAnswers(c) && SlotAnswers(c)
  }

  /** Every answer found in `c` is found in `d`, when `d` only adds responses and
      leaves the registered calls and their slots alone. */
  lemma SlotAnswersCarry(c: Calls, d: Calls)
    requires SlotAnswers(c) && c.resolved <= d.resolved && |c.calls| <= |d.calls|
    requires forall n | 0 <= n < |c.calls| && Joined(c, n) ::
               Joined(d, n) && d.calls[n].id == c.calls[n].id && d.calls[n].since == c.calls[n].since
    requires forall n | 0 <= n < |d.calls| && d.calls[n].slot.Some? && d.calls[n].slot.value.Answer? ::
               n < |c.calls| && d.calls[n].slot == c.calls[n].slot
    ensures SlotAnswers(d)
  {
    forall n | 0 <= n < |d.calls| && d.calls[n].slot.Some? && d.calls[n].slot.value.Answer?
      ensures Joined(d, n) && exists i: nat :: FirstAnswer(d, n, i, d.calls[n].slot.value.outcome)
    {
      var i: nat :| FirstAnswer(c, n, i, c.calls[n].slot.value.outcome);
      assert FirstAnswer(d, n, i, d.calls[n].slot.value.outcome);
    }
  }

  lemma MintAnswers(c: Calls)
    requires Answers(c)
    ensures Answers(Mint(c))
  {
    SlotAnswersCarry(c, Mint(c));
  }

  lemma RegisterAnswers(c: Calls, n: nat)
    requires Answers(c) && n < |c.calls| && c.calls[n].pc.Minted? && c.calls[n].id !in c.pending
    ensures Answers(Register(c, n))
  {
    SlotAnswersCarry(c, Register(c, n));
  }

  lemma SetPcAnswers(c: Calls, n: nat, pc: CallPc)
    requires Answers(c) && Joined(c, n) && !pc.Minted?
    ensures Answers(SetPc(c, n, pc))
  {
    SlotAnswersCarry(c, SetPc(c, n, pc));
  }

  lemma RemoveAnswers(c: Calls, id: Id, o: Outcome)
    requires Answers(c) && TableNamed(c) && c.hand.None?
    ensures Answers(Remove(c, id, o))
  {
    var d := Remove(c, id, o);
    forall n | 0 <= n < |d.calls| && Joined(d, n) && Tabled(d, n) ensures Unanswered(d, n, |d.resolved|) {
      assert Unanswered(c, n, |c.resolved|);
    }
    if d.hand.Some? {
      assert Tabled(c, d.hand.value.call);
    }
    SlotAnswersCarry(c, d);
  }

  lemma DrainAnswers(c: Calls)
    requires Answers(c)
    ensures Answers(ReaderDrain(c)) && Answers(WriterDrain(c))
  {
    SlotAnswersCarry(c, ReaderDrain(c));
    SlotAnswersCarry(c, WriterDrain(c));
  }

  lemma DeliverAnswers(c: Calls)
    requires Answers(c) && c.hand.Some?
    ensures Answers(DeliverHand(c))
  {
    var n, o := c.hand.value.call, c.hand.value.outcome;
    var d := DeliverHand(c);
    forall m | 0 <= m < |d.calls| && d.calls[m].slot.Some? && d.calls[m].slot.value.Answer?
      ensures Joined(d, m) && exists i: nat :: FirstAnswer(d, m, i, d.calls[m].slot.value.outcome)
    {
      if m == n && Live(c, n) {
        assert FirstAnswer(d, n, |c.resolved| - 1, o);
      } else {
        var i: nat :| FirstAnswer(c, m, i, c.calls[m].slot.value.outcome);
        assert FirstAnswer(d, m, i, d.calls[m].slot.value.outcome);
      }
    }
  }

  lemma ReaderSendAnswers(c: Calls, n: nat, reason: string)
    requires Answers(c)
    ensures Answers(ReaderSend(c, n, reason))
  {
    SlotAnswersCarry(c, ReaderSend(c, n, reason));
  }

  lemma WriterSendAnswers(c: Calls, n: nat, reason: string)
    requires Answers(c)
    ensures Answers(WriterSend(c, n, reason))
  {
    SlotAnswersCarry(c, WriterSend(c, n, reason));
  }

  // ----- returns --------------------------------------------------------

  /** A call that returns anything but the queue error returns what its channel
      delivered. */
  ghost predicate ReturnsDelivered(c: Calls) {
    forall n | 0 <= n < |c.calls| && c.calls[n].pc.Returned? ::
      c.calls[n].pc.result == IoError
      || (c.calls[n].slot.Some? && c.calls[n].pc.result == ResultOf(c.calls[n].slot.value))
  }

  // ----- the two drains -------------------------------------------------

  /** A call registered after both drains took the table lock. */
  predicate Late(c: Calls, n: nat) {
    Joined(c, n) && c.calls[n].since.afterReaderDrain && c.calls[n].since.afterWriterDrain
  }

  /** The table holds only what registered after every drain so far, and a call
      that registered after both drains stays in it for good. */
  ghost predicate Windows(c: Calls) {
    forall n | 0 <= n < |c.calls| && Joined(c, n) ::
      && (c.calls[n].since.afterReaderDrain ==> c.readerDrained)
      && (c.calls[n].since.afterWriterDrain ==> c.writerDrained)
      && (Tabled(c, n) && c.readerDrained ==> c.calls[n].since.afterReaderDrain)
      && (Tabled(c, n) && c.writerDrained ==> c.calls[n].since.afterWriterDrain)
      && (Late(c, n) ==> Tabled(c, n))
  }

  /** Every sender the reader drained is still held, or its call was told the
      reason, or nobody listens to it any more. */
  ghost predicate DrainedTold(c: Calls, reason: string) {
    forall n | n in c.drainedByReader ::
      Joined(c, n) && (n in c.readerHeld || !Live(c, n) || c.calls[n].slot == Some(Disconnected(reason)))
  }

  // ----- the whole invariant --------------------------------------------

  ghost predicate Bookkeeping(c: Calls) {
    Named(c) && ReturnsDelivered(c) && Windows(c)
  }

  ghost predicate Inv(c: Calls) {
    TableNamed(c) && OnePlace(c) && Answers(c) && Bookkeeping(c)
  }

  lemma MintBookkeeping(c: Calls)
    requires TableNamed(c) && Bookkeeping(c)
    ensures Bookkeeping(Mint(c))
  {
  }

  lemma RegisterBookkeeping(c: Calls, n: nat)
    requires TableNamed(c) && Bookkeeping(c) && n < |c.calls| && c.calls[n].pc.Minted? && c.calls[n].id !in c.pending
    ensures Bookkeeping(Register(c, n))
  {
  }

  lemma SetPcBookkeeping(c: Calls, n: nat, pc: CallPc)
    requires Bookkeeping(c) && Joined(c, n) && !pc.Minted?
    requires pc.Returned? ==>
               pc.result == IoError || (c.calls[n].slot.Some? && pc.result == ResultOf(c.calls[n].slot.value))
    ensures Bookkeeping(SetPc(c, n, pc))
  {
  }

  lemma RemoveBookkeeping(c: Calls, id: Id, o: Outcome)
    requires Bookkeeping(c) && !c.readerDrained
    ensures Bookkeeping(Remove(c, id, o))
  {
  }

  lemma ReaderDrainBookkeeping(c: Calls)
    requires Bookkeeping(c) && !c.readerDrained
    ensures Bookkeeping(ReaderDrain(c))
  {
  }

  lemma WriterDrainBookkeeping(c: Calls)
    requires Bookkeeping(c) && !c.writerDrained
    ensures Bookkeeping(WriterDrain(c))
  {
  }

  lemma SendBookkeeping(c: Calls, n: nat, p: Payload)
    requires Bookkeeping(c)
    ensures Bookkeeping(Send(c, n, p))
  {
  }

  lemma MintKeeps(c: Calls)
    requires Inv(c)
    ensures Inv(Mint(c))
  {
    MintPlaces(c);
    MintAnswers(c);
    MintBookkeeping(c);
  }

  lemma RegisterKeeps(c: Calls, n: nat)
    requires Inv(c) && n < |c.calls| && c.calls[n].pc.Minted?
    ensures Inv(Register(c, n))
  {
    FreshId(c, n);
    RegisterPlaces(c, n);
    RegisterAnswers(c, n);
    RegisterBookkeeping(c, n);
  }

  lemma SetPcKeeps(c: Calls, n: nat, pc: CallPc)
    requires Inv(c) && Live(c, n) && !pc.Minted?
    requires pc.Returned? ==>
               pc.result == IoError || (c.calls[n].slot.Some? && pc.result == ResultOf(c.calls[n].slot.value))
    ensures Inv(SetPc(c, n, pc))
  {
    SetPcPlaces(c, n, pc);
    SetPcAnswers(c, n, pc);
    SetPcBookkeeping(c, n, pc);
  }

  lemma RemoveKeeps(c: Calls, id: Id, o: Outcome)
    requires Inv(c) && c.hand.None? && !c.readerDrained
    ensures Inv(Remove(c, id, o))
  {
    RemovePlaces(c, id, o);
    RemoveAnswers(c, id, o);
    RemoveBookkeeping(c, id, o);
  }

  lemma DeliverKeeps(c: Calls)
    requires Inv(c) && c.hand.Some?
    ensures Inv(DeliverHand(c))
  {
    DeliverPlaces(c);
    DeliverAnswers(c);
    SendBookkeeping(c, c.hand.value.call, Answer(c.hand.value.outcome));
  }

  lemma ReaderDrainKeeps(c: Calls)
    requires Inv(c) && c.readerHeld == {} && !c.readerDrained
    ensures Inv(ReaderDrain(c))
  {
    DrainPlaces(c);
    DrainAnswers(c);
    ReaderDrainBookkeeping(c);
  }

  lemma WriterDrainKeeps(c: Calls)
    requires Inv(c) && c.writerHeld == {} && !c.writerDrained
    ensures Inv(WriterDrain(c))
  {
    DrainPlaces(c);
    DrainAnswers(c);
    WriterDrainBookkeeping(c);
  }

  lemma ReaderSendKeeps(c: Calls, n: nat, reason: string)
    requires Inv(c) && n in c.readerHeld
    ensures Inv(ReaderSend(c, n, reason))
  {
    ReaderSendPlaces(c, n, reason);
    ReaderSendAnswers(c, n, reason);
    SendBookkeeping(c, n, Disconnected(reason));
  }

  lemma WriterSendKeeps(c: Calls, n: nat, reason: string)
    requires Inv(c) && n in c.writerHeld
    ensures Inv(WriterSend(c, n, reason))
  {
    WriterSendPlaces(c, n, reason);
    WriterSendAnswers(c, n, reason);
    SendBookkeeping(c, n, Disconnected(reason));
  }
}
