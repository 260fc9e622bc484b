/** The engine's registry of pending permission requests and the reducer built on
    it. Keys are 64-bit counters; a key is also a wire id. */
module PermissionRegistry {
  import opened Wrappers
  import Decimal

  const U64_MAX: nat := 0xFFFF_FFFF_FFFF_FFFF

  datatype Outcome = Selected(option: string) | Cancelled

  /** The turn a deferred request belongs to. */
  datatype Context = Context(thread: string, turn: string)

  /** What a one-shot channel holds; `SenderDropped` is a sender that went away
      without being used. */
  datatype Slot = Empty | Holds(outcome: Outcome) | SenderDropped

  datatype Channel = Channel(slot: Slot, listening: bool)

  datatype Entry = Entry(channel: nat, context: Option<Context>)

  /** A key somebody got from the counter operation and has not inserted yet. */
  datatype Flight = Flight(key: nat, reinstating: bool)

  /** The store: the counter, the table under the lock, the senders taken out of
      the table and not used yet, and every one-shot channel ever created, in
      order. The counter operation and the insertion are two sections: a ticket
      stands for the pair. */
  datatype Registry = Registry(
    next: nat,
    tickets: nat,                        // counter operations so far
    flights: map<nat, Flight>,           // by ticket
    entries: map<nat, Entry>,            // the table, by key
    taken: map<nat, Option<Context>>,    // channels whose sender a resolve has removed
    drained: set<nat>,                   // channels whose sender a `cancel_all` has drained
    channels: seq<Channel>)

  datatype ResolveResult = UnknownRequest | Abandoned | Resolved(context: Option<Context>)

  const Initial := Registry(0, 0, map[], map[], map[], {}, [])

  // ----- atomic sections ------------------------------------------------

  datatype Op =
    | Draw                                                // `fetch_add` of an enrolment
    | Bump(key: nat)                                      // `fetch_max` of a reinstatement
    | Insert(ticket: nat, context: Option<Context>)       // the locked insertion of either
    | Remove(key: nat)                                    // the locked removal of a resolve
    | Send(channel: nat, outcome: Outcome)                // its send, outside the lock
    | LockDrain                                           // the locked drain of `cancel_all`
    | Tell(channel: nat)                                  // one of its sends
    | LoseWaiter(channel: nat)                            // a waiter times out or is dropped

  /** The 64-bit increment wraps around. */
  function WrappingSucc(n: nat): nat {
    if n == U64_MAX then 0 else n + 1
  }

  function SaturatingSucc(key: nat): nat {
    if key < U64_MAX then key + 1 else U64_MAX
  }

  function Max(a: nat, b: nat): nat {
    if a < b then b else a
  }

  /** A send through a channel: lost when nobody listens. */
  function Told(channels: seq<Channel>, c: nat, o: Outcome): seq<Channel> {
    if c < |channels| && channels[c].listening then channels[c := channels[c].(slot := Holds(o))] else channels
  }

  function Dropped(channels: seq<Channel>, c: nat): seq<Channel> {
    if c < |channels| then channels[c := channels[c].(slot := SenderDropped)] else channels
  }

  function Left(channels: seq<Channel>, c: nat): seq<Channel> {
    if c < |channels| then channels[c := channels[c].(listening := false)] else channels
  }

  /** Storing an entry under a key drops the sender that was there. */
  function Store(r: Registry, key: nat, context: Option<Context>): Registry {
    var channels := if key in r.entries then Dropped(r.channels, r.entries[key].channel) else r.channels;
    r.(entries := r.entries[key := Entry(|r.channels|, context)], channels := channels + [Channel(Empty, true)])
  }

  /** The channels in the table. */
  function Owned(r: Registry): set<nat> {
    set key | key in r.entries :: r.entries[key].channel
  }

  /** Sections whose ticket, key or sender is not there change nothing. */
  function Do(r: Registry, op: Op): Registry {
    match op
    case Draw =>
      r.(next := WrappingSucc(r.next), tickets := r.tickets + 1,
         flights := r.flights[r.tickets := Flight(r.next, false)])
    case Bump(key) =>
      r.(next := Max(r.next, SaturatingSucc(key)), tickets := r.tickets + 1,
         flights := r.flights[r.tickets := Flight(key, true)])
    case Insert(t, context) =>
      if t in r.flights then Store(r, r.flights[t].key, context).(flights := r.flights - {t}) else r
    case Remove(key) =>
      if key in r.entries
      then r.(entries := r.entries - {key}, taken := r.taken[r.entries[key].channel := r.entries[key].context])
      else r
    case Send(c, o) => if c in r.taken then r.(taken := r.taken - {c}, channels := Told(r.channels, c, o)) else r
    case LockDrain => r.(entries := map[], drained := r.drained + Owned(r))
    case Tell(c) =>
      if c in r.drained then r.(drained := r.drained - {c}, channels := Told(r.channels, c, Cancelled)) else r
    case LoseWaiter(c) => r.(channels := Left(r.channels, c))
  }

  // ----- what every section keeps ---------------------------------------

  ghost predicate InTable(r: Registry, c: nat) {
    exists key :: key in r.entries && r.entries[key].channel == c
  }

  /** The sender of the channel is somewhere, unused. */
  ghost predicate Somewhere(r: Registry, c: nat) {
    InTable(r, c) || c in r.taken || c in r.drained
  }

  ghost predicate Unused(r: Registry, c: nat) {
    c < |r.channels| && r.channels[c].slot == Empty
  }

  /** Every sender in the table, taken or drained is unused and in one of these
      places only. */
  ghost predicate OnePlace(r: Registry) {
    && (forall key | key in r.entries ::
          var c := r.entries[key].channel; Unused(r, c) && c !in r.taken && c !in r.drained)
    && (forall k, l | k in r.entries && l in r.entries && r.entries[k].channel == r.entries[l].channel :: k == l)
    && (forall c | c in r.taken :: Unused(r, c) && c !in r.drained)
    && (forall c | c in r.drained :: Unused(r, c))
  }

  /** The sender a waiter still needs is in one of these places. */
  ghost predicate NoneForgotten(r: Registry) {
    forall c: nat | Unused(r, c) && r.channels[c].listening :: Somewhere(r, c)
  }

  ghost predicate Inv(r: Registry) {
    OnePlace(r) && NoneForgotten(r) && forall t | t in r.flights :: t < r.tickets
  }

  lemma StoreOnePlace(r: Registry, key: nat, context: Option<Context>)
    requires OnePlace(r)
    ensures OnePlace(Store(r, key, context))
  {
  }

  lemma StoreForgetsNone(r: Registry, key: nat, context: Option<Context>)
    requires OnePlace(r) && NoneForgotten(r)
    ensures NoneForgotten(Store(r, key, context))
  {
    var s := Store(r, key, context);
    assert s.entries[key].channel == |r.channels|;
    forall c: nat | Unused(s, c) && s.channels[c].listening && c < |r.channels| ensures Somewhere(s, c) {
      assert Somewhere(r, c);
      if InTable(r, c) {
        var k :| k in r.entries && r.entries[k].channel == c;
        assert k != key;
        assert k in s.entries && s.entries[k].channel == c;
      }
    }
  }

  lemma RemoveKeeps(r: Registry, key: nat)
    requires Inv(r)
    ensures Inv(Do(r, Remove(key)))
  {
    var s := Do(r, Remove(key));
    forall c: nat | Unused(s, c) && s.channels[c].listening ensures Somewhere(s, c) {
      if InTable(r, c) && c !in s.taken {
        var k :| k in r.entries && r.entries[k].channel == c;
        assert k in s.entries && s.entries[k].channel == c;
      }
    }
  }

  lemma SendKeeps(r: Registry, c: nat, o: Outcome)
    requires Inv(r)
    ensures Inv(Do(r, Send(c, o)))
  {
    assert forall d :: InTable(Do(r, Send(c, o)), d) <==> InTable(r, d);
    hide InTable;
  }

  lemma TellKeeps(r: Registry, c: nat)
    requires Inv(r)
    ensures Inv(Do(r, Tell(c)))
  {
    assert forall d :: InTable(Do(r, Tell(c)), d) <==> InTable(r, d);
    hide InTable, Store, Max, SaturatingSucc, WrappingSucc;
  }

  lemma LoseWaiterKeeps(r: Registry, c: nat)
    requires Inv(r)
    ensures Inv(Do(r, LoseWaiter(c)))
  {
    assert forall d :: InTable(Do(r, LoseWaiter(c)), d) <==> InTable(r, d);
    hide InTable;
  }

  lemma DrainKeeps(r: Registry)
    requires Inv(r)
    ensures Inv(Do(r, LockDrain))
  {
    assert forall c :: InTable(r, c) <==> c in Owned(r);
  }

  lemma CounterKeeps(r: Registry, op: Op)
    requires Inv(r) && (op.Draw? || op.Bump?)
    ensures Inv(Do(r, op))
  {
    assert forall c :: InTable(Do(r, op), c) <==> InTable(r, c);
  }

  lemma StepKeeps(r: Registry, op: Op)
    requires Inv(r)
    ensures Inv(Do(r, op))
  {
    match op
    case Draw => CounterKeeps(r, op);
    case Bump(_) => CounterKeeps(r, op);
    case Insert(t, context) =>
      if t in r.flights {
        StoreOnePlace(r, r.flights[t].key, context);
        StoreForgetsNone(r, r.flights[t].key, context);
        InsertKeeps(r, t, context);
      }
    case Remove(key) => RemoveKeeps(r, key);
    case Send(c, o) => SendKeeps(r, c, o);
    case LockDrain => DrainKeeps(r);
    case Tell(c) => TellKeeps(r, c);
    case LoseWaiter(c) => LoseWaiterKeeps(r, c);
  }

  lemma InsertKeeps(r: Registry, t: nat, context: Option<Context>)
    requires Inv(r) && t in r.flights
    requires OnePlace(Store(r, r.flights[t].key, context)) && NoneForgotten(Store(r, r.flights[t].key, context))
    ensures Inv(Do(r, Insert(t, context)))
  {
    var s, z := Store(r, r.flights[t].key, context), Do(r, Insert(t, context));
    assert z.entries == s.entries && z.taken == s.taken && z.drained == s.drained && z.channels == s.channels;
    assert forall c :: InTable(z, c) <==> InTable(s, c);
    hide InTable;
  }

  function After(h: seq<Op>): Registry {
    if h == [] then Initial else Do(After(h[..|h| - 1]), h[|h| - 1])
  }

  lemma {:induction false} RunKeeps(h: seq<Op>)
    ensures Inv(After(h))
  {
    if h != [] {
      RunKeeps(h[..|h| - 1]);
      StepKeeps(After(h[..|h| - 1]), h[|h| - 1]);
    }
  }

  // ----- histories ------------------------------------------------------

  /** How many counter operations a history holds. */
  function Tickets(h: seq<Op>): nat {
    if h == [] then 0
    else Tickets(h[..|h| - 1]) + (if h[|h| - 1].Draw? || h[|h| - 1].Bump? then 1 else 0)
  }

  /** The key the next enrolment draws, from the history alone. */
  function Counter(h: seq<Op>): nat {
    if h == [] then 0
    else
      var front := Counter(h[..|h| - 1]);
      match h[|h| - 1]
      case Draw => WrappingSucc(front)
      case Bump(key) => Max(front, SaturatingSucc(key))
      case _ => front
  }

  /** What a ticket stands for while it has not been used, from the history alone. */
  function FlightOf(h: seq<Op>, t: nat): Option<Flight> {
    if h == [] then None
    else
      var front, last := h[..|h| - 1], h[|h| - 1];
      match last
      case Draw => if t == Tickets(front) then Some(Flight(Counter(front), false)) else FlightOf(front, t)
      case Bump(key) => if t == Tickets(front) then Some(Flight(key, true)) else FlightOf(front, t)
      case Insert(u, _) => if t == u then None else FlightOf(front, t)
      case _ => FlightOf(front, t)
  }

  /** The operation is an insertion under the key. */
  predicate InsertsUnder(h: seq<Op>, op: Op, key: nat) {
    op.Insert? && FlightOf(h, op.ticket).Some? && FlightOf(h, op.ticket).value.key == key
  }

  /** How many channels a history has put in the table. */
  function Channels(h: seq<Op>): nat {
    if h == [] then 0
    else
      var front, last := h[..|h| - 1], h[|h| - 1];
      Channels(front) + (if last.Insert? && FlightOf(front, last.ticket).Some? then 1 else 0)
  }

  /** The entry under a key, from the history alone: that of the last insertion
      under the key, unless a removal of the key or a drain came after it. */
  function Pending(h: seq<Op>, key: nat): Option<Entry> {
    if h == [] then None
    else
      var front, last := h[..|h| - 1], h[|h| - 1];
      if InsertsUnder(front, last, key) then Some(Entry(Channels(front), last.context))
      else if last == Remove(key) || last == LockDrain then None
      else Pending(front, key)
  }

  /** The waiter of the channel has gone, from the history alone. */
  predicate Lost(h: seq<Op>, c: nat) {
    h != [] && (Lost(h[..|h| - 1], c) || (h[|h| - 1] == LoseWaiter(c) && c < Channels(h[..|h| - 1])))
  }

  // ----- the store is what its history says -----------------------------

  lemma DoCounts(r: Registry, op: Op)
    ensures Do(r, op).tickets == r.tickets + (if op.Draw? || op.Bump? then 1 else 0)
    ensures Do(r, op).next == match op
                              case Draw => WrappingSucc(r.next)
                              case Bump(key) => Max(r.next, SaturatingSucc(key))
                              case _ => r.next
    ensures |Do(r, op).channels| == |r.channels| + (if op.Insert? && op.ticket in r.flights then 1 else 0)
  {
  }

  lemma {:induction false} AfterCounters(h: seq<Op>)
    ensures After(h).next == Counter(h) && After(h).tickets == Tickets(h)
  {
    if h != [] {
      AfterCounters(h[..|h| - 1]);
      DoCounts(After(h[..|h| - 1]), h[|h| - 1]);
      hide Do;
    }
  }

  lemma {:induction false} AfterFlight(h: seq<Op>, t: nat)
    ensures FlightOf(h, t) == if t in After(h).flights then Some(After(h).flights[t]) else None
  {
    if h != [] {
      AfterFlight(h[..|h| - 1], t);
      AfterCounters(h[..|h| - 1]);
    }
  }

  lemma {:induction false} AfterChannels(h: seq<Op>)
    ensures |After(h).channels| == Channels(h)
  {
    if h != [] {
      var last := h[|h| - 1];
      AfterChannels(h[..|h| - 1]);
      DoCounts(After(h[..|h| - 1]), last);
      if last.Insert? {
        AfterFlight(h[..|h| - 1], last.ticket);
      }
      hide Do, FlightOf;
    }
  }

  /** An entry is in the table exactly when the history says so. */
  lemma {:induction false} AfterEntry(h: seq<Op>, key: nat)
    ensures Pending(h, key) == if key in After(h).entries then Some(After(h).entries[key]) else None
  {
    if h != [] {
      var last := h[|h| - 1];
      AfterEntry(h[..|h| - 1], key);
      AfterChannels(h[..|h| - 1]);
      if last.Insert? {
        AfterFlight(h[..|h| - 1], last.ticket);
      }
      hide FlightOf, Channels;
    }
  }

  lemma DoListening(r: Registry, op: Op, c: nat)
    ensures c < |Do(r, op).channels| ==>
              (Do(r, op).channels[c].listening <==>
                op != LoseWaiter(c) && (c < |r.channels| ==> r.channels[c].listening))
  {
  }

  lemma {:induction false} AfterWaiter(h: seq<Op>, c: nat)
    ensures Lost(h, c) <==> c < |After(h).channels| && !After(h).channels[c].listening
  {
    if h != [] {
      AfterWaiter(h[..|h| - 1], c);
      AfterChannels(h[..|h| - 1]);
      DoCounts(After(h[..|h| - 1]), h[|h| - 1]);
      DoListening(After(h[..|h| - 1]), h[|h| - 1], c);
      hide Do;
    }
  }

  /** What comes after a history acts on the store that history leaves. */
  lemma AfterSnoc(h: seq<Op>, op: Op)
    ensures After(h + [op]) == Do(After(h), op)
  {
    assert (h + [op])[..|h|] == h;
  }

  // ----- resolving ------------------------------------------------------

  /** What a resolve that has taken the sender of the channel out ends with. */
  function Sent(r: Registry, c: nat): ResolveResult
    requires c in r.taken
  {
    if c < |r.channels| && r.channels[c].listening then Resolved(r.taken[c]) else Abandoned
  }

  /** Nobody else uses a sender that has been taken out. */
  lemma TakenStays(r: Registry, op: Op, c: nat)
    requires Inv(r) && c in r.taken && !(op.Send? && op.channel == c)
    ensures c in Do(r, op).taken && Do(r, op).taken[c] == r.taken[c]
  {
  }

  lemma {:induction false} TakenUntilSent(h: seq<Op>, b: seq<Op>, c: nat)
    requires c in After(h).taken && forall op | op in b :: !(op.Send? && op.channel == c)
    ensures c in After(h + b).taken && After(h + b).taken[c] == After(h).taken[c]
    decreases |b|
  {
    if b == [] {
      assert h + b == h;
    } else {
      var front, last := b[..|b| - 1], b[|b| - 1];
      TakenUntilSent(h, front, c);
      RunKeeps(h + front);
      TakenStays(After(h + front), last, c);
      AfterSnoc(h + front, last);
      assert h + b == h + front + [last];
      hide Do, After;
    }
  }

  /** The result of a resolve is determined by the history: unknown exactly when
      nothing is pending under the key at the removal, and then nothing changes;
      abandoned exactly when the waiter has gone by the send; otherwise it
      succeeds with the context recorded at the insertion. Whatever others do
      between the removal and the send is in `b`. */
  lemma ResolveByHistory(h: seq<Op>, key: nat, b: seq<Op>)
    requires Pending(h, key).Some? ==>
               forall op | op in b :: !(op.Send? && op.channel == Pending(h, key).value.channel)
    ensures match Pending(h, key)
            case None => After(h + [Remove(key)]) == After(h)
            case Some(e) =>
              && e.channel in After(h + [Remove(key)] + b).taken
              && Sent(After(h + [Remove(key)] + b), e.channel) ==
                 if Lost(h + [Remove(key)] + b, e.channel) then Abandoned else Resolved(e.context)
  {
    AfterEntry(h, key);
    AfterSnoc(h, Remove(key));
    if Pending(h, key).Some? {
      var c, all := Pending(h, key).value.channel, h + [Remove(key)] + b;
      TakenUntilSent(h + [Remove(key)], b, c);
      AfterWaiter(all, c);
      RunKeeps(all);
      assert Unused(After(all), c);
      hide After, Pending, Lost;
    }
  }

  /** A waiter receives at most one outcome: a used channel stays as it is. */
  lemma OutcomeStays(r: Registry, op: Op, c: nat)
    requires Inv(r) && c < |r.channels| && r.channels[c].slot != Empty
    ensures c < |Do(r, op).channels| && Do(r, op).channels[c].slot == r.channels[c].slot
  {
    DoCounts(r, op);
  }

  // ----- cancelling -----------------------------------------------------

  /** A drained sender is still held, or its waiter holds the cancellation, or
      nobody waits. */
  ghost predicate Cancelling(r: Registry, c: nat) {
    && c < |r.channels|
    && (c in r.drained || !r.channels[c].listening || r.channels[c].slot == Holds(Cancelled))
  }

  lemma CancellingStays(r: Registry, op: Op, c: nat)
    requires Inv(r) && Cancelling(r, c)
    ensures Cancelling(Do(r, op), c)
  {
    DoCounts(r, op);
    DoListening(r, op, c);
    if r.channels[c].slot != Empty {
      OutcomeStays(r, op, c);
    }
  }

  lemma {:induction false} CancellingOn(h: seq<Op>, b: seq<Op>, c: nat)
    requires Cancelling(After(h), c)
    ensures Cancelling(After(h + b), c)
    decreases |b|
  {
    if b == [] {
      assert h + b == h;
    } else {
      var front, last := b[..|b| - 1], b[|b| - 1];
      CancellingOn(h, front, c);
      RunKeeps(h + front);
      CancellingStays(After(h + front), last, c);
      AfterSnoc(h + front, last);
      assert h + b == h + front + [last];
      hide Do, After, Cancelling;
    }
  }

  /** The drain of `cancel_all` leaves nothing pending; whatever was pending then
      is, in every continuation, still to be told by it or cancelled for its
      waiter, unless the waiter has gone. */
  lemma CancelAllReachesEveryWaiter(h: seq<Op>, key: nat, b: seq<Op>)
    requires Pending(h, key).Some?
    ensures After(h + [LockDrain]).entries == map[]
    ensures Cancelling(After(h + [LockDrain] + b), Pending(h, key).value.channel)
  {
    AfterEntry(h, key);
    AfterSnoc(h, LockDrain);
    RunKeeps(h);
    var c := Pending(h, key).value.channel;
    assert Unused(After(h), c) && c in After(h + [LockDrain]).drained;
    CancellingOn(h + [LockDrain], b, c);
  }

  /** A waiter is never forgotten: as long as it is there and has nothing, its
      sender is in the table, taken by a resolve or drained by a `cancel_all`. */
  lemma NobodyForgotten(h: seq<Op>, c: nat)
    requires c < |After(h).channels| && !Lost(h, c) && After(h).channels[c].slot == Empty
    ensures Somewhere(After(h), c)
  {
    RunKeeps(h);
    AfterWaiter(h, c);
    assert Unused(After(h), c);
  }

  // ----- abandoned waiters ----------------------------------------------

  /** The insertion number j is under a key whose pending entry has the channel. */
  ghost predicate Replaces(h: seq<Op>, j: nat, c: nat)
    requires j < |h|
  {
    exists key ::
      InsertsUnder(h[..j], h[j], key) && Pending(h[..j], key).Some? && Pending(h[..j], key).value.channel == c
  }

  lemma DoDrops(r: Registry, op: Op, c: nat)
    requires Inv(r) && c < |r.channels|
    ensures c < |Do(r, op).channels|
    ensures Do(r, op).channels[c].slot == SenderDropped <==>
            || r.channels[c].slot == SenderDropped
            || (op.Insert? && op.ticket in r.flights && r.flights[op.ticket].key in r.entries
                && r.entries[r.flights[op.ticket].key].channel == c)
  {
  }

  /** A sender is dropped unused exactly when a later insertion took its key while
      its request was pending. */
  lemma {:induction false} AbandonedIff(h: seq<Op>, c: nat)
    requires c < Channels(h)
    ensures c < |After(h).channels|
    ensures After(h).channels[c].slot == SenderDropped <==> exists j: nat :: j < |h| && Replaces(h, j, c)
    decreases |h|
  {
    AfterChannels(h);
    var front, last := h[..|h| - 1], h[|h| - 1];
    var r := After(front);
    AfterChannels(front);
    RunKeeps(front);
    if last.Insert? {
      AfterFlight(front, last.ticket);
      if last.ticket in r.flights {
        AfterEntry(front, r.flights[last.ticket].key);
      }
    }
    assert forall j | 0 <= j < |front| :: h[..j] == front[..j];
    assert h[..|front|] == front;
    if c < Channels(front) {
      DoDrops(r, last, c);
      AbandonedIff(front, c);
      assert Replaces(h, |front|, c) <==>
             last.Insert? && last.ticket in r.flights && r.flights[last.ticket].key in r.entries
             && r.entries[r.flights[last.ticket].key].channel == c;
      hide Do, After, Pending, FlightOf, Channels;
      assert forall j: nat | j < |front| :: Replaces(h, j, c) <==> Replaces(front, j, c);
    } else {
      assert After(h).channels[c].slot == Empty;
      forall j: nat | j < |h| ensures !Replaces(h, j, c) {
        ReplacesOld(h, j, c);
      }
    }
  }

  /** Only channels made before can be replaced. */
  lemma ReplacesOld(h: seq<Op>, j: nat, c: nat)
    requires j < |h|
    ensures Replaces(h, j, c) ==> c < Channels(h[..j]) <= Channels(h[..|h| - 1])
  {
    if key :| InsertsUnder(h[..j], h[j], key) && Pending(h[..j], key).Some? && Pending(h[..j], key).value.channel == c {
      AfterEntry(h[..j], key);
      AfterChannels(h[..j]);
      RunKeeps(h[..j]);
      assert Unused(After(h[..j]), c);
      assert h[..|h| - 1][..j] == h[..j];
      ChannelsGrow(h[..|h| - 1], j);
    }
  }

  lemma {:induction false} ChannelsGrow(h: seq<Op>, j: nat)
    requires j <= |h|
    ensures Channels(h[..j]) <= Channels(h)
  {
    if j < |h| {
      ChannelsGrow(h[..|h| - 1], j);
      assert h[..|h| - 1][..j] == h[..j];
    } else {
      assert h[..j] == h;
    }
  }

  // ----- fresh keys -----------------------------------------------------

  /** No enrolment drew the largest 64-bit key, after which the counter wraps. */
  predicate NoWrap(h: seq<Op>) {
    h == [] || (NoWrap(h[..|h| - 1]) && (h[|h| - 1].Draw? ==> Counter(h[..|h| - 1]) < U64_MAX))
  }

  lemma {:induction false} CounterGrows(h: seq<Op>, j: nat)
    requires NoWrap(h) && j <= |h|
    ensures Counter(h[..j]) <= Counter(h) && NoWrap(h[..j])
  {
    if j < |h| {
      CounterGrows(h[..|h| - 1], j);
      assert h[..|h| - 1][..j] == h[..j];
    } else {
      assert h[..j] == h;
    }
  }

  /** Whoever got the key from the counter operation number j. */
  predicate Obtains(h: seq<Op>, j: nat, key: nat)
    requires j < |h|
  {
    h[j] == Bump(key) || (h[j].Draw? && Counter(h[..j]) == key)
  }

  /** The counter passes every key that is obtained below the largest. */
  lemma ObtainedBelow(h: seq<Op>, j: nat, key: nat)
    requires NoWrap(h) && j < |h| && Obtains(h, j, key)
    ensures SaturatingSucc(key) <= Counter(h[..j + 1])
  {
    CounterGrows(h, j + 1);
    assert h[..j + 1][..j] == h[..j] && h[..j + 1][j] == h[j];
  }

  /** An enrolment draws a key nobody drew or reinstated before. */
  lemma DrawnKeyIsNew(h: seq<Op>, j: nat, key: nat)
    requires NoWrap(h + [Draw]) && j < |h| && Obtains(h, j, key)
    ensures key < Counter(h)
  {
    assert (h + [Draw])[..|h|] == h;
    ObtainedBelow(h, j, key);
    CounterGrows(h, j + 1);
    hide Counter, Obtains;
  }

  /** No later enrolment draws a reinstated key, except for the largest one, which
      the saturating bump leaves to be drawn. */
  lemma {:induction false} ReinstatedKeyReused(h: seq<Op>, key: nat, b: seq<Op>)
    requires key <= U64_MAX && NoWrap(h + [Bump(key)] + b)
    ensures Counter(h + [Bump(key)] + b) == key ==> key == U64_MAX
    ensures key == U64_MAX && Counter(h) <= U64_MAX ==> Counter(h + [Bump(key)]) == key
  {
    var all := h + [Bump(key)] + b;
    CounterGrows(all, |h| + 1);
    assert all[..|h| + 1] == h + [Bump(key)] && (h + [Bump(key)])[..|h|] == h;
  }

  /** Where a ticket comes from. */
  lemma {:induction false} FlightFrom(h: seq<Op>, t: nat)
    requires FlightOf(h, t).Some?
    ensures t < Tickets(h)
    ensures exists j: nat :: j < |h| && Tickets(h[..j]) == t && Obtains(h, j, FlightOf(h, t).value.key)
              && (h[j].Bump? <==> FlightOf(h, t).value.reinstating)
  {
    var front, last := h[..|h| - 1], h[|h| - 1];
    if (last.Draw? || last.Bump?) && t == Tickets(front) {
      assert h[..|front|] == front && Obtains(h, |front|, FlightOf(h, t).value.key);
    } else {
      FlightFrom(front, t);
      var j: nat :| j < |front| && Tickets(front[..j]) == t && Obtains(front, j, FlightOf(front, t).value.key)
                    && (front[j].Bump? <==> FlightOf(front, t).value.reinstating);
      assert h[..j] == front[..j];
      assert Obtains(h, j, FlightOf(h, t).value.key);
    }
  }

  lemma {:induction false} TicketsGrow(h: seq<Op>, j: nat)
    requires j < |h| && (h[j].Draw? || h[j].Bump?)
    ensures Tickets(h[..j]) < Tickets(h)
  {
    if j == |h| - 1 {
      assert h[..j] == h[..|h| - 1];
    } else {
      TicketsGrow(h[..|h| - 1], j);
      assert h[..|h| - 1][..j] == h[..j];
    }
  }

  /** A pending key was obtained by somebody whose ticket has been used. */
  lemma {:induction false} PendingFrom(h: seq<Op>, key: nat)
    requires Pending(h, key).Some?
    ensures exists j: nat :: j < |h| && Obtains(h, j, key) && FlightOf(h, Tickets(h[..j])).None?
  {
    var front, last := h[..|h| - 1], h[|h| - 1];
    var j: nat;
    if InsertsUnder(front, last, key) {
      FlightFrom(front, last.ticket);
      j :| j < |front| && Tickets(front[..j]) == last.ticket && Obtains(front, j, key)
           && (front[j].Bump? <==> FlightOf(front, last.ticket).value.reinstating);
    } else {
      PendingFrom(front, key);
      j :| j < |front| && Obtains(front, j, key) && FlightOf(front, Tickets(front[..j])).None?;
      TicketsGrow(front, j);
    }
    assert h[..j] == front[..j];
    assert Obtains(h, j, key);
  }

  /** An enrolment overwrites a pending request only when its key was reinstated
      after it had been drawn. */
  lemma OverwritesOnlyReinstated(h: seq<Op>, t: nat, key: nat)
    requires NoWrap(h) && FlightOf(h, t) == Some(Flight(key, false)) && Pending(h, key).Some?
    ensures exists i: nat, j: nat :: i < j < |h| && h[i].Draw? && Tickets(h[..i]) == t && h[j] == Bump(key)
  {
    FlightFrom(h, t);
    var i: nat :| i < |h| && Tickets(h[..i]) == t && Obtains(h, i, key) && (h[i].Bump? <==> false);
    PendingFrom(h, key);
    var j: nat :| j < |h| && Obtains(h, j, key) && FlightOf(h, Tickets(h[..j])).None?;
    hide FlightOf, Pending;
    if j < i {
      ObtainedOnce(h, j, i, key);
    } else if h[j].Draw? {
      ObtainedOnce(h, i, j, key);
    }
  }

  /** The same key is never drawn after it was obtained. */
  lemma ObtainedOnce(h: seq<Op>, i: nat, j: nat, key: nat)
    requires NoWrap(h) && i < j < |h| && Obtains(h, i, key) && h[j].Draw?
    ensures Counter(h[..j]) > key
  {
    CounterGrows(h, j + 1);
    assert h[..j + 1] == h[..j] + [Draw];
    assert h[..j][..i] == h[..i];
    assert Obtains(h[..j], i, key);
    DrawnKeyIsNew(h[..j], i, key);
  }

  // ----- resolving a key twice ------------------------------------------

  /** The key is pending again at some point of `b`. */
  ghost predicate Revived(base: seq<Op>, b: seq<Op>, key: nat) {
    exists i: nat :: i <= |b| && Pending(base + b[..i], key).Some?
  }

  /** Somebody who had obtained the key before, and not inserted it, inserts it. */
  ghost predicate InsertedLate(base: seq<Op>, b: seq<Op>, key: nat) {
    exists j: nat :: j < |b| && InsertsUnder(base, b[j], key)
  }

  /** The key is reinstated: both sections of a reinstatement are in `b`. */
  ghost predicate ReinstatedIn(base: seq<Op>, b: seq<Op>, key: nat) {
    exists i: nat, j: nat :: i < j < |b| && b[i] == Bump(key) && b[j].Insert? && b[j].ticket == Tickets(base + b[..i])
  }

  lemma {:induction false} RevivedByInsert(base: seq<Op>, b: seq<Op>, key: nat)
    requires Pending(base, key).None? && Pending(base + b, key).Some?
    ensures exists j: nat :: j < |b| && InsertsUnder(base + b[..j], b[j], key)
    decreases |b|
  {
    assert b == [] ==> base + b == base;
    var front, last := b[..|b| - 1], b[|b| - 1];
    assert (base + b)[..|base + b| - 1] == base + front && (base + b)[|base + b| - 1] == last;
    if InsertsUnder(base + front, last, key) {
      assert b[..|front|] == front;
    } else {
      RevivedByInsert(base, front, key);
      var j: nat :| j < |front| && InsertsUnder(base + front[..j], front[j], key);
      assert b[..j] == front[..j];
    }
  }

  /** A ticket in flight was so at the start or has been given out since. */
  lemma {:induction false} FlightBack(base: seq<Op>, b: seq<Op>, t: nat)
    requires FlightOf(base + b, t).Some?
    ensures FlightOf(base, t) == FlightOf(base + b, t) ||
            exists i: nat :: i < |b| && Tickets(base + b[..i]) == t
              && (b[i] == Bump(FlightOf(base + b, t).value.key)
                  || (b[i].Draw? && Counter(base + b[..i]) == FlightOf(base + b, t).value.key))
    decreases |b|
  {
    if b == [] {
      assert base + b == base;
    } else {
      var front, last := b[..|b| - 1], b[|b| - 1];
      assert (base + b)[..|base + b| - 1] == base + front && (base + b)[|base + b| - 1] == last;
      assert b[..|front|] == front;
      if !((last.Draw? || last.Bump?) && Tickets(base + front) == t) {
        FlightBack(base, front, t);
        assert forall i | 0 <= i < |front| :: b[..i] == front[..i];
      }
    }
  }

  lemma {:induction false} FlightKept(base: seq<Op>, b: seq<Op>, t: nat)
    requires FlightOf(base, t).Some? && forall op | op in b :: !(op.Insert? && op.ticket == t)
    ensures FlightOf(base + b, t) == FlightOf(base, t)
    decreases |b|
  {
    if b == [] {
      assert base + b == base;
    } else {
      var front, last := b[..|b| - 1], b[|b| - 1];
      assert (base + b)[..|base + b| - 1] == base + front && (base + b)[|base + b| - 1] == last;
      FlightKept(base, front, t);
      FlightFrom(base + front, t);
    }
  }

  /** A ticket in flight for the key revives it when it is used. */
  lemma {:induction false} InsertRevives(base: seq<Op>, b: seq<Op>, j: nat, key: nat)
    requires j < |b| && InsertsUnder(base, b[j], key)
    ensures Revived(base, b, key)
  {
    var t := b[j].ticket;
    if i: nat :| i < j && b[i].Insert? && b[i].ticket == t {
      InsertRevives(base, b, i, key);
    } else {
      FlightKept(base, b[..j], t);
      var all := base + b[..j + 1];
      assert all[..|all| - 1] == base + b[..j] && all[|all| - 1] == b[j];
      assert InsertsUnder(base + b[..j], b[j], key);
      assert Pending(all, key).Some?;
    }
  }

  /** A key that has been resolved becomes pending again if and only if it is
      reinstated afterwards or somebody inserts it who had obtained it before and
      not inserted it. */
  lemma ResolvedAgainIff(a: seq<Op>, key: nat, b: seq<Op>)
    requires Pending(a, key).Some? && NoWrap(a + [Remove(key)] + b)
    ensures var base := a + [Remove(key)];
            Revived(base, b, key) <==> ReinstatedIn(base, b, key) || InsertedLate(base, b, key)
  {
    var base := a + [Remove(key)];
    if j: nat :| j < |b| && InsertsUnder(base, b[j], key) {
      InsertRevives(base, b, j, key);
    }
    if i: nat, j: nat :| i < j < |b| && b[i] == Bump(key) && b[j].Insert? && b[j].ticket == Tickets(base + b[..i]) {
      ReinstatementRevives(base, b, i, j, key);
    }
    if i: nat :| i <= |b| && Pending(base + b[..i], key).Some? {
      assert base[..|base| - 1] == a;
      RevivalExplained(a, key, b, i);
    }
  }

  lemma ReinstatementRevives(base: seq<Op>, b: seq<Op>, i: nat, j: nat, key: nat)
    requires i < j < |b| && b[i] == Bump(key) && b[j].Insert? && b[j].ticket == Tickets(base + b[..i])
    ensures Revived(base, b, key)
  {
    var bumped := base + b[..i + 1];
    assert bumped[..|bumped| - 1] == base + b[..i] && bumped[|bumped| - 1] == b[i];
    var rest := b[i + 1..];
    assert InsertsUnder(bumped, rest[j - i - 1], key);
    InsertRevives(bumped, rest, j - i - 1, key);
    hide Pending, InsertsUnder;
    var m: nat :| m <= |rest| && Pending(bumped + rest[..m], key).Some?;
    HistoryOn(base, b, i + 1, m);
  }

  /** A key that was pending is not drawn afterwards. */
  lemma PendingNotDrawn(a: seq<Op>, key: nat, b: seq<Op>, m: nat)
    requires Pending(a, key).Some? && NoWrap(a + [Remove(key)] + b) && m < |b| && b[m].Draw?
    ensures Counter(a + [Remove(key)] + b[..m]) > key
  {
    PendingFrom(a, key);
    var p: nat :| p < |a| && Obtains(a, p, key) && FlightOf(a, Tickets(a[..p])).None?;
    hide *;
    var base := a + [Remove(key)];
    ObtainsOn(a, p, [Remove(key)], key);
    ObtainsOn(base, p, b, key);
    HistoryAt(base, b, m);
    ObtainedOnce(base + b, p, |base| + m, key);
  }

  lemma ObtainsOn(h: seq<Op>, j: nat, more: seq<Op>, key: nat)
    requires j < |h| && Obtains(h, j, key)
    ensures Obtains(h + more, j, key)
  {
    assert (h + more)[..j] == h[..j];
  }

  lemma HistoryOn(h: seq<Op>, b: seq<Op>, i: nat, m: nat)
    requires i <= |b| && m <= |b[i..]|
    ensures h + b[..i] + b[i..][..m] == h + b[..i + m]
  {
    assert b[..i] + b[i..][..m] == b[..i + m];
  }

  lemma HistoryAt(h: seq<Op>, b: seq<Op>, m: nat)
    requires m < |b|
    ensures (h + b)[..|h| + m] == h + b[..m] && (h + b)[|h| + m] == b[m]
  {
  }

  lemma RevivalExplained(a: seq<Op>, key: nat, b: seq<Op>, i: nat)
    requires Pending(a, key).Some? && NoWrap(a + [Remove(key)] + b)
    requires i <= |b| && Pending(a + [Remove(key)] + b[..i], key).Some?
    ensures ReinstatedIn(a + [Remove(key)], b, key) || InsertedLate(a + [Remove(key)], b, key)
  {
    var base := a + [Remove(key)];
    assert base[..|base| - 1] == a;
    RevivedByInsert(base, b[..i], key);
    hide NoWrap, Counter, Pending, FlightOf;
    var j: nat :| j < i && InsertsUnder(base + b[..i][..j], b[..i][j], key);
    assert b[..i][..j] == b[..j] && b[..i][j] == b[j];
    var t := b[j].ticket;
    FlightBack(base, b[..j], t);
    if FlightOf(base, t) == FlightOf(base + b[..j], t) {
      assert InsertsUnder(base, b[j], key);
    } else {
      var m: nat :| m < j && Tickets(base + b[..j][..m]) == t
        && (b[..j][m] == Bump(key) || (b[..j][m].Draw? && Counter(base + b[..j][..m]) == key));
      assert b[..j][..m] == b[..m] && b[..j][m] == b[m];
      if b[m].Draw? {
        PendingNotDrawn(a, key, b, m);
      }
    }
  }

  /** A key that is never reinstated is not pending again once it is resolved. */
  lemma ResolvedStaysUnknown(a: seq<Op>, key: nat, b: seq<Op>)
    requires Pending(a, key).Some? && NoWrap(a + [Remove(key)] + b)
    requires Bump(key) !in a + b
    ensures !Revived(a + [Remove(key)], b, key)
  {
    var base := a + [Remove(key)];
    ResolvedAgainIff(a, key, b);
    if j: nat :| j < |b| && InsertsUnder(base, b[j], key) {
      var t := b[j].ticket;
      assert base[..|base| - 1] == a;
      FlightFrom(a, t);
      CounterGrows(base + b, |a|);
      assert (base + b)[..|a|] == a;
      assert FlightOf(a, t) == Some(Flight(key, false)) by {
        var i: nat :| i < |a| && Tickets(a[..i]) == t && Obtains(a, i, key)
                      && (a[i].Bump? <==> FlightOf(a, t).value.reinstating);
        assert a[i] in a + b;
      }
      OverwritesOnlyReinstated(a, t, key);
    }
  }

  // ----- what goes wrong ------------------------------------------------

  /** A key has been drawn by an enrolment; it is reinstated and inserted by the
      reinstatement before the enrolment inserts it. */
  lemma ReinstatedWhileDrawn(c: Context) returns (a: seq<Op>)
    ensures NoWrap(a) && Pending(a, 0) == Some(Entry(0, Some(c)))
    ensures After(a) ==
            Registry(1, 2, map[0 := Flight(0, false)], map[0 := Entry(0, Some(c))], map[], {}, [Channel(Empty, true)])
  {
    a := [Draw, Bump(0), Insert(1, Some(c))];
    assert a[..2] == [Draw, Bump(0)] && a[..2][..1] == [Draw];
    var one := Registry(1, 1, map[0 := Flight(0, false)], map[], map[], {}, []);
    var two := Registry(1, 2, map[0 := Flight(0, false), 1 := Flight(0, true)], map[], map[], {}, []);
    assert Do(Initial, Draw) == one && Do(one, Bump(0)) == two;
    assert After([Draw]) == one && After([Draw, Bump(0)]) == two;
    AfterSnoc([Draw, Bump(0)], Insert(1, Some(c)));
    assert a == [Draw, Bump(0)] + [Insert(1, Some(c))];
    AfterEntry(a, 0);
    hide After;
    assert NoWrap([Draw, Bump(0)]) && NoWrap([Draw]) && NoWrap([]);
  }

  /** From there the key resolves twice with no reinstatement in between. */
  lemma KeyResolvesTwice(c: Context, o: Outcome) returns (a: seq<Op>, b: seq<Op>)
    ensures Pending(a, 0) == Some(Entry(0, Some(c))) && Bump(0) !in b
    ensures var r := After(a + [Remove(0)] + b); 1 in r.taken && Sent(r, 1) == Resolved(None)
  {
    a := ReinstatedWhileDrawn(c);
    b := [Send(0, o), Insert(0, None), Remove(0)];
    var removed := a + [Remove(0)];
    AfterSnoc(a, Remove(0));
    AfterSnoc(removed, Send(0, o));
    AfterSnoc(removed + [Send(0, o)], Insert(0, None));
    AfterSnoc(removed + [Send(0, o)] + [Insert(0, None)], Remove(0));
    assert removed + b == removed + [Send(0, o)] + [Insert(0, None)] + [Remove(0)];
    hide After;
    var told := Channel(Holds(o), true);
    assert After(removed + [Send(0, o)]) == Registry(1, 2, map[0 := Flight(0, false)], map[], map[], {}, [told]);
    assert After(removed + [Send(0, o)] + [Insert(0, None)]) ==
           Registry(1, 2, map[], map[0 := Entry(1, None)], map[], {}, [told, Channel(Empty, true)]);
  }

  /** From there, too, the enrolment drops the sender of the reinstated request,
      whose waiter is abandoned. */
  lemma EnrolmentDropsReinstated(c: Context) returns (h: seq<Op>)
    ensures NoWrap(h)
    ensures After(h).entries == map[0 := Entry(1, None)]
    ensures After(h).channels == [Channel(SenderDropped, true), Channel(Empty, true)]
  {
    var a := ReinstatedWhileDrawn(c);
    h := a + [Insert(0, None)];
    AfterSnoc(a, Insert(0, None));
    assert h[..|a|] == a;
    hide After;
  }

  /** Reinstating the key of a live request drops that request's sender: the keys
      of two processes both start at 0. */
  lemma ReinstatementDropsLive(c: Context) returns (h: seq<Op>)
    ensures NoWrap(h)
    ensures After(h).entries == map[0 := Entry(1, Some(c))]
    ensures After(h).channels == [Channel(SenderDropped, true), Channel(Empty, true)]
  {
    var live := [Draw] + [Insert(0, None)];
    h := live + [Bump(0)] + [Insert(1, Some(c))];
    AfterSnoc([], Draw);
    AfterSnoc([Draw], Insert(0, None));
    AfterSnoc(live, Bump(0));
    AfterSnoc(live + [Bump(0)], Insert(1, Some(c)));
    assert [] + [Draw] == [Draw];
    hide After;
    assert h[..3] == live + [Bump(0)] && h[..3][..2] == live && live[..1] == [Draw];
    assert NoWrap([]) && NoWrap([Draw]) && NoWrap(live) && NoWrap(live + [Bump(0)]);
  }

  // ----- wire form ------------------------------------------------------

  const WIRE_PREFIX := "perm:"

  function ToWire(key: nat): string {
    WIRE_PREFIX + Decimal.Render(key)
  }

  /** The digits of a wire id: the integer parser also accepts a leading plus. */
  function Digits(wire: string): Option<string> {
    if |wire| < |WIRE_PREFIX| || wire[..|WIRE_PREFIX|] != WIRE_PREFIX then None
    else
      var rest := wire[|WIRE_PREFIX|..];
      Some(if rest != [] && rest[0] == '+' then rest[1..] else rest)
  }

  function FromWire(wire: string): Option<nat> {
    match Digits(wire)
    case None => None
    case Some(digits) =>
      match Decimal.Parse(digits)
      case None => None
      case Some(n) => if n <= U64_MAX then Some(n) else None
  }

  lemma WireRoundTrip(key: nat)
    requires key <= U64_MAX
    ensures FromWire(ToWire(key)) == Some(key)
  {
    var wire := ToWire(key);
    assert wire[..|WIRE_PREFIX|] == WIRE_PREFIX && wire[|WIRE_PREFIX|..] == Decimal.Render(key);
    Decimal.ParseRender(key);
  }

  /** A wire id is accepted exactly when it is the prefix, perhaps a plus sign, and
      digits of a number of 64 bits, and then it stands for that number. */
  lemma AcceptedIff(wire: string, key: nat)
    ensures FromWire(wire) == Some(key) <==>
            && key <= 0xFFFF_FFFF_FFFF_FFFF
            && exists digits ::
                 Decimal.Parse(digits) == Some(key) && (wire == "perm:" + digits || wire == "perm:+" + digits)
  {
    hide FromWire, Decimal.Parse;
    if FromWire(wire) == Some(key) {
      var digits := AcceptedForm(wire, key);
    }
    if key <= 0xFFFF_FFFF_FFFF_FFFF {
      if digits :| Decimal.Parse(digits) == Some(key) && (wire == "perm:" + digits || wire == "perm:+" + digits) {
        FormAccepted(digits, key);
      }
    }
  }

  lemma AcceptedForm(wire: string, key: nat) returns (digits: string)
    requires FromWire(wire) == Some(key)
    ensures key <= 0xFFFF_FFFF_FFFF_FFFF
    ensures Decimal.Parse(digits) == Some(key) && (wire == "perm:" + digits || wire == "perm:+" + digits)
  {
    hide Decimal.Parse;
    var rest := wire[|WIRE_PREFIX|..];
    digits := Digits(wire).value;
    assert wire == WIRE_PREFIX + rest;
    if rest != [] && rest[0] == '+' {
      assert rest == "+" + digits;
    }
  }

  lemma PrefixOff(rest: string)
    ensures Digits("perm:" + rest) == Some(if rest != [] && rest[0] == '+' then rest[1..] else rest)
  {
    assert ("perm:" + rest)[..5] == WIRE_PREFIX && ("perm:" + rest)[5..] == rest;
  }

  lemma FormAccepted(digits: string, key: nat)
    requires Decimal.Parse(digits) == Some(key) && key <= 0xFFFF_FFFF_FFFF_FFFF
    ensures FromWire("perm:" + digits) == FromWire("perm:+" + digits) == Some(key)
  {
    Decimal.ParsedDigit(digits);
    PrefixOff(digits);
    PrefixOff("+" + digits);
    assert ("+" + digits)[1..] == digits;
    PlusJoins(digits);
    hide Decimal.Parse, Digits;
  }

  lemma PlusJoins(digits: string)
    ensures "perm:+" + digits == "perm:" + ("+" + digits)
  {
  }

  /** An accepted wire id is the canonical form of its key if and only if it has
      no plus sign and no superfluous leading zero. */
  lemma CanonicalIff(wire: string)
    requires FromWire(wire).Some?
    ensures wire == ToWire(FromWire(wire).value) <==>
            wire[|WIRE_PREFIX|] != '+' && (wire[|WIRE_PREFIX|] != '0' || |wire| == |WIRE_PREFIX| + 1)
  {
    var rest, key := wire[|WIRE_PREFIX|..], FromWire(wire).value;
    assert wire == WIRE_PREFIX + rest;
    assert rest != [];
    if rest[0] != '+' && (rest[0] != '0' || |rest| == 1) {
      Decimal.RenderParse(rest);
    }
    if wire == ToWire(key) {
      assert rest == ToWire(key)[|WIRE_PREFIX|..] == Decimal.Render(key);
      Decimal.RenderHasNoLeadingZero(key);
    }
  }
}
