/** The reducer's methods as they are: short locked sections and sends between
    which every other task may use the shared store. The history of the store is
    kept as a ghost; what each method achieves is stated about it. */
module PermissionReducer {
  import opened Wrappers
  import opened PermissionRegistry

  datatype WaitResult = Outcome(outcome: Outcome) | WaitAbandoned | TimedOut | StillWaiting

  /** Operations that leave the given ticket and the given senders alone. */
  ghost predicate Beside(ops: seq<Op>, ticket: Option<nat>, senders: set<nat>) {
    forall op | op in ops ::
      && !(op.Insert? && ticket == Some(op.ticket))
      && !(op.Send? && op.channel in senders)
      && !(op.Tell? && op.channel in senders)
  }

  /** Of the senders a `cancel_all` drained, those in `left` are still to be used;
      the others are gone, and their waiters cancelled or gone too. */
  ghost predicate Progress(r: Registry, left: set<nat>, all: set<nat>) {
    && left <= r.drained
    && (forall c | c in all :: Cancelling(r, c))
    && (forall c | c in all - left :: c !in r.drained && !InTable(r, c))
  }

  lemma DrainStarts(h: seq<Op>)
    ensures After(h + [LockDrain]) == Do(After(h), LockDrain)
    ensures Progress(After(h + [LockDrain]), Owned(After(h)), Owned(After(h)))
  {
    AfterSnoc(h, LockDrain);
    RunKeeps(h);
    assert forall c | c in Owned(After(h)) :: Unused(After(h), c);
  }

  /** Nobody else uses the senders left, and those gone do not come back. */
  lemma ProgressStays(r: Registry, op: Op, left: set<nat>, all: set<nat>)
    requires Inv(r) && Progress(r, left, all) && !(op.Tell? && op.channel in left)
    ensures Progress(Do(r, op), left, all)
  {
    forall c | c in all ensures Cancelling(Do(r, op), c) {
      CancellingStays(r, op, c);
    }
    forall c | c in all - left ensures c !in Do(r, op).drained && !InTable(Do(r, op), c) {
      assert c < |r.channels|;
      GoneStays(r, op, c);
    }
  }

  lemma GoneStays(r: Registry, op: Op, c: nat)
    requires c < |r.channels| && c !in r.drained && !InTable(r, c)
    ensures c !in Do(r, op).drained && !InTable(Do(r, op), c)
  {
    assert c !in Owned(r);
    forall k | k in Do(r, op).entries ensures Do(r, op).entries[k].channel != c {
      if k in r.entries && Do(r, op).entries[k] == r.entries[k] {
        assert r.entries[k].channel != c;
      }
    }
  }

  lemma {:induction false} ProgressKept(h: seq<Op>, b: seq<Op>, left: set<nat>, all: set<nat>)
    requires Progress(After(h), left, all) && Beside(b, None, left)
    ensures Progress(After(h + b), left, all)
    decreases |b|
  {
    if b == [] {
      assert h + b == h;
    } else {
      var front, last := b[..|b| - 1], b[|b| - 1];
      assert h + b == h + front + [last] && Beside(front, None, left);
      assert last in b && !(last.Tell? && last.channel in left);
      hide *;
      ProgressKept(h, front, left, all);
      RunKeeps(h + front);
      ProgressStays(After(h + front), last, left, all);
      AfterSnoc(h + front, last);
    }
  }

  lemma TellProgresses(r: Registry, c: nat, left: set<nat>, all: set<nat>)
    requires Inv(r) && c in left && left <= all && Progress(r, left, all)
    ensures Progress(Do(r, Tell(c)), left - {c}, all) && c < |r.channels| && r.channels[c].slot == Empty
  {
    forall d | d in all ensures Cancelling(Do(r, Tell(c)), d) {
      CancellingStays(r, Tell(c), d);
    }
    assert Unused(r, c);
    assert forall d :: InTable(Do(r, Tell(c)), d) <==> InTable(r, d);
    forall k | k in r.entries ensures r.entries[k].channel != c {
    }
  }

  lemma ProgressMade(r: Registry, all: set<nat>)
    requires Progress(r, {}, all)
    ensures forall c | c in all ::
              c < |r.channels| && (!r.channels[c].listening || r.channels[c].slot == Holds(Cancelled))
  {
    assert all - {} == all;
  }

  /** The send of a resolve finds its sender, and its waiter there or not. */
  lemma SendsToWaiter(start: seq<Op>, key: nat, b: seq<Op>, o: Outcome)
    requires Pending(start, key).Some? && Beside(b, None, {Pending(start, key).value.channel})
    ensures var c, h := Pending(start, key).value.channel, start + [Remove(key)] + b;
            var r, s := After(h), After(h + [Send(c, o)]);
            && c < |r.channels| && (Lost(h + [Send(c, o)], c) <==> !r.channels[c].listening)
            && s.next == r.next && s.entries == r.entries && s.channels == Told(r.channels, c, o)
  {
    var c, h := Pending(start, key).value.channel, start + [Remove(key)] + b;
    ResolveByHistory(start, key, b);
    RunKeeps(h);
    assert Unused(After(h), c);
    AfterSnoc(h, Send(c, o));
    AfterWaiter(h + [Send(c, o)], c);
    hide After, Pending, Lost, Inv;
  }

  class PermissionReducer {
    var next: nat
    var entries: map<nat, Entry>
    var channels: seq<Channel>
    ghost var history: seq<Op>

    /** The fields are what the history makes of the store. */
    ghost predicate Valid()
      reads this
    {
      var r := After(history);
      next == r.next && entries == r.entries && channels == r.channels
    }

    constructor ()
      ensures Valid() && history == []
    {
      next, entries, channels := 0, map[], [];
      history := [];
    }

    /** Whatever other tasks do to the store meanwhile: they cannot use a ticket or
        a sender they do not hold. */
    method OthersRun(ghost ticket: Option<nat>, ghost senders: set<nat>)
      requires Valid()
      modifies this`next, this`entries, this`channels, this`history
      ensures Valid() && old(history) <= history && Beside(history[|old(history)|..], ticket, senders)
    {
    }

    /** The counter operation of an enrolment. */
    method DrawKey() returns (key: nat, ghost ticket: nat)
      requires Valid()
      modifies this`next, this`history
      ensures Valid() && history == old(history) + [Draw]
      ensures key == Counter(old(history)) && ticket == Tickets(old(history))
    {
      AfterCounters(history);
      AfterSnoc(history, Draw);
      key, ticket := next, Tickets(history);
      next := if next == U64_MAX then 0 else next + 1;
      history := history + [Draw];
    }

    /** The counter operation of a reinstatement. */
    method BumpPast(key: nat) returns (ghost ticket: nat)
      requires Valid()
      modifies this`next, this`history
      ensures Valid() && history == old(history) + [Bump(key)] && ticket == Tickets(old(history))
    {
      AfterCounters(history);
      AfterSnoc(history, Bump(key));
      ticket := Tickets(history);
      var least := if key < U64_MAX then key + 1 else U64_MAX;
      if next < least {
        next := least;
      }
      history := history + [Bump(key)];
    }

    /** The locked insertion: a fresh channel under the key; a sender already there
        is dropped. */
    method InsertEntry(key: nat, context: Option<Context>, ghost ticket: nat) returns (rx: nat)
      requires Valid() && FlightOf(history, ticket).Some? && FlightOf(history, ticket).value.key == key
      modifies this`entries, this`channels, this`history
      ensures Valid() && history == old(history) + [Insert(ticket, context)]
      ensures rx == |old(channels)| && key in entries && entries[key] == Entry(rx, context)
      ensures rx < |channels| && channels[rx] == Channel(Empty, true)
    {
      AfterFlight(history, ticket);
      AfterSnoc(history, Insert(ticket, context));
      hide After, FlightOf;
      rx := |channels|;
      if key in entries {
        var c := entries[key].channel;
        channels := if c < |channels| then channels[c := channels[c].(slot := SenderDropped)] else channels;
      }
      entries := entries[key := Entry(rx, context)];
      channels := channels + [Channel(Empty, true)];
      history := history + [Insert(ticket, context)];
    }

    /** Enrols under a key drawn before the lock is taken. When the counter does
        not wrap and nobody reinstates the key in between, nothing was pending
        under it. */
    method EnrollWithContext(context: Option<Context>) returns (key: nat, rx: nat)
      requires Valid()
      modifies this`next, this`entries, this`channels, this`history
      ensures Valid() && old(history) + [Draw] <= history
      ensures key == Counter(old(history)) && Pending(history, key) == Some(Entry(rx, context))
      ensures rx < |channels| && channels[rx] == Channel(Empty, true)
      ensures NoWrap(history) && Bump(key) !in history[|old(history)|..] ==>
                Pending(history[..|history| - 1], key).None?
    {
      ghost var ticket: nat;
      ghost var start := history;
      key, ticket := DrawKey();
      ghost var drawn := history;
      assert drawn[..|start|] == start;
      OthersRun(Some(ticket), {});
      ghost var b := history[|drawn|..];
      assert history == drawn + b;
      FlightKept(drawn, b, ticket);
      EnrolmentFresh(start, key, b);
      rx := InsertEntry(key, context, ticket);
      AfterEntry(history, key);
      assert history[|start|..] == [Draw] + b + [Insert(ticket, context)];
      assert history[..|history| - 1] == start + [Draw] + b;
      hide Valid, After, Pending, NoWrap, Counter, FlightOf;
    }

    /** Resolves a request: the sender is taken out under the lock and used after. */
    method ResolveWithContext(key: nat, o: Outcome) returns (r: ResolveResult)
      requires Valid()
      modifies this`next, this`entries, this`channels, this`history
      ensures Valid() && old(history) + [Remove(key)] <= history
      ensures match Pending(old(history), key)
              case None => r == UnknownRequest && history == old(history) + [Remove(key)] && channels == old(channels)
              case Some(e) =>
                && r == (if Lost(history, e.channel) then Abandoned else Resolved(e.context))
                && (r.Resolved? ==> e.channel < |channels| && channels[e.channel].slot == Holds(o))
    {
      ghost var start := history;
      AfterEntry(start, key);
      AfterSnoc(start, Remove(key));
      history := history + [Remove(key)];
      if key !in entries {
        return UnknownRequest;
      }
      var entry := entries[key];
      entries := entries - {key};
      hide After, Pending, Lost;
      var ok := SendOutcome(entry.channel, o, start, key);
      r := if ok then Resolved(entry.context) else Abandoned;
    }

    /** The send of a resolve, after whatever others do before it. */
    method SendOutcome(c: nat, o: Outcome, ghost start: seq<Op>, ghost key: nat) returns (ok: bool)
      requires Valid() && history == start + [Remove(key)]
      requires Pending(start, key).Some? && Pending(start, key).value.channel == c
      modifies this`next, this`entries, this`channels, this`history
      ensures Valid() && old(history) <= history
      ensures ok <==> !Lost(history, c)
      ensures ok ==> c < |channels| && channels[c].slot == Holds(o)
    {
      ghost var removed := history;
      OthersRun(None, {c});
      ghost var b := history[|removed|..];
      assert history == start + [Remove(key)] + b;
      SendsToWaiter(start, key, b, o);
      hide After, Pending, Lost;
      ok := channels[c].listening;
      if ok {
        channels := channels[c := channels[c].(slot := Holds(o))];
      }
      history := history + [Send(c, o)];
    }

    /** Re-registers a request under its old key. */
    method ReinstateForResume(key: nat, context: Context) returns (rx: nat)
      requires Valid()
      modifies this`next, this`entries, this`channels, this`history
      ensures Valid() && old(history) + [Bump(key)] <= history
      ensures Pending(history, key) == Some(Entry(rx, Some(context)))
      ensures rx < |channels| && channels[rx] == Channel(Empty, true)
    {
      ghost var start := history;
      ghost var ticket := BumpPast(key);
      ghost var bumped := history;
      assert bumped[..|start|] == start;
      OthersRun(Some(ticket), {});
      ghost var b := history[|bumped|..];
      assert history == bumped + b;
      FlightKept(bumped, b, ticket);
      rx := InsertEntry(key, Some(context), ticket);
      AfterEntry(history, key);
    }

    /** Drains the table under its lock, then sends to every drained sender. What
        was pending at the drain has been cancelled in the end, unless its waiter
        has gone. */
    method CancelAll()
      requires Valid()
      modifies this`next, this`entries, this`channels, this`history
      ensures Valid() && old(history) + [LockDrain] <= history
      ensures forall key | Pending(old(history), key).Some? ::
                var c := Pending(old(history), key).value.channel;
                c < |channels| && (!channels[c].listening || channels[c].slot == Holds(Cancelled))
    {
      ghost var start := history;
      var left := set key | key in entries :: entries[key].channel;
      ghost var all := left;
      DrainStarts(start);
      forall key | Pending(start, key).Some? ensures Pending(start, key).value.channel in all {
        AfterEntry(start, key);
      }
      entries := map[];
      history := history + [LockDrain];
      hide Pending, Progress;
      while left != {}
        invariant Valid() && start + [LockDrain] <= history
        invariant left <= all && Progress(After(history), left, all)
        decreases left
      {
        var c :| c in left;
        TellOne(c, left, all);
        left := left - {c};
      }
      ProgressMade(After(history), all);
    }

    /** One send of `cancel_all`, after whatever others do before it. */
    method TellOne(c: nat, ghost left: set<nat>, ghost all: set<nat>)
      requires Valid() && c in left && left <= all && Progress(After(history), left, all)
      modifies this`next, this`entries, this`channels, this`history
      ensures Valid() && old(history) <= history && Progress(After(history), left - {c}, all)
    {
      ghost var start := history;
      OthersRun(None, left);
      ghost var b := history[|start|..];
      assert history == start + b;
      ProgressKept(start, b, left, all);
      RunKeeps(history);
      AfterSnoc(history, Tell(c));
      TellProgresses(After(history), c, left, all);
      hide After;
      if channels[c].listening {
        channels := channels[c := channels[c].(slot := Holds(Cancelled))];
      }
      history := history + [Tell(c)];
    }

    /** Awaits a receiver; with a deadline it may give up, which drops the
        receiver and leaves the entry in the table. */
    method Wait(rx: nat, bounded: bool, elapsed: bool) returns (r: WaitResult)
      requires Valid() && rx < |channels|
      modifies this`channels, this`history
      ensures Valid() && history == if r == TimedOut then old(history) + [LoseWaiter(rx)] else old(history)
      ensures r == (match old(channels)[rx].slot
                    case Holds(o) => Outcome(o)
                    case SenderDropped => WaitAbandoned
                    case Empty => if bounded && elapsed then TimedOut else StillWaiting)
    {
      match channels[rx].slot
      case Holds(o) => r := Outcome(o);
      case SenderDropped => r := WaitAbandoned;
      case Empty =>
        if bounded && elapsed {
          AfterSnoc(history, LoseWaiter(rx));
          channels := channels[rx := channels[rx].(listening := false)];
          history := history + [LoseWaiter(rx)];
          r := TimedOut;
        } else {
          r := StillWaiting;
        }
    }
  }

  /** An enrolment that nobody's reinstatement overlaps finds nothing under its key. */
  lemma EnrolmentFresh(start: seq<Op>, key: nat, b: seq<Op>)
    requires key == Counter(start)
    requires Beside(b, Some(Tickets(start)), {})
    ensures NoWrap(start + [Draw] + b) && Bump(key) !in b ==> Pending(start + [Draw] + b, key).None?
  {
    var h, t := start + [Draw] + b, Tickets(start);
    assert (start + [Draw])[..|start|] == start;
    FlightKept(start + [Draw], b, t);
    assert forall m | |start| < m < |h| :: h[m] in b;
    forall m: nat | m < |start| && (h[m].Draw? || h[m].Bump?) ensures Tickets(h[..m]) < t {
      assert h[..m] == start[..m];
      TicketsGrow(start, m);
    }
    if NoWrap(h) && Bump(key) !in b && Pending(h, key).Some? {
      OverwritesOnlyReinstated(h, t, key);
    }
  }
}
