/** The permission round trip runs on the registry: what it keeps as sets of keys
    and waiters is the table, the drained senders and the channels of the store,
    and its steps are made of the store's sections. */
module PermissionComposition {
  import opened Wrappers
  import P = PermissionRegistry
  import T = PermissionRoundTrip

  /** A channel as its waiter sees it. */
  predicate Shows(c: P.Channel, w: T.Waiter) {
    match w
    case Waiting => c == P.Channel(P.Empty, true)
    case Got(o) => c.slot == P.Holds(o)
    case Left => c == P.Channel(P.Empty, false)
  }

  /** `owner` gives the channel of every request. */
  ghost predicate Owners(r: P.Registry, owner: map<nat, nat>) {
    && (forall k | k in owner :: owner[k] < |r.channels|)
    && (forall k, l | k in owner && l in owner && owner[k] == owner[l] :: k == l)
  }

  ghost predicate Simulates(r: P.Registry, s: T.State, owner: map<nat, nat>) {
    && owner.Keys == s.waiters.Keys && Owners(r, owner)
    && r.entries.Keys == s.pending && (forall k | k in r.entries :: k in owner && r.entries[k].channel == owner[k])
    && r.taken == map[]
    && (forall k | k in owner :: owner[k] in r.drained <==> k in s.held)
    && (forall k | k in owner :: Shows(r.channels[owner[k]], s.waiters[k]))
  }

  lemma InsertNew(r: P.Registry, ticket: nat, context: Option<P.Context>)
    requires ticket in r.flights && r.flights[ticket].key !in r.entries
    ensures P.Do(r, P.Insert(ticket, context)) ==
            r.(flights := r.flights - {ticket},
               entries := r.entries[r.flights[ticket].key := P.Entry(|r.channels|, context)],
               channels := r.channels + [P.Channel(P.Empty, true)])
  {
  }

  /** A request is enrolled: a key drawn before is inserted. */
  lemma EnrolSimulated(r: P.Registry, s: T.State, owner: map<nat, nat>, k: nat, ticket: nat,
                       context: Option<P.Context>)
    requires Simulates(r, s, owner) && k !in s.waiters && (forall c | c in r.drained :: c < |r.channels|)
    requires s.held <= s.waiters.Keys && ticket in r.flights && r.flights[ticket].key == k
    ensures Simulates(P.Do(r, P.Insert(ticket, context)), T.Apply(s, T.Enrol(k)), owner[k := |r.channels|])
  {
    InsertNew(r, ticket, context);
    OwnersGrow(r, P.Do(r, P.Insert(ticket, context)), owner, k);
    hide P.Do, Owners;
  }

  lemma OwnersGrow(r: P.Registry, t: P.Registry, owner: map<nat, nat>, k: nat)
    requires Owners(r, owner) && k !in owner && |t.channels| == |r.channels| + 1
    ensures Owners(t, owner[k := |r.channels|])
  {
  }

  /** A waiter leaves: its receiver goes, its entry stays. */
  lemma LeaveSimulated(r: P.Registry, s: T.State, owner: map<nat, nat>, k: nat)
    requires Simulates(r, s, owner) && T.Enabled(s, T.Leave(k))
    ensures Simulates(P.Do(r, P.LoseWaiter(owner[k])), T.Apply(s, T.Leave(k)), owner)
  {
    LeftShows(r.channels, s.waiters, owner, k);
    assert P.Do(r, P.LoseWaiter(owner[k])) == r.(channels := P.Left(r.channels, owner[k]));
    hide P.Do, P.Left, Shows;
  }

  /** A lost receiver shows at its waiter and nowhere else. */
  lemma LeftShows(channels: seq<P.Channel>, waiters: map<nat, T.Waiter>, owner: map<nat, nat>, k: nat)
    requires owner.Keys == waiters.Keys && k in owner && waiters[k] == T.Waiting
    requires forall l | l in owner :: owner[l] < |channels| && Shows(channels[owner[l]], waiters[l])
    requires forall l | l in owner && owner[l] == owner[k] :: l == k
    ensures var gone := P.Left(channels, owner[k]);
            && |gone| == |channels|
            && forall l | l in owner :: Shows(gone[owner[l]], if l == k then T.Waiter.Left else waiters[l])
  {
  }

  function ChannelOf(owner: map<nat, nat>, k: nat): nat {
    if k in owner then owner[k] else 0
  }

  /** Removing an entry and using its sender at once. */
  lemma RemoveAndSend(r: P.Registry, key: nat, c: nat, o: P.Outcome)
    requires r.taken == map[] && (key in r.entries ==> c == r.entries[key].channel)
    ensures P.Do(P.Do(r, P.Remove(key)), P.Send(c, o)) ==
            if key in r.entries then r.(entries := r.entries - {key}, channels := P.Told(r.channels, c, o)) else r
  {
    if key in r.entries {
      assert r.taken[c := r.entries[key].context] - {c} == map[];
    }
  }

  /** A send shows at its waiter and nowhere else. */
  lemma ToldShows(channels: seq<P.Channel>, waiters: map<nat, T.Waiter>, owner: map<nat, nat>, k: nat, o: P.Outcome)
    requires owner.Keys == waiters.Keys && k in owner && !waiters[k].Got?
    requires forall l | l in owner :: owner[l] < |channels| && Shows(channels[owner[l]], waiters[l])
    requires forall l | l in owner && owner[l] == owner[k] :: l == k
    ensures var told := P.Told(channels, owner[k], o);
            && |told| == |channels|
            && forall l | l in owner :: Shows(told[owner[l]], if l == k then T.Tell(waiters[k], o) else waiters[l])
  {
  }

  /** A pending request leaves the table and its waiter is told. */
  lemma ResolvedShows(r: P.Registry, s: T.State, owner: map<nat, nat>, k: nat, o: P.Outcome)
    requires Simulates(r, s, owner) && T.WaitersInv(s) && k in s.pending
    ensures k in s.waiters && k in owner
    ensures Simulates(r.(entries := r.entries - {k}, channels := P.Told(r.channels, owner[k], o)),
                      s.(pending := s.pending - {k}, waiters := s.waiters[k := T.Tell(s.waiters[k], o)]), owner)
  {
    PendingWaits(s, k);
    ToldShows(r.channels, s.waiters, owner, k, o);
    hide P.Told, Shows, T.Tell, T.WaitersInv;
  }

  /** Only the table, the drained senders and the waiters are compared. */
  lemma SameView(r: P.Registry, s: T.State, t: T.State, owner: map<nat, nat>)
    requires Simulates(r, s, owner) && t.pending == s.pending && t.held == s.held && t.waiters == s.waiters
    ensures Simulates(r, t, owner)
  {
  }

  /** The actor resolves: it removes the entry and uses the sender. */
  lemma ResumeSimulated(r: P.Registry, s: T.State, owner: map<nat, nat>)
    requires Simulates(r, s, owner) && T.Enabled(s, T.TakeResume) && T.WaitersInv(s)
    ensures var resume := s.queue[0];
            Simulates(P.Do(P.Do(r, P.Remove(resume.key)), P.Send(ChannelOf(owner, resume.key), resume.outcome)),
                      T.Apply(s, T.TakeResume), owner)
  {
    var k, o, t := s.queue[0].key, s.queue[0].outcome, T.Apply(s, T.TakeResume);
    RemoveAndSend(r, k, ChannelOf(owner, k), o);
    assert k !in s.pending ==> s.pending - {k} == s.pending;
    hide P.Do, P.Told, Shows, T.Tell, T.WaitersInv, Owners;
    if k in s.pending {
      ResolvedShows(r, s, owner, k, o);
      hide Simulates;
      SameView(r.(entries := r.entries - {k}, channels := P.Told(r.channels, owner[k], o)),
               s.(pending := s.pending - {k}, waiters := s.waiters[k := T.Tell(s.waiters[k], o)]), t, owner);
    } else {
      SameView(r, s, t, owner);
    }
  }

  lemma PendingWaits(s: T.State, k: nat)
    requires T.WaitersInv(s) && k in s.pending
    ensures k in s.waiters && !s.waiters[k].Got? && k !in s.held
  {
  }

  /** The actor cancels: it drains the table. */
  lemma CancelSimulated(r: P.Registry, s: T.State, owner: map<nat, nat>)
    requires Simulates(r, s, owner) && T.Enabled(s, T.TakeCancel(true)) && s.held == {}
    ensures Simulates(P.Do(r, P.LockDrain), T.Apply(s, T.TakeCancel(true)), owner)
  {
    assert forall k | k in owner :: owner[k] in P.Owned(r) <==> k in r.entries;
  }

  /** The actor tells one drained request. */
  lemma TellSimulated(r: P.Registry, s: T.State, owner: map<nat, nat>, k: nat)
    requires Simulates(r, s, owner) && T.Enabled(s, T.TellCancelled(k)) && T.WaitersInv(s) && k in owner
    ensures Simulates(P.Do(r, P.Tell(owner[k])), T.Apply(s, T.TellCancelled(k)), owner)
  {
    assert !s.waiters[k].Got?;
    hide P.Told, Shows, T.Tell, T.WaitersInv, Owners;
    ToldShows(r.channels, s.waiters, owner, k, P.Cancelled);
  }

  /** The sections of the store that make up a step; the n-th drawing gives out key
      and ticket n. */
  function Sections(s: T.State, owner: map<nat, nat>, step: T.Step): seq<P.Op>
    requires T.Enabled(s, step)
  {
    match step
    case Enrol(k) => [P.Insert(k, None)]
    case Leave(k) => [P.LoseWaiter(ChannelOf(owner, k))]
    case TakeResume => [P.Remove(s.queue[0].key), P.Send(ChannelOf(owner, s.queue[0].key), s.queue[0].outcome)]
    case TakeCancel(active) => if active then [P.LockDrain] else []
    case TellCancelled(k) => [P.Tell(ChannelOf(owner, k))]
    case _ => []
  }

  lemma QuietSimulated(r: P.Registry, s: T.State, owner: map<nat, nat>, step: T.Step)
    requires Simulates(r, s, owner) && T.Enabled(s, step)
    requires !step.Enrol? && !step.Leave? && !step.TakeResume? && !step.TellCancelled? && step != T.TakeCancel(true)
    ensures Simulates(r, T.Apply(s, step), owner)
  {
  }

  lemma StepSimulated(h: seq<P.Op>, s: T.State, owner: map<nat, nat>, step: T.Step) returns (more: map<nat, nat>)
    requires T.Inv(s) && P.Inv(P.After(h)) && Simulates(P.After(h), s, owner) && T.Enabled(s, step)
    requires step.Enrol? ==> step.key in P.After(h).flights && P.After(h).flights[step.key].key == step.key
    ensures Simulates(P.After(h + Sections(s, owner, step)), T.Apply(s, step), more)
  {
    hide T.Apply, T.Resolve, P.Do, P.After, P.Inv;
    var r := P.After(h);
    more := owner;
    AfterSections(h, Sections(s, owner, step));
    match step
    case Enrol(k) =>
      DrainedBounded(r);
      EnrolSimulated(r, s, owner, k, k, None);
      more := owner[k := |r.channels|];
    case Leave(k) => LeaveSimulated(r, s, owner, k);
    case TakeResume => ResumeSimulated(r, s, owner);
    case TakeCancel(active) =>
      if active {
        CancelSimulated(r, s, owner);
      } else {
        QuietSimulated(r, s, owner, step);
      }
    case TellCancelled(k) => TellSimulated(r, s, owner, k);
    case _ => QuietSimulated(r, s, owner, step);
  }

  lemma DrainedBounded(r: P.Registry)
    requires P.Inv(r)
    ensures forall c | c in r.drained :: c < |r.channels|
  {
    assert forall c | c in r.drained :: P.Unused(r, c);
  }

  lemma AfterSections(h: seq<P.Op>, ops: seq<P.Op>)
    requires |ops| <= 2
    ensures P.After(h + ops) ==
            if ops == [] then P.After(h)
            else if |ops| == 1 then P.Do(P.After(h), ops[0])
            else P.Do(P.Do(P.After(h), ops[0]), ops[1])
  {
    hide P.After, P.Do;
    if ops == [] {
      assert h + ops == h;
    } else {
      P.AfterSnoc(h, ops[0]);
      if |ops| == 1 {
        assert h + ops == h + [ops[0]];
      } else {
        P.AfterSnoc(h + [ops[0]], ops[1]);
        assert h + ops == h + [ops[0]] + [ops[1]];
      }
    }
  }

  // ----- runs -----------------------------------------------------------

  /** A move: the counter gives out a key, or the round trip takes a step. */
  datatype Move = Drawing | Stepping(step: T.Step)

  function Drawings(moves: seq<Move>): nat {
    if moves == [] then 0
    else Drawings(moves[..|moves| - 1]) + (if moves[|moves| - 1].Drawing? then 1 else 0)
  }

  function Steps(moves: seq<Move>): seq<T.Step> {
    if moves == [] then []
    else
      var last := moves[|moves| - 1];
      Steps(moves[..|moves| - 1]) + (if last.Stepping? then [last.step] else [])
  }

  /** Every request is inserted under a key drawn before, in whatever order. */
  predicate DrawnKeys(moves: seq<Move>) {
    moves == []
    || var front, last := moves[..|moves| - 1], moves[|moves| - 1];
       DrawnKeys(front) && (last.Stepping? && last.step.Enrol? ==> last.step.key < Drawings(front))
  }

  /** After n drawings: the keys below n that no request has are in flight. */
  ghost predicate InFlight(r: P.Registry, s: T.State, n: nat) {
    && r.tickets == n && r.next == (if n <= P.U64_MAX then n else 0)
    && forall k: nat | k < n && k !in s.waiters :: k in r.flights && r.flights[k] == P.Flight(k, false)
  }

  lemma StartSimulated()
    ensures Simulates(P.After([]), T.Start, map[]) && InFlight(P.After([]), T.Start, 0) && T.Inv(T.Start)
  {
  }

  lemma DrawSimulated(r: P.Registry, s: T.State, owner: map<nat, nat>, n: nat)
    requires Simulates(r, s, owner) && InFlight(r, s, n) && n <= P.U64_MAX
    ensures Simulates(P.Do(r, P.Draw), s, owner) && InFlight(P.Do(r, P.Draw), s, n + 1)
  {
  }

  lemma OpKeepsFlights(r: P.Registry, op: P.Op)
    requires !op.Draw? && !op.Bump?
    ensures var t := P.Do(r, op);
            && t.tickets == r.tickets && t.next == r.next
            && t.flights == if op.Insert? then r.flights - {op.ticket} else r.flights
  {
  }

  /** A step keeps what is in flight, except for the key it inserts. */
  lemma SectionsKeepFlights(s: T.State, owner: map<nat, nat>, step: T.Step)
    requires T.Enabled(s, step)
    ensures var ops := Sections(s, owner, step);
            && |ops| <= 2
            && (forall op | op in ops ::
                  !op.Draw? && !op.Bump? && (op.Insert? ==> op.ticket in T.Apply(s, step).waiters))
            && s.waiters.Keys <= T.Apply(s, step).waiters.Keys
  {
  }

  lemma InFlightOn(h: seq<P.Op>, ops: seq<P.Op>, s: T.State, t: T.State, n: nat)
    requires InFlight(P.After(h), s, n) && |ops| <= 2 && s.waiters.Keys <= t.waiters.Keys
    requires forall op | op in ops :: !op.Draw? && !op.Bump? && (op.Insert? ==> op.ticket in t.waiters)
    ensures InFlight(P.After(h + ops), t, n)
  {
    AfterSections(h, ops);
    if |ops| > 0 {
      OpKeepsFlights(P.After(h), ops[0]);
    }
    if |ops| > 1 {
      OpKeepsFlights(P.Do(P.After(h), ops[0]), ops[1]);
    }
    hide P.Do, P.After;
  }

  /** Every run of the round trip, with the keys drawn when and in the order the
      moves say, is a history of the registry. */
  lemma {:induction false} RunsAreHistories(moves: seq<Move>, s: T.State)
    returns (h: seq<P.Op>, owner: map<nat, nat>)
    requires T.Leads(T.Start, Steps(moves), s) && DrawnKeys(moves) && Drawings(moves) <= P.U64_MAX + 1
    ensures Simulates(P.After(h), s, owner) && InFlight(P.After(h), s, Drawings(moves))
    decreases |moves|
  {
    StartSimulated();
    if moves == [] {
      h, owner := [], map[];
    } else {
      var front, last := moves[..|moves| - 1], moves[|moves| - 1];
      if last.Drawing? {
        assert Steps(moves) == Steps(front);
        h, owner := RunsAreHistories(front, s);
        DrawSimulated(P.After(h), s, owner, Drawings(front));
        P.AfterSnoc(h, P.Draw);
        h := h + [P.Draw];
      } else {
        var steps := Steps(moves);
        assert steps[..|steps| - 1] == Steps(front) && steps[|steps| - 1] == last.step;
        var mid :| T.Leads(T.Start, Steps(front), mid) && T.Enabled(mid, last.step) && s == T.Apply(mid, last.step);
        h, owner := RunsAreHistories(front, mid);
        T.RunInv(T.Start, Steps(front), mid);
        h, owner := OneMoreStep(h, mid, owner, last.step, Drawings(front));
      }
    }
  }

  lemma OneMoreStep(h: seq<P.Op>, s: T.State, owner: map<nat, nat>, step: T.Step, n: nat)
    returns (longer: seq<P.Op>, more: map<nat, nat>)
    requires T.Inv(s) && Simulates(P.After(h), s, owner) && InFlight(P.After(h), s, n) && T.Enabled(s, step)
    requires step.Enrol? ==> step.key < n
    ensures Simulates(P.After(longer), T.Apply(s, step), more) && InFlight(P.After(longer), T.Apply(s, step), n)
  {
    P.RunKeeps(h);
    var ops := Sections(s, owner, step);
    SectionsKeepFlights(s, owner, step);
    assert step.Enrol? ==> step.key !in s.waiters;
    hide T.Inv, T.Enabled, T.Apply, P.Inv, P.After, Simulates, Sections;
    more := StepSimulated(h, s, owner, step);
    InFlightOn(h, ops, s, T.Apply(s, step), n);
    longer := h + ops;
  }

  /** No run is left out: with 64-bit keys, all of them can have been drawn before. */
  lemma EveryRunIsAHistory(steps: seq<T.Step>, s: T.State) returns (h: seq<P.Op>, owner: map<nat, nat>)
    requires T.Leads(T.Start, steps, s)
    requires forall step | step in steps && step.Enrol? :: step.key <= P.U64_MAX
    ensures Simulates(P.After(h), s, owner)
  {
    var moves := AllDrawnFirst(steps, P.U64_MAX + 1);
    h, owner := RunsAreHistories(moves, s);
  }

  lemma {:induction false} AllDrawnFirst(steps: seq<T.Step>, n: nat) returns (moves: seq<Move>)
    requires forall step | step in steps && step.Enrol? :: step.key < n
    ensures Steps(moves) == steps && Drawings(moves) == n && DrawnKeys(moves)
    decreases |steps|, n
  {
    if steps == [] {
      if n == 0 {
        moves := [];
      } else {
        var front := AllDrawnFirst([], n - 1);
        moves := front + [Drawing];
        assert moves[..|front|] == front;
      }
    } else {
      var front := AllDrawnFirst(steps[..|steps| - 1], n);
      moves := front + [Stepping(steps[|steps| - 1])];
      assert moves[..|front|] == front;
    }
  }

  // ----- taking a resolve as one step ------------------------------------

  /** What other tasks do while the actor is inside a resolve. */
  predicate OtherTasks(op: P.Op) {
    op.Draw? || op.Bump? || op.Insert? || op.LoseWaiter?
  }

  /** Such a section can be taken before the removal just as well, if and only if it
      does not insert an entry under the very key removed. */
  lemma RemovalCommutesIff(r: P.Registry, key: nat, op: P.Op)
    requires OtherTasks(op)
    ensures var one, two := P.Do(P.Do(r, P.Remove(key)), op), P.Do(P.Do(r, op), P.Remove(key));
            one == two <==> !(op.Insert? && op.ticket in r.flights && r.flights[op.ticket].key == key)
  {
    if op.Insert? && op.ticket in r.flights {
      InsertionAndRemoval(r, key, op.ticket, op.context);
    }
  }

  lemma InsertionAndRemoval(r: P.Registry, key: nat, ticket: nat, context: Option<P.Context>)
    requires ticket in r.flights
    ensures var one := P.Do(P.Do(r, P.Remove(key)), P.Insert(ticket, context));
            var two := P.Do(P.Do(r, P.Insert(ticket, context)), P.Remove(key));
            one == two <==> r.flights[ticket].key != key
  {
    var one := P.Do(P.Do(r, P.Remove(key)), P.Insert(ticket, context));
    var two := P.Do(P.Do(r, P.Insert(ticket, context)), P.Remove(key));
    if r.flights[ticket].key == key {
      assert key in one.entries && key !in two.entries;
    } else {
      assert one.entries == two.entries;
    }
  }

  /** What other tasks do after a history, none of it inserting under the key. */
  ghost predicate Elsewhere(h: seq<P.Op>, b: seq<P.Op>, key: nat) {
    && (forall op | op in b :: OtherTasks(op))
    && (forall j: nat | j < |b| :: !P.InsertsUnder(h + b[..j], b[j], key))
  }

  lemma ElsewhereFront(h: seq<P.Op>, b: seq<P.Op>, key: nat)
    requires Elsewhere(h, b, key) && b != []
    ensures var front, op := b[..|b| - 1], b[|b| - 1];
            Elsewhere(h, front, key) && OtherTasks(op) && !P.InsertsUnder(h + front, op, key)
  {
    var front := b[..|b| - 1];
    assert forall j: nat | j < |front| :: b[..j] == front[..j] && b[j] == front[j];
  }

  lemma FrontAndLast(h: seq<P.Op>, b: seq<P.Op>)
    requires b != []
    ensures h + b == h + b[..|b| - 1] + [b[|b| - 1]]
  {
  }

  /** So the actor's resolve can be taken as one step at the time of its send,
      whatever others draw, insert under other keys, or give up in between. */
  lemma {:induction false} ResolveAsOneStep(h: seq<P.Op>, key: nat, b: seq<P.Op>)
    requires Elsewhere(h, b, key)
    ensures P.After(h + [P.Remove(key)] + b) == P.After(h + b + [P.Remove(key)])
    decreases |b|
  {
    hide *;
    if b == [] {
      assert h + [P.Remove(key)] + b == h + b + [P.Remove(key)];
    } else {
      var front, op := b[..|b| - 1], b[|b| - 1];
      ElsewhereFront(h, b, key);
      ResolveAsOneStep(h, key, front);
      FrontAndLast(h, b);
      FrontAndLast(h + [P.Remove(key)], b);
      P.AfterSnoc(h + [P.Remove(key)] + front, op);
      P.AfterSnoc(h + front, P.Remove(key));
      P.AfterSnoc(h + front, op);
      P.AfterSnoc(h + b, P.Remove(key));
      OtherKey(h + front, op, key);
      RemovalCommutesIff(P.After(h + front), key, op);
    }
  }

  lemma OtherKey(h: seq<P.Op>, op: P.Op, key: nat)
    requires !P.InsertsUnder(h, op, key)
    ensures op.Insert? && op.ticket in P.After(h).flights ==> P.After(h).flights[op.ticket].key != key
  {
    if op.Insert? {
      P.AfterFlight(h, op.ticket);
    }
    hide P.After;
  }
}
