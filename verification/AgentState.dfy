/** The ACP bridge's session map: ids are minted from one process-wide counter,
    sometimes outside the lock, and a shadow queue evicts the oldest session. */
module AgentState {
  import opened Wrappers
  import Decimal

  const MAX_SESSIONS: nat := 1024

  /** The reasoning depth a client picked. */
  type Effort = string

  datatype Session = Session(id: string, thread: string, effort: Option<Effort>)

  function SessionName(unique: nat): string {
    "acp-" + Decimal.Render(unique)
  }

  function ThreadName(unique: nat): string {
    "thread:acp/" + Decimal.Render(unique)
  }

  // ----- the plain list the state is meant to be ------------------------

  predicate Distinct<T(==)>(s: seq<T>) {
    forall i, j | 0 <= i < j < |s| :: s[i] != s[j]
  }

  predicate Has(live: seq<Session>, id: string) {
    exists i :: 0 <= i < |live| && live[i].id == id
  }

  function Dropped(live: seq<Session>, id: string): seq<Session> {
    if live == [] then []
    else (if live[0].id == id then [] else [live[0]]) + Dropped(live[1..], id)
  }

  /** What is left once there is room for one more. */
  function Evicted(live: seq<Session>): seq<Session> {
    if |live| >= MAX_SESSIONS then live[1..] else live
  }

  function Pushed(live: seq<Session>, s: Session): seq<Session> {
    Evicted(live) + [s]
  }

  function Bound(live: seq<Session>, id: string, thread: string): seq<Session> {
    seq(|live|, i requires 0 <= i < |live| =>
      if live[i].id == id then live[i].(thread := thread, effort := None) else live[i])
  }

  function WithEffort(live: seq<Session>, id: string, effort: Effort): seq<Session> {
    seq(|live|, i requires 0 <= i < |live| =>
      if live[i].id == id then live[i].(effort := Some(effort)) else live[i])
  }

  function Lookup(live: seq<Session>, id: string): Option<Session> {
    if live == [] then None
    else if live[0].id == id then Some(live[0])
    else Lookup(live[1..], id)
  }

  // ----- runs -----------------------------------------------------------

  /** `minted` holds the numbers drawn by callers that are not back in the lock
      yet; `issued` and `bound` log every session id handed out and every thread
      id ever bound. */
  datatype State = State(next: nat, minted: set<nat>, live: seq<Session>, issued: seq<string>, bound: seq<string>)

  const Initial := State(0, {}, [], [], [])

  datatype Step =
    | Mint
    | Insert(unique: nat)
    | Remove(id: string)
    | Rebind(id: string)
    | SetEffort(id: string, effort: Effort)

  /** A caller can only insert under a number it has drawn. */
  function Do(s: State, step: Step): State {
    match step
    case Mint => s.(next := s.next + 1, minted := s.minted + {s.next})
    case Insert(n) =>
      if n !in s.minted then s
      else s.(minted := s.minted - {n},
              live := Pushed(s.live, Session(SessionName(n), ThreadName(n), None)),
              issued := s.issued + [SessionName(n)],
              bound := s.bound + [ThreadName(n)])
    case Remove(id) => s.(live := Dropped(s.live, id))
    case Rebind(id) =>
      if !Has(s.live, id) then s
      else s.(next := s.next + 1,
              live := Bound(s.live, id, ThreadName(s.next)),
              bound := s.bound + [ThreadName(s.next)])
    case SetEffort(id, effort) => s.(live := WithEffort(s.live, id, effort))
  }

  function After(h: seq<Step>): State {
    if h == [] then Initial else Do(After(h[..|h| - 1]), h[|h| - 1])
  }

  // ----- what every run keeps -------------------------------------------

  predicate Names(prefix: string, name: string, k: nat) {
    name == prefix + Decimal.Render(k)
  }

  /** The name comes from a number drawn and no longer in a caller's hand. */
  ghost predicate Used(prefix: string, name: string, next: nat, minted: set<nat>) {
    exists k: nat :: k < next && k !in minted && Names(prefix, name, k)
  }

  ghost predicate Drawn(prefix: string, log: seq<string>, next: nat, minted: set<nat>) {
    forall i | 0 <= i < |log| :: Used(prefix, log[i], next, minted)
  }

  /** When an id was handed out. */
  function Position(issued: seq<string>, id: string): nat {
    if issued == [] || issued[0] == id then 0 else 1 + Position(issued[1..], id)
  }

  /** Live sessions differ in id and in thread, in the order their ids were
      handed out. */
  ghost predicate Apart(live: seq<Session>, issued: seq<string>) {
    forall i, j | 0 <= i < j < |live| ::
      && live[i].id != live[j].id && live[i].thread != live[j].thread
      && Position(issued, live[i].id) < Position(issued, live[j].id)
  }

  ghost predicate LogInv(s: State) {
    && (forall n | n in s.minted :: n < s.next)
    && Drawn("acp-", s.issued, s.next, s.minted) && Distinct(s.issued)
    && Drawn("thread:acp/", s.bound, s.next, s.minted) && Distinct(s.bound)
  }

  ghost predicate LiveInv(live: seq<Session>, issued: seq<string>, bound: seq<string>) {
    && |live| <= MAX_SESSIONS
    && (forall i | 0 <= i < |live| :: live[i].id in issued && live[i].thread in bound)
    && Apart(live, issued)
  }

  ghost predicate Inv(s: State) {
    LogInv(s) && LiveInv(s.live, s.issued, s.bound)
  }

  /** A number still in a caller's hand, or not drawn yet, names nothing logged. */
  lemma NotLogged(prefix: string, log: seq<string>, next: nat, minted: set<nat>, n: nat)
    requires Drawn(prefix, log, next, minted)
    requires n >= next || n in minted
    ensures prefix + Decimal.Render(n) !in log
  {
    if prefix + Decimal.Render(n) in log {
      assert Used(prefix, prefix + Decimal.Render(n), next, minted);
      var k: nat :| k < next && k !in minted && Names(prefix, prefix + Decimal.Render(n), k);
      Decimal.PrefixedInjective(prefix, k, n);
    }
  }

  lemma DrawnCarries(prefix: string, log: seq<string>, next: nat, minted: set<nat>, later: nat, hands: set<nat>)
    requires Drawn(prefix, log, next, minted)
    requires forall k: nat | k < next && k !in minted :: k < later && k !in hands
    ensures Drawn(prefix, log, later, hands)
  {
    forall i | 0 <= i < |log| ensures Used(prefix, log[i], later, hands) {
      assert Used(prefix, log[i], next, minted);
    }
  }

  /** Using up a number: one in hand, or the next one. */
  lemma DrawnMore(prefix: string, log: seq<string>, next: nat, minted: set<nat>, n: nat)
    requires Drawn(prefix, log, next, minted)
    requires n == next || (n < next && n in minted)
    requires forall k | k in minted :: k < next
    ensures Drawn(prefix, log + [prefix + Decimal.Render(n)], if n == next then next + 1 else next, minted - {n})
  {
    DrawnCarries(prefix, log, next, minted, if n == next then next + 1 else next, minted - {n});
    var name, later := prefix + Decimal.Render(n), if n == next then next + 1 else next;
    assert Used(prefix, name, later, minted - {n}) by {
      assert Names(prefix, name, n);
    }
    hide Used, Decimal.Render;
  }

  lemma MintKeepsLog(s: State)
    requires LogInv(s)
    ensures LogInv(Do(s, Mint))
  {
    DrawnCarries("acp-", s.issued, s.next, s.minted, s.next + 1, s.minted + {s.next});
    DrawnCarries("thread:acp/", s.bound, s.next, s.minted, s.next + 1, s.minted + {s.next});
    hide Drawn;
  }

  lemma InsertKeepsLog(s: State, n: nat)
    requires LogInv(s) && n in s.minted
    ensures LogInv(Do(s, Insert(n)))
    ensures SessionName(n) !in s.issued && ThreadName(n) !in s.bound
  {
    NotLogged("acp-", s.issued, s.next, s.minted, n);
    NotLogged("thread:acp/", s.bound, s.next, s.minted, n);
    DrawnMore("acp-", s.issued, s.next, s.minted, n);
    DrawnMore("thread:acp/", s.bound, s.next, s.minted, n);
    hide Drawn, Decimal.Render;
  }

  lemma RebindKeepsLog(s: State, id: string)
    requires LogInv(s) && Has(s.live, id)
    ensures LogInv(Do(s, Rebind(id)))
    ensures ThreadName(s.next) !in s.bound
  {
    NotLogged("thread:acp/", s.bound, s.next, s.minted, s.next);
    DrawnMore("thread:acp/", s.bound, s.next, s.minted, s.next);
    assert s.minted - {s.next} == s.minted;
    hide Decimal.Render;
  }

  lemma {:induction false} PositionPast(issued: seq<string>, x: string, id: string)
    ensures id in issued ==> Position(issued + [x], id) == Position(issued, id) < |issued|
    ensures id !in issued && id == x ==> Position(issued + [x], id) == |issued|
  {
    if issued != [] {
      assert (issued + [x])[1..] == issued[1..] + [x];
      PositionPast(issued[1..], x, id);
    }
  }

  lemma AppendKeeps(kept: seq<Session>, issued: seq<string>, bound: seq<string>, x: Session)
    requires LiveInv(kept, issued, bound) && |kept| < MAX_SESSIONS && x.id !in issued && x.thread !in bound
    ensures LiveInv(kept + [x], issued + [x.id], bound + [x.thread])
  {
    var ids, threads := issued + [x.id], bound + [x.thread];
    PositionPast(issued, x.id, x.id);
    forall i | 0 <= i < |kept|
      ensures kept[i].id in ids && kept[i].thread in threads && kept[i].id != x.id && kept[i].thread != x.thread
      ensures Position(ids, kept[i].id) == Position(issued, kept[i].id) < Position(ids, x.id)
    {
      PositionPast(issued, x.id, kept[i].id);
    }
    assert ids[|issued|] == x.id && threads[|bound|] == x.thread;
    hide Position;
  }

  lemma EvictKeeps(live: seq<Session>, issued: seq<string>, bound: seq<string>)
    requires LiveInv(live, issued, bound)
    ensures LiveInv(Evicted(live), issued, bound) && |Evicted(live)| < MAX_SESSIONS
  {
  }

  lemma PushedKeeps(live: seq<Session>, issued: seq<string>, bound: seq<string>, x: Session)
    requires LiveInv(live, issued, bound) && x.id !in issued && x.thread !in bound
    ensures LiveInv(Pushed(live, x), issued + [x.id], bound + [x.thread])
  {
    hide LiveInv;
    EvictKeeps(live, issued, bound);
    AppendKeeps(Evicted(live), issued, bound, x);
  }

  /** Leaving one session out. */
  lemma CutKeeps(live: seq<Session>, issued: seq<string>, bound: seq<string>, i: nat)
    requires LiveInv(live, issued, bound) && i < |live|
    ensures LiveInv(live[..i] + live[i + 1..], issued, bound)
  {
  }

  /** Changing threads to new ones and efforts to anything, one session at most. */
  lemma ChangeKeeps(live: seq<Session>, issued: seq<string>, bound: seq<string>, z: seq<Session>, more: seq<string>)
    requires LiveInv(live, issued, bound) && |z| == |live|
    requires forall x | x in bound :: x in more
    requires forall i | 0 <= i < |live| :: z[i].id == live[i].id && z[i].thread in more
    requires forall i | 0 <= i < |live| :: z[i].thread == live[i].thread || z[i].thread !in bound
    requires forall i, j | 0 <= i < j < |live| && z[i].thread !in bound :: z[j].thread in bound
    ensures LiveInv(z, issued, more)
  {
  }

  lemma {:induction false} DroppedAt(live: seq<Session>, i: nat)
    requires i < |live| && forall j | 0 <= j < |live| && j != i :: live[j].id != live[i].id
    ensures Dropped(live, live[i].id) == live[..i] + live[i + 1..]
  {
    if i == 0 {
      NotThere(live[1..], live[0].id);
    } else {
      DroppedAt(live[1..], i - 1);
    }
  }

  /** Operations on an id that is not live change nothing. */
  lemma {:induction false} NotThere(live: seq<Session>, id: string)
    requires !Has(live, id)
    ensures Dropped(live, id) == live && Lookup(live, id) == None
    ensures forall effort :: WithEffort(live, id, effort) == live
  {
    if live != [] {
      assert !Has(live[1..], id) by {
        assert forall i | 0 <= i < |live| - 1 :: live[1..][i] == live[i + 1];
      }
      assert live[0].id != id;
      NotThere(live[1..], id);
    }
  }

  /** The id made of a number in hand is neither logged nor live. */
  lemma FreshId(s: State, n: nat)
    requires Inv(s) && n in s.minted
    ensures SessionName(n) !in s.issued && !Has(s.live, SessionName(n))
  {
    NotLogged("acp-", s.issued, s.next, s.minted, n);
  }

  lemma InsertKeeps(s: State, n: nat)
    requires Inv(s) && n in s.minted
    ensures Inv(Do(s, Insert(n)))
  {
    InsertKeepsLog(s, n);
    PushedKeeps(s.live, s.issued, s.bound, Session(SessionName(n), ThreadName(n), None));
    hide LogInv, LiveInv, Pushed, SessionName, ThreadName;
  }

  lemma RemoveKeeps(s: State, id: string)
    requires Inv(s)
    ensures Inv(Do(s, Remove(id)))
  {
    if i :| 0 <= i < |s.live| && s.live[i].id == id {
      DroppedAt(s.live, i);
      CutKeeps(s.live, s.issued, s.bound, i);
    } else {
      NotThere(s.live, id);
    }
    hide LiveInv, Dropped;
  }

  lemma RebindKeeps(s: State, id: string)
    requires Inv(s) && Has(s.live, id)
    ensures Inv(Do(s, Rebind(id)))
  {
    RebindKeepsLog(s, id);
    var z := Do(s, Rebind(id));
    hide LogInv, ThreadName;
    ChangeKeeps(s.live, s.issued, s.bound, z.live, z.bound);
  }

  lemma EffortKeeps(s: State, id: string, effort: Effort)
    requires Inv(s)
    ensures Inv(Do(s, SetEffort(id, effort)))
  {
    assert LogInv(Do(s, SetEffort(id, effort)));
    hide LogInv;
    ChangeKeeps(s.live, s.issued, s.bound, Do(s, SetEffort(id, effort)).live, s.bound);
  }

  lemma StepKeeps(s: State, step: Step)
    requires Inv(s)
    ensures Inv(Do(s, step))
  {
    match step
    case Mint => MintKeepsLog(s);
    case Insert(n) =>
      if n in s.minted {
        InsertKeeps(s, n);
      }
    case Remove(id) => RemoveKeeps(s, id);
    case Rebind(id) =>
      if Has(s.live, id) {
        RebindKeeps(s, id);
      }
    case SetEffort(id, effort) => EffortKeeps(s, id, effort);
  }

  lemma {:induction false} RunKeeps(h: seq<Step>)
    ensures Inv(After(h))
  {
    if h != [] {
      RunKeeps(h[..|h| - 1]);
      StepKeeps(After(h[..|h| - 1]), h[|h| - 1]);
    }
  }

  // ----- main results ---------------------------------------------------

  /** However callers interleave: no session id is handed out twice, no thread is
      bound twice, live sessions have distinct ids and threads, and the cap holds. */
  lemma NothingIssuedTwice(h: seq<Step>)
    ensures var s := After(h);
            Distinct(s.issued) && Distinct(s.bound) && Apart(s.live, s.issued) && |s.live| <= 1024
  {
    RunKeeps(h);
  }

  /** An insert evicts at most one session, only at the cap, and then the one whose
      id was handed out first among the live ones; the rest stay as they are. */
  lemma EvictionTakesTheOldest(h: seq<Step>, n: nat)
    requires n in After(h).minted
    ensures var s, z := After(h), After(h + [Insert(n)]);
            && (var id, thread := "acp-" + Decimal.Render(n), "thread:acp/" + Decimal.Render(n);
                Lookup(z.live, id) == Some(Session(id, thread, None)))
            && (forall x | x in s.live :: x !in z.live <==> |s.live| == 1024 && x == s.live[0])
            && (forall j | 0 < j < |s.live| :: Position(s.issued, s.live[0].id) < Position(s.issued, s.live[j].id))
  {
    var s := After(h);
    assert (h + [Insert(n)])[..|h|] == h;
    RunKeeps(h);
    NotLogged("acp-", s.issued, s.next, s.minted, n);
    PushedEvicts(s.live, s.issued, s.bound, Session(SessionName(n), ThreadName(n), None));
  }

  lemma PushedEvicts(live: seq<Session>, issued: seq<string>, bound: seq<string>, newest: Session)
    requires LiveInv(live, issued, bound) && newest.id !in issued
    ensures Lookup(Pushed(live, newest), newest.id) == Some(newest)
    ensures forall x | x in live :: x !in Pushed(live, newest) <==> |live| == MAX_SESSIONS && x == live[0]
  {
    var kept := Evicted(live);
    LookupAtEnd(kept, newest);
    forall x | x in live ensures x !in kept + [newest] <==> |live| == MAX_SESSIONS && x == live[0] {
      var i :| 0 <= i < |live| && live[i] == x;
      assert i > 0 && |live| == MAX_SESSIONS ==> kept[i - 1] == x;
    }
  }

  lemma {:induction false} LookupAtEnd(live: seq<Session>, s: Session)
    requires forall i | 0 <= i < |live| :: live[i].id != s.id
    ensures Lookup(live + [s], s.id) == Some(s)
  {
    if live != [] {
      assert (live + [s])[1..] == live[1..] + [s];
      LookupAtEnd(live[1..], s);
    }
  }

  /** A rebind of a live session gives it a thread no session was ever bound to
      and clears the effort; every other session keeps what it had. */
  lemma RebindIsFresh(h: seq<Step>, id: string)
    requires Has(After(h).live, id)
    ensures var s, z := After(h), After(h + [Rebind(id)]);
            && ThreadName(s.next) !in s.bound
            && Lookup(z.live, id) == Some(Session(id, "thread:acp/" + Decimal.Render(s.next), None))
            && forall other | other != id :: Lookup(z.live, other) == Lookup(s.live, other)
  {
    assert (h + [Rebind(id)])[..|h|] == h;
    RunKeeps(h);
    var s := After(h);
    NotLogged("thread:acp/", s.bound, s.next, s.minted, s.next);
    LookupBound(s.live, id, ThreadName(s.next), id);
    forall other | other != id ensures Lookup(Bound(s.live, id, ThreadName(s.next)), other) == Lookup(s.live, other) {
      LookupBound(s.live, id, ThreadName(s.next), other);
    }
  }

  lemma {:induction false} LookupBound(live: seq<Session>, id: string, thread: string, x: string)
    ensures Lookup(Bound(live, id, thread), x) ==
            match Lookup(live, x)
            case None => None
            case Some(s) => Some(if x == id then Session(id, thread, None) else s)
    ensures Has(live, x) ==> Lookup(live, x).Some? && Lookup(live, x).value.id == x
  {
    if live != [] {
      assert Bound(live, id, thread)[1..] == Bound(live[1..], id, thread);
      LookupBound(live[1..], id, thread, x);
      if Has(live, x) && live[0].id != x {
        var i :| 0 <= i < |live| && live[i].id == x;
        assert live[1..][i - 1] == live[i];
      }
    }
  }

  /** A removed session is unknown, and no other is touched. */
  lemma {:induction false} LookupDropped(live: seq<Session>, id: string, x: string)
    ensures Lookup(Dropped(live, id), x) == if x == id then None else Lookup(live, x)
  {
    if live != [] {
      LookupDropped(live[1..], id, x);
      var rest := Dropped(live[1..], id);
      assert ([live[0]] + rest)[1..] == rest && [] + rest == rest;
    }
  }

  /** The effort set is the effort read back, and no other session is touched. */
  lemma {:induction false} LookupWithEffort(live: seq<Session>, id: string, effort: Effort, x: string)
    ensures Lookup(WithEffort(live, id, effort), x) ==
            match Lookup(live, x)
            case None => None
            case Some(s) => Some(if x == id then s.(effort := Some(effort)) else s)
  {
    if live != [] {
      assert WithEffort(live, id, effort)[1..] == WithEffort(live[1..], id, effort);
      LookupWithEffort(live[1..], id, effort, x);
    }
  }

  /** After a removal the session is unknown and every other is as it was. */
  lemma RemovedIsUnknown(h: seq<Step>, id: string, x: string)
    ensures Lookup(After(h + [Remove(id)]).live, x) == if x == id then None else Lookup(After(h).live, x)
  {
    assert (h + [Remove(id)])[..|h|] == h;
    LookupDropped(After(h).live, id, x);
  }

  /** After an effort is set it is the one read back, if the session is live, and
      every other session is as it was. */
  lemma EffortReadBack(h: seq<Step>, id: string, effort: Effort, x: string)
    ensures Lookup(After(h + [SetEffort(id, effort)]).live, x) ==
            match Lookup(After(h).live, x)
            case None => None
            case Some(s) => Some(if x == id then s.(effort := Some(effort)) else s)
  {
    assert (h + [SetEffort(id, effort)])[..|h|] == h;
    LookupWithEffort(After(h).live, id, effort, x);
  }

  // ----- the map and its shadow -----------------------------------------

  datatype Entry = Entry(thread: string, effort: Option<Effort>)

  /** The queue shadows the map exactly. */
  ghost predicate InSync(queue: seq<string>, sessions: map<string, Entry>) {
    Distinct(queue) && forall id :: id in queue <==> id in sessions
  }

  function Named(id: string, e: Entry): Session {
    Session(id, e.thread, e.effort)
  }

  ghost function View(queue: seq<string>, sessions: map<string, Entry>): seq<Session>
    requires InSync(queue, sessions)
  {
    seq(|queue|, i requires 0 <= i < |queue| => Named(queue[i], sessions[queue[i]]))
  }

  /** A queue without repetitions is as long as the map it shadows. */
  lemma {:induction false} SameSize(queue: seq<string>, keys: set<string>)
    requires Distinct(queue) && forall x :: x in queue <==> x in keys
    ensures |queue| == |keys|
  {
    if queue != [] {
      SameSize(queue[1..], keys - {queue[0]});
    } else {
      assert keys == {};
    }
  }

  lemma HasWhenInMap(queue: seq<string>, sessions: map<string, Entry>, id: string)
    requires InSync(queue, sessions)
    ensures Has(View(queue, sessions), id) <==> id in sessions
  {
    if id in sessions {
      var i :| 0 <= i < |queue| && queue[i] == id;
      assert View(queue, sessions)[i].id == id;
    }
  }

  lemma EvictInView(queue: seq<string>, sessions: map<string, Entry>)
    requires InSync(queue, sessions) && queue != []
    ensures InSync(queue[1..], sessions - {queue[0]})
    ensures View(queue[1..], sessions - {queue[0]}) == View(queue, sessions)[1..]
  {
  }

  lemma PushInView(queue: seq<string>, sessions: map<string, Entry>, id: string, e: Entry)
    requires InSync(queue, sessions) && id !in sessions
    ensures InSync(queue + [id], sessions[id := e])
    ensures View(queue + [id], sessions[id := e]) == View(queue, sessions) + [Named(id, e)]
  {
  }

  /** Evicting the oldest when the map is full, then appending, is the bounded push. */
  lemma InsertInView(queue: seq<string>, sessions: map<string, Entry>, id: string, e: Entry)
    requires InSync(queue, sessions) && id !in sessions
    ensures var full := |sessions| >= MAX_SESSIONS && |queue| > 0;
            var q := if full then queue[1..] else queue;
            var m := if full then sessions - {queue[0]} else sessions;
            InSync(q + [id], m[id := e]) && View(q + [id], m[id := e]) == Pushed(View(queue, sessions), Named(id, e))
  {
    SameSize(queue, sessions.Keys);
    var full := |sessions| >= MAX_SESSIONS && |queue| > 0;
    assert |View(queue, sessions)| == |queue|;
    hide View, InSync, Distinct;
    if full {
      EvictInView(queue, sessions);
      PushInView(queue[1..], sessions - {queue[0]}, id, e);
    } else {
      PushInView(queue, sessions, id, e);
    }
  }

  function Retained(queue: seq<string>, id: string): seq<string> {
    if queue == [] then []
    else (if queue[0] == id then [] else [queue[0]]) + Retained(queue[1..], id)
  }

  lemma {:induction false} NotRetained(queue: seq<string>, id: string)
    requires id !in queue
    ensures Retained(queue, id) == queue
  {
    if queue != [] {
      NotRetained(queue[1..], id);
    }
  }

  lemma {:induction false} RetainedAt(queue: seq<string>, i: nat)
    requires i < |queue| && forall j | 0 <= j < |queue| && j != i :: queue[j] != queue[i]
    ensures Retained(queue, queue[i]) == queue[..i] + queue[i + 1..]
  {
    if i == 0 {
      NotRetained(queue[1..], queue[0]);
    } else {
      RetainedAt(queue[1..], i - 1);
      assert queue[1..][..i - 1] == queue[1..i] && queue[1..][i..] == queue[i + 1..];
    }
  }

  lemma CutInSync(queue: seq<string>, sessions: map<string, Entry>, i: nat)
    requires InSync(queue, sessions) && i < |queue|
    ensures InSync(queue[..i] + queue[i + 1..], sessions - {queue[i]})
  {
  }

  lemma RemoveInView(queue: seq<string>, sessions: map<string, Entry>, id: string)
    requires InSync(queue, sessions) && id in sessions
    ensures InSync(Retained(queue, id), sessions - {id})
    ensures View(Retained(queue, id), sessions - {id}) == Dropped(View(queue, sessions), id)
  {
    var i :| 0 <= i < |queue| && queue[i] == id;
    RetainedAt(queue, i);
    CutInSync(queue, sessions, i);
    ViewCut(queue, sessions, i);
    forall j | 0 <= j < |queue| && j != i ensures View(queue, sessions)[j].id != View(queue, sessions)[i].id {
      assert queue[i] != queue[j];
    }
    hide Retained, InSync, View;
    DroppedAt(View(queue, sessions), i);
  }

  lemma ViewCut(queue: seq<string>, sessions: map<string, Entry>, i: nat)
    requires InSync(queue, sessions) && i < |queue|
    ensures InSync(queue[..i] + queue[i + 1..], sessions - {queue[i]})
    ensures var v := View(queue, sessions);
            v[i].id == queue[i] && View(queue[..i] + queue[i + 1..], sessions - {queue[i]}) == v[..i] + v[i + 1..]
  {
  }

  lemma BoundInView(queue: seq<string>, sessions: map<string, Entry>, id: string, thread: string)
    requires InSync(queue, sessions) && id in sessions
    ensures InSync(queue, sessions[id := Entry(thread, None)])
    ensures View(queue, sessions[id := Entry(thread, None)]) == Bound(View(queue, sessions), id, thread)
  {
  }

  lemma EffortInView(queue: seq<string>, sessions: map<string, Entry>, id: string, effort: Effort)
    requires InSync(queue, sessions) && id in sessions
    ensures var e := sessions[id].(effort := Some(effort));
            && InSync(queue, sessions[id := e])
            && View(queue, sessions[id := e]) == WithEffort(View(queue, sessions), id, effort)
  {
  }

  lemma {:induction false} LookupAt(live: seq<Session>, i: nat)
    requires i < |live| && forall j | 0 <= j < i :: live[j].id != live[i].id
    ensures Lookup(live, live[i].id) == Some(live[i])
  {
    if i > 0 {
      LookupAt(live[1..], i - 1);
    }
  }

  lemma LookupInView(queue: seq<string>, sessions: map<string, Entry>, id: string)
    requires InSync(queue, sessions)
    ensures Lookup(View(queue, sessions), id) == if id in sessions then Some(Named(id, sessions[id])) else None
  {
    if id in sessions {
      var i :| 0 <= i < |queue| && queue[i] == id;
      LookupAt(View(queue, sessions), i);
    } else {
      HasWhenInMap(queue, sessions, id);
      NotThere(View(queue, sessions), id);
    }
  }

  // ----- the object -----------------------------------------------------

  /** The ghost fields record the numbers callers hold and the two logs. */
  class AgentState {
    var sessions: map<string, Entry>
    var evictionQueue: seq<string>
    var counter: nat
    ghost var minted: set<nat>
    ghost var issued: seq<string>
    ghost var bound: seq<string>

    ghost function Model(): State
      reads this
      requires InSync(evictionQueue, sessions)
    {
      State(counter, minted, View(evictionQueue, sessions), issued, bound)
    }

    ghost predicate Valid()
      reads this
    {
      InSync(evictionQueue, sessions) && Inv(Model())
    }

    constructor ()
      ensures Valid() && Model() == Initial
    {
      sessions, evictionQueue, counter := map[], [], 0;
      minted, issued, bound := {}, [], [];
      new;
      RunKeeps([]);
    }

    /** Draws a number, outside the lock. */
    method NextId() returns (unique: nat)
      requires Valid()
      modifies this
      ensures Valid() && Model() == Do(old(Model()), Mint)
      ensures unique == old(counter) && unique in minted
    {
      StepKeeps(Model(), Mint);
      unique := counter;
      counter := counter + 1;
      minted := minted + {unique};
    }

    /** The locked part of creating a session, with a number drawn before. */
    method Insert(unique: nat) returns (id: string)
      requires Valid() && unique in minted
      modifies this
      ensures Valid() && Model() == Do(old(Model()), Step.Insert(unique))
      ensures id == SessionName(unique) && id !in old(issued) && issued == old(issued) + [id]
    {
      hide View, Lookup, SessionName, ThreadName, Pushed, InSync, Distinct;
      StepKeeps(Model(), Step.Insert(unique));
      FreshId(Model(), unique);
      hide Inv;
      id := SessionName(unique);
      HasWhenInMap(evictionQueue, sessions, id);
      InsertInView(evictionQueue, sessions, id, Entry(ThreadName(unique), None));
      if |sessions| >= MAX_SESSIONS && |evictionQueue| > 0 {
        var oldest := evictionQueue[0];
        evictionQueue := evictionQueue[1..];
        sessions := sessions - {oldest};
      }
      sessions := sessions[id := Entry(ThreadName(unique), None)];
      evictionQueue := evictionQueue + [id];
      minted, issued, bound := minted - {unique}, issued + [id], bound + [ThreadName(unique)];
    }

    method NewSession() returns (id: string)
      requires Valid()
      modifies this
      ensures Valid() && Model() == Do(Do(old(Model()), Mint), Step.Insert(old(counter)))
      ensures id !in old(issued) && issued == old(issued) + [id]
    {
      var unique := NextId();
      id := Insert(unique);
    }

    method RemoveSession(id: string)
      requires Valid()
      modifies this
      ensures Valid() && Model() == Do(old(Model()), Remove(id))
    {
      StepKeeps(Model(), Remove(id));
      HasWhenInMap(evictionQueue, sessions, id);
      if id in sessions {
        RemoveInView(evictionQueue, sessions, id);
        hide Inv, View, Dropped, Retained;
        sessions := sessions - {id};
        evictionQueue := Retained(evictionQueue, id);
      } else {
        NotThere(Model().live, id);
      }
    }

    method ThreadForSession(id: string) returns (thread: Option<string>)
      requires Valid()
      ensures thread == match Lookup(Model().live, id) case None => None case Some(s) => Some(s.thread)
    {
      LookupInView(evictionQueue, sessions, id);
      thread := if id in sessions then Some(sessions[id].thread) else None;
    }

    method SessionEffort(id: string) returns (effort: Option<Effort>)
      requires Valid()
      ensures effort == match Lookup(Model().live, id) case None => None case Some(s) => s.effort
    {
      LookupInView(evictionQueue, sessions, id);
      effort := if id in sessions then sessions[id].effort else None;
    }

    method SetSessionEffort(id: string, effort: Effort)
      requires Valid()
      modifies this
      ensures Valid() && Model() == Do(old(Model()), SetEffort(id, effort))
    {
      StepKeeps(Model(), SetEffort(id, effort));
      HasWhenInMap(evictionQueue, sessions, id);
      if id in sessions {
        var e := sessions[id].(effort := Some(effort));
        EffortInView(evictionQueue, sessions, id, effort);
        hide Inv, View, WithEffort;
        sessions := sessions[id := e];
      } else {
        NotThere(Model().live, id);
      }
    }

    /** The new number is drawn inside the lock. */
    method RebindSession(id: string) returns (thread: Option<string>)
      requires Valid()
      modifies this
      ensures Valid() && Model() == Do(old(Model()), Rebind(id))
      ensures thread.Some? <==> Has(old(Model().live), id)
      ensures thread.Some? ==> thread.value !in old(bound) && bound == old(bound) + [thread.value]
    {
      StepKeeps(Model(), Rebind(id));
      HasWhenInMap(evictionQueue, sessions, id);
      if id !in sessions {
        return None;
      }
      NotLogged("thread:acp/", bound, counter, minted, counter);
      var e := Entry(ThreadName(counter), None);
      BoundInView(evictionQueue, sessions, id, e.thread);
      hide Inv, ThreadName, View, Bound;
      counter := counter + 1;
      sessions := sessions[id := e];
      bound := bound + [e.thread];
      thread := Some(e.thread);
    }
  }
}
