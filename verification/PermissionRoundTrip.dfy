/** The permission round trip: the engine's registry and actor, the turn that
    waits, the client that answers, and the bridge that races the answer against
    a session abort. One thread, any number of requests, every interleaving. */
module PermissionRoundTrip {
  import opened Wrappers
  import B = Broadcast
  import opened P = PermissionRegistry

  const EVENT_CHANNEL_CAP: nat := 1024

  /** What the engine broadcasts, as far as one thread is concerned. */
  datatype Event = Requested(key: nat) | Aborted | OtherEvent

  /** The turn that awaits the outcome of a request. */
  datatype Waiter = Waiting | Got(outcome: Outcome) | Left

  datatype Flow = Resumed | FlowCancelled

  /** The client's reply to the reverse request. */
  datatype Answer = Answered(outcome: Outcome) | RequestFailed

  /** `handle_permission` for one request, subscribed since `from`. History: `heard`
      is the client's reply, if it had come when the race was decided, and `decided`
      how many events had been broadcast by then. */
  datatype Bridge =
    | Racing(from: nat, cursor: nat, answer: Option<Answer>)
    | Submitted(outcome: Outcome, flow: Flow, heard: Option<Answer>, from: nat, decided: nat)   // awaiting the reply
    | Returned(outcome: Outcome, flow: Flow, heard: Option<Answer>, from: nat, decided: nat)

  datatype Submission = Resume(key: nat, outcome: Outcome) | CancelTurn

  datatype State = State(
    pending: set<nat>,               // keys in the table
    held: set<nat>,                  // keys whose senders `cancel_all` drained
    cancelling: bool,                // the actor is inside `cancel_turn`
    waiters: map<nat, Waiter>,
    bridges: map<nat, Bridge>,
    queue: seq<Submission>,
    events: seq<Event>)

  const Start := State({}, {}, false, map[], map[], [], [])

  datatype Step =
    // the turn
    | Enrol(key: nat)
    | PublishRequest(key: nat)
    | Leave(key: nat)                // timeout or cancellation of the wait
    // the engine actor
    | TakeResume
    | TakeCancel(active: bool)
    | TellCancelled(key: nat)
    | EmitAborted(ours: bool)        // the cancelled turn may be another thread's
    // the client
    | Reply(key: nat, answer: Answer)
    | RequestCancel
    // the bridge
    | Open(key: nat)                 // subscribe, then send the request
    | PollAbort(key: nat)            // one receive of the abort arm
    | TakeAnswer(key: nat)           // the answer arm, polled when the abort arm has nothing left
    | Publish                        // any other event of the engine

  predicate Enabled(s: State, step: Step) {
    match step
    case Enrol(k) => k !in s.waiters
    case PublishRequest(k) => k in s.waiters && Requested(k) !in s.events
    case Leave(k) => k in s.waiters && s.waiters[k] == Waiting
    case TakeResume => !s.cancelling && s.queue != [] && s.queue[0].Resume?
    case TakeCancel(_) => !s.cancelling && s.queue != [] && s.queue[0].CancelTurn?
    case TellCancelled(k) => s.cancelling && k in s.held
    case EmitAborted(_) => s.cancelling && s.held == {}
    case Reply(k, _) => k in s.bridges && s.bridges[k].Racing? && s.bridges[k].answer.None?
    case RequestCancel => true
    case Open(k) => k !in s.bridges && k in s.waiters && Requested(k) in s.events
    case PollAbort(k) => k in s.bridges && s.bridges[k].Racing? && s.bridges[k].cursor < |s.events|
    case TakeAnswer(k) =>
      k in s.bridges && s.bridges[k].Racing? && s.bridges[k].answer.Some? && s.bridges[k].cursor == |s.events|
    case Publish => true
  }

  function Tell(w: Waiter, o: Outcome): Waiter {
    if w == Waiting then Got(o) else w
  }

  function Return(b: Bridge): Bridge
    requires b.Submitted?
  {
    Returned(b.outcome, b.flow, b.heard, b.from, b.decided)
  }

  /** The actor resolves the request and replies to the bridge. */
  function Resolve(s: State, k: nat, o: Outcome): State {
    s.(pending := s.pending - {k},
       waiters := if k in s.pending && k in s.waiters then s.waiters[k := Tell(s.waiters[k], o)] else s.waiters,
       bridges := if k in s.bridges && s.bridges[k].Submitted?
                  then s.bridges[k := Return(s.bridges[k])]
                  else s.bridges)
  }

  function Submit(s: State, k: nat, o: Outcome, flow: Flow): State
    requires k in s.bridges && s.bridges[k].Racing?
  {
    var b := s.bridges[k];
    s.(bridges := s.bridges[k := Submitted(o, flow, b.answer, b.from, |s.events|)], queue := s.queue + [Resume(k, o)])
  }

  function OutcomeOf(a: Answer): Outcome {
    match a
    case Answered(o) => o
    case RequestFailed => Cancelled
  }

  function Apply(s: State, step: Step): State
    requires Enabled(s, step)
  {
    match step
    case Enrol(k) => s.(pending := s.pending + {k}, waiters := s.waiters[k := Waiting])
    case PublishRequest(k) => s.(events := s.events + [Requested(k)])
    case Leave(k) => s.(waiters := s.waiters[k := Left])
    case TakeResume => Resolve(s, s.queue[0].key, s.queue[0].outcome).(queue := s.queue[1..])
    case TakeCancel(active) =>
      if active then s.(queue := s.queue[1..], cancelling := true, held := s.pending, pending := {})
      else s.(queue := s.queue[1..])
    case TellCancelled(k) =>
      s.(held := s.held - {k},
         waiters := if k in s.waiters then s.waiters[k := Tell(s.waiters[k], Cancelled)] else s.waiters)
    case EmitAborted(ours) => s.(events := s.events + [if ours then Aborted else OtherEvent], cancelling := false)
    case Reply(k, a) => s.(bridges := s.bridges[k := s.bridges[k].(answer := Some(a))])
    case RequestCancel => s.(queue := s.queue + [CancelTurn])
    case Open(k) => s.(bridges := s.bridges[k := Racing(|s.events|, |s.events|, None)])
    case PollAbort(k) =>
      var received := B.Receive(s.events, EVENT_CHANNEL_CAP, false, s.bridges[k].cursor);
      if received == B.Item(Aborted) then Submit(s, k, Cancelled, FlowCancelled)
      else s.(bridges := s.bridges[k := s.bridges[k].(cursor := B.Advance(s.bridges[k].cursor, received))])
    case TakeAnswer(k) => Submit(s, k, OutcomeOf(s.bridges[k].answer.value), Resumed)
    case Publish => s.(events := s.events + [OtherEvent])
  }

  ghost predicate Leads(s: State, steps: seq<Step>, t: State)
    decreases |steps|
  {
    if steps == [] then s == t
    else
      var last := steps[|steps| - 1];
      exists mid :: Leads(s, steps[..|steps| - 1], mid) && Enabled(mid, last) && t == Apply(mid, last)
  }

  ghost predicate Reachable(s: State) {
    exists steps :: Leads(Start, steps, s)
  }

  // ----- the invariant --------------------------------------------------

  /** A sender is in the table or drained exactly as long as it is unused. */
  ghost predicate WaitersInv(s: State) {
    && s.pending <= s.waiters.Keys && s.held <= s.waiters.Keys && s.bridges.Keys <= s.waiters.Keys
    && s.pending !! s.held
    && (s.held != {} ==> s.cancelling)
    && (forall k | k in s.waiters && (k in s.pending || k in s.held) :: !s.waiters[k].Got?)
    && (forall k | k in s.waiters && s.waiters[k] == Waiting :: k in s.pending || k in s.held)
  }

  /** How many resumptions of a request are queued. */
  function Resumptions(queue: seq<Submission>, k: nat): nat {
    if queue == [] then 0
    else (if queue[0].Resume? && queue[0].key == k then 1 else 0) + Resumptions(queue[1..], k)
  }

  lemma {:induction false} ResumptionsAppend(queue: seq<Submission>, x: Submission, k: nat)
    ensures Resumptions(queue + [x], k) == Resumptions(queue, k) + (if x.Resume? && x.key == k then 1 else 0)
  {
    if queue != [] {
      assert (queue + [x])[1..] == queue[1..] + [x];
      ResumptionsAppend(queue[1..], x, k);
    }
  }

  ghost predicate QueueInv(s: State) {
    && (forall k: nat :: Resumptions(s.queue, k) == if k in s.bridges && s.bridges[k].Submitted? then 1 else 0)
    && (forall i | 0 <= i < |s.queue| && s.queue[i].Resume? ::
          && s.queue[i].key in s.bridges
          && s.bridges[s.queue[i].key].Submitted?
          && s.bridges[s.queue[i].key].outcome == s.queue[i].outcome)
  }

  /** What the bridge submits: a cancellation when the abort arm won, else what
      the client answered, a failed request counting as a cancellation. */
  predicate Submits(b: Bridge)
    requires !b.Racing?
  {
    if b.flow.FlowCancelled? then b.outcome == Cancelled
    else if b.heard == Some(RequestFailed) then b.outcome == Cancelled
    else b.heard == Some(Answered(b.outcome))
  }

  /** Some abort is still ahead of a subscriber and inside its window. */
  predicate AbortVisible(events: seq<Event>, cursor: nat) {
    exists i | 0 <= i < |events| :: cursor <= i && |events| <= i + EVENT_CHANNEL_CAP && events[i] == Aborted
  }

  /** A bridge that races has seen or irrecoverably missed the events before its
      cursor; one that is done was cancelled exactly if an abort was visible to its
      subscription when the race was decided. */
  ghost predicate Decided(b: Bridge, events: seq<Event>) {
    if b.Racing? then
      && b.from <= b.cursor <= |events|
      && forall i | b.from <= i < b.cursor && events[i] == Aborted :: i + EVENT_CHANNEL_CAP < |events|
    else
      b.from <= b.decided <= |events| && (b.flow.FlowCancelled? <==> AbortVisible(events[..b.decided], b.from))
  }

  ghost predicate DecisionInv(s: State) {
    forall k | k in s.bridges :: Decided(s.bridges[k], s.events)
  }

  /** The race is where it was. */
  predicate SameRace(b: Bridge, c: Bridge) {
    if b.Racing? then c.Racing? && c.from == b.from && c.cursor == b.cursor
    else !c.Racing? && c.from == b.from && c.decided == b.decided && c.flow == b.flow
  }

  lemma DecidedOn(b: Bridge, c: Bridge, events: seq<Event>, more: seq<Event>)
    requires Decided(b, events) && events <= more && SameRace(b, c)
    ensures Decided(c, more)
  {
    if !b.Racing? {
      assert more[..b.decided] == events[..b.decided];
    }
  }

  /** Only two steps of its own bridge move a race. */
  lemma RacesStay(s: State, step: Step, k: nat)
    requires Enabled(s, step) && k in s.bridges && step != PollAbort(k) && step != TakeAnswer(k)
    ensures s.events <= Apply(s, step).events && k in Apply(s, step).bridges
    ensures SameRace(s.bridges[k], Apply(s, step).bridges[k])
  {
  }

  lemma RaceOpens(s: State, step: Step, k: nat)
    requires Enabled(s, step) && k !in s.bridges && k in Apply(s, step).bridges
    ensures Decided(Apply(s, step).bridges[k], Apply(s, step).events)
  {
  }

  lemma PollDecides(s: State, k: nat)
    requires DecisionInv(s) && Enabled(s, PollAbort(k))
    ensures Apply(s, PollAbort(k)).events == s.events && Decided(Apply(s, PollAbort(k)).bridges[k], s.events)
  {
    assert Decided(s.bridges[k], s.events);
    assert s.events[..|s.events|] == s.events;
  }

  lemma AnswerDecides(s: State, k: nat)
    requires DecisionInv(s) && Enabled(s, TakeAnswer(k))
    ensures Apply(s, TakeAnswer(k)).events == s.events && Decided(Apply(s, TakeAnswer(k)).bridges[k], s.events)
  {
    assert Decided(s.bridges[k], s.events);
    assert s.events[..|s.events|] == s.events;
  }

  lemma DecisionStep(s: State, step: Step)
    requires DecisionInv(s) && Enabled(s, step)
    ensures DecisionInv(Apply(s, step))
  {
    var t := Apply(s, step);
    forall k | k in t.bridges ensures Decided(t.bridges[k], t.events) {
      if k !in s.bridges {
        RaceOpens(s, step, k);
      } else if step == PollAbort(k) {
        PollDecides(s, k);
      } else if step == TakeAnswer(k) {
        AnswerDecides(s, k);
      } else {
        assert Decided(s.bridges[k], s.events);
        RacesStay(s, step, k);
        hide *;
        DecidedOn(s.bridges[k], t.bridges[k], s.events, t.events);
      }
    }
  }

  ghost predicate FlowInv(s: State) {
    && (forall k | k in s.bridges && !s.bridges[k].Racing? :: Submits(s.bridges[k]))
    && (forall k | k in s.bridges && s.bridges[k].Returned? :: k !in s.pending)
  }

  /** What a waiter can have got. */
  ghost predicate GotInv(s: State) {
    forall k | k in s.waiters && s.waiters[k].Got? ::
      s.waiters[k].outcome == Cancelled
      || (k in s.bridges && s.bridges[k].Returned? && s.bridges[k].outcome == s.waiters[k].outcome)
  }

  ghost predicate Inv(s: State) {
    WaitersInv(s) && QueueInv(s) && FlowInv(s) && GotInv(s) && DecisionInv(s)
  }

  lemma WaitersStep(s: State, step: Step)
    requires Inv(s) && Enabled(s, step)
    ensures WaitersInv(Apply(s, step))
  {
  }

  lemma FlowStep(s: State, step: Step)
    requires Inv(s) && Enabled(s, step)
    ensures FlowInv(Apply(s, step))
  {
    hide GotInv;
  }

  lemma GotStep(s: State, step: Step)
    requires Inv(s) && Enabled(s, step)
    ensures GotInv(Apply(s, step))
  {
    hide FlowInv;
  }

  lemma QueueGrows(s: State, step: Step, x: Submission)
    requires QueueInv(s) && Enabled(s, step) && Apply(s, step).queue == s.queue + [x]
    ensures QueueInv(Apply(s, step))
  {
    var t := Apply(s, step);
    assert t.queue[|s.queue|] == x;
    forall k: nat ensures Resumptions(t.queue, k) == if k in t.bridges && t.bridges[k].Submitted? then 1 else 0 {
      ResumptionsAppend(s.queue, x, k);
      assert Resumptions(s.queue, k) == if k in s.bridges && s.bridges[k].Submitted? then 1 else 0;
    }
  }

  lemma QueueStep(s: State, step: Step)
    requires QueueInv(s) && Enabled(s, step)
    ensures QueueInv(Apply(s, step))
  {
    var t := Apply(s, step);
    if |t.queue| == |s.queue| + 1 {
      QueueGrows(s, step, t.queue[|s.queue|]);
    } else if step.TakeResume? {
      var k := s.queue[0].key;
      forall i | 0 <= i < |t.queue| && t.queue[i].Resume? ensures t.queue[i].key != k {
        ResumptionsAt(t.queue, i);
      }
    }
  }

  lemma {:induction false} ResumptionsAt(queue: seq<Submission>, i: nat)
    requires i < |queue| && queue[i].Resume?
    ensures Resumptions(queue, queue[i].key) > 0
  {
    if i > 0 {
      ResumptionsAt(queue[1..], i - 1);
    }
  }

  lemma {:induction false} RunInv(s: State, steps: seq<Step>, t: State)
    requires Inv(s) && Leads(s, steps, t)
    ensures Inv(t)
    decreases |steps|
  {
    if steps != [] {
      var front, last := steps[..|steps| - 1], steps[|steps| - 1];
      var mid :| Leads(s, front, mid) && Enabled(mid, last) && t == Apply(mid, last);
      RunInv(s, front, mid);
      WaitersStep(mid, last);
      QueueStep(mid, last);
      FlowStep(mid, last);
      GotStep(mid, last);
      DecisionStep(mid, last);
      hide Enabled, Apply, WaitersInv, QueueInv, FlowInv, GotInv, DecisionInv;
    }
  }

  lemma ReachableInv(s: State)
    requires Reachable(s)
    ensures Inv(s)
  {
    assert Inv(Start);
    var steps :| Leads(Start, steps, s);
    RunInv(Start, steps, s);
  }

  // ----- theorems -------------------------------------------------------

  /** When `handle_permission` returns, its key is out of the table; the waiter,
      if it got anything, got the outcome submitted or a cancellation; if the
      abort arm won it got a cancellation; and anything but a cancellation is
      what the client answered. */
  lemma ReturnedReleasesTheRequest(s: State, k: nat)
    requires Reachable(s) && k in s.bridges && s.bridges[k].Returned?
    ensures k !in s.pending && k in s.waiters
    ensures s.waiters[k].Got? ==> s.waiters[k].outcome in {Cancelled, s.bridges[k].outcome}
    ensures s.waiters[k].Got? && s.bridges[k].flow == FlowCancelled ==> s.waiters[k].outcome == Cancelled
    ensures s.waiters[k].Got? && s.waiters[k].outcome != Cancelled ==>
              s.bridges[k].heard == Some(Answered(s.waiters[k].outcome))
  {
    ReachableInv(s);
  }

  /** `handle_permission` comes back as cancelled if and only if an abort was visible
      to its subscription when the race was decided, however the client answered;
      otherwise the client's reply had come, and its outcome is what was submitted. */
  lemma CancelledIffAbortWon(s: State, k: nat)
    requires Reachable(s) && k in s.bridges && !s.bridges[k].Racing?
    ensures var b := s.bridges[k];
            && b.from <= b.decided <= |s.events|
            && (b.flow == FlowCancelled <==>
                  exists i :: b.from <= i < b.decided <= i + 1024 && s.events[i] == Aborted)
            && (b.flow == FlowCancelled ==> b.outcome == Cancelled)
            && (b.flow == Resumed ==> b.heard.Some? && b.outcome == OutcomeOf(b.heard.value))
  {
    ReachableInv(s);
    var b := s.bridges[k];
    assert Decided(b, s.events) && Submits(b);
    assert forall i | 0 <= i < b.decided :: s.events[..b.decided][i] == s.events[i];
  }

  /** Submissions are taken one at a time and in order: the actor takes the first
      off the queue, and nobody else does more than put one at its end. */
  lemma SubmissionsInOrder(s: State, step: Step)
    requires Enabled(s, step)
    ensures var t := Apply(s, step);
            if step.TakeResume? || step.TakeCancel? then s.queue != [] && t.queue == s.queue[1..]
            else s.queue <= t.queue && |t.queue| <= |s.queue| + 1
  {
  }

  /** The actor is done with a cancellation before it takes the next submission. */
  lemma CancellationIsFinishedFirst(s: State, step: Step)
    requires s.cancelling && Enabled(s, step)
    ensures s.queue <= Apply(s, step).queue
    ensures Apply(s, step).cancelling || s.held == {}
  {
  }

  /** The client's reply as the bridge has it. */
  function Heard(b: Bridge): Option<Answer> {
    if b.Racing? then b.answer else b.heard
  }

  predicate HasHeard(s: State, k: nat, a: Answer) {
    k in s.bridges && Heard(s.bridges[k]) == Some(a)
  }

  lemma HeardStep(s: State, step: Step, k: nat, a: Answer)
    requires Enabled(s, step)
    ensures HasHeard(Apply(s, step), k, a) <==> HasHeard(s, k, a) || step == Reply(k, a)
  {
  }

  /** The bridge takes for the client's reply exactly what the client replied. */
  lemma {:induction false} HeardFromTheClient(steps: seq<Step>, s: State, k: nat, a: Answer)
    requires Leads(Start, steps, s)
    ensures HasHeard(s, k, a) <==> Reply(k, a) in steps
    decreases |steps|
  {
    if steps != [] {
      var front, last := steps[..|steps| - 1], steps[|steps| - 1];
      var mid :| Leads(Start, front, mid) && Enabled(mid, last) && s == Apply(mid, last);
      assert steps == front + [last];
      HeardStep(mid, last, k, a);
      hide *;
      HeardFromTheClient(front, mid, k, a);
    }
  }

  /** The events a run broadcasts, step by step. */
  function Broadcasts(steps: seq<Step>): seq<Event> {
    if steps == [] then []
    else
      Broadcasts(steps[..|steps| - 1]) +
      (match steps[|steps| - 1]
       case PublishRequest(k) => [Requested(k)]
       case EmitAborted(ours) => if ours then [Aborted] else [OtherEvent]
       case Publish => [OtherEvent]
       case _ => [])
  }

  lemma BroadcastStep(s: State, step: Step, steps: seq<Step>)
    requires Enabled(s, step) && s.events == Broadcasts(steps)
    ensures Apply(s, step).events == Broadcasts(steps + [step])
  {
    assert (steps + [step])[..|steps|] == steps;
  }

  /** The request was broadcast before its bridge subscribed. */
  predicate RequestFirst(s: State, k: nat)
    requires k in s.bridges
  {
    s.bridges[k].from <= |s.events| && Requested(k) in s.events[..s.bridges[k].from]
  }

  /** Every request and every cancellation of the thread is broadcast, once and in
      order; a bridge subscribes only after its request has been. */
  lemma {:induction false} EventsOfRun(steps: seq<Step>, s: State)
    requires Leads(Start, steps, s)
    ensures s.events == Broadcasts(steps)
    ensures forall k | k in s.bridges :: RequestFirst(s, k)
    decreases |steps|
  {
    if steps != [] {
      var front, last := steps[..|steps| - 1], steps[|steps| - 1];
      var mid :| Leads(Start, front, mid) && Enabled(mid, last) && s == Apply(mid, last);
      EventsOfRun(front, mid);
      assert steps == front + [last];
      BroadcastStep(mid, last, front);
      SubscribedAfter(mid, last);
      hide *;
    }
  }

  lemma SubscribedAfter(s: State, step: Step)
    requires Enabled(s, step)
    requires forall k | k in s.bridges :: RequestFirst(s, k)
    ensures var t := Apply(s, step);
            forall k | k in t.bridges :: RequestFirst(t, k)
  {
    var t := Apply(s, step);
    assert s.events[..|s.events|] == s.events;
    forall k | k in t.bridges ensures RequestFirst(t, k) {
      if k in s.bridges {
        assert RequestFirst(s, k);
        FromStays(s, step, k);
        assert t.events[..t.bridges[k].from] == s.events[..s.bridges[k].from];
      }
    }
  }

  lemma FromStays(s: State, step: Step, k: nat)
    requires Enabled(s, step) && k in s.bridges
    ensures s.events <= Apply(s, step).events
    ensures k in Apply(s, step).bridges && Apply(s, step).bridges[k].from == s.bridges[k].from
  {
  }

  /** A waiter still there when the bridge has returned and the actor is idle has
      got exactly one outcome. */
  lemma NobodyIsLeftWaiting(s: State, k: nat)
    requires Reachable(s) && k in s.bridges && s.bridges[k].Returned? && !s.cancelling
    ensures k in s.waiters && s.waiters[k] != Waiting
  {
    ReachableInv(s);
  }

  /** Neither an answer nor a cancellation that comes later replaces it. */
  lemma OutcomeStep(s: State, step: Step, k: nat)
    requires Enabled(s, step) && k in s.waiters && s.waiters[k].Got?
    ensures k in Apply(s, step).waiters && Apply(s, step).waiters[k] == s.waiters[k]
  {
  }

  lemma {:induction false} OutcomeIsFinal(s: State, steps: seq<Step>, t: State, k: nat)
    requires Leads(s, steps, t) && k in s.waiters && s.waiters[k].Got?
    ensures k in t.waiters && t.waiters[k] == s.waiters[k]
    decreases |steps|
  {
    if steps != [] {
      var front, last := steps[..|steps| - 1], steps[|steps| - 1];
      var mid :| Leads(s, front, mid) && Enabled(mid, last) && t == Apply(mid, last);
      OutcomeIsFinal(s, front, mid, k);
      OutcomeStep(mid, last, k);
      hide Enabled, Apply;
    }
  }

  // ----- the abort arm --------------------------------------------------

  /** `wait_for_session_abort` up to the point where it has to wait for more
      events: it returns exactly when an abort is visible to its subscription. */
  method WaitForSessionAbort(events: seq<Event>, from: nat) returns (aborted: bool, cursor: nat)
    requires from <= |events|
    ensures aborted <==> AbortVisible(events, from)
    ensures !aborted ==> cursor == |events|
  {
    cursor := from;
    while cursor < |events|
      invariant from <= cursor <= |events|
      invariant forall i | from <= i < cursor && |events| <= i + EVENT_CHANNEL_CAP :: events[i] != Aborted
    {
      var received := B.Receive(events, EVENT_CHANNEL_CAP, false, cursor);
      if received == B.Item(Aborted) {
        return true, cursor;
      }
      cursor := B.Advance(cursor, received);
    }
    aborted := false;
  }

  /** The bridge has no answer and no abort left to see. */
  ghost predicate Blind(s: State, k: nat) {
    && k in s.bridges && s.bridges[k].Racing? && s.bridges[k].answer.None?
    && s.bridges[k].cursor <= |s.events|
    && !AbortVisible(s.events, s.bridges[k].cursor)
  }

  lemma {:induction false} LeadsFirst(s: State, step: Step, mid: State, steps: seq<Step>, t: State)
    requires Enabled(s, step) && mid == Apply(s, step) && Leads(mid, steps, t)
    ensures Leads(s, [step] + steps, t)
    decreases |steps|
  {
    hide Enabled, Apply;
    var all := [step] + steps;
    if steps == [] {
      assert all[..|all| - 1] == [] && all[|all| - 1] == step;
      assert Leads(s, [], s);
    } else {
      var front, last := steps[..|steps| - 1], steps[|steps| - 1];
      var m :| Leads(mid, front, m) && Enabled(m, last) && t == Apply(m, last);
      LeadsFirst(s, step, mid, front, m);
      assert all[..|all| - 1] == [step] + front && all[|all| - 1] == last;
    }
  }

  /** What the abort arm can see it does see: polling alone makes it win. */
  lemma {:induction false} VisibleAbortWins(s: State, k: nat) returns (steps: seq<Step>, t: State)
    requires k in s.bridges && s.bridges[k].Racing? && s.bridges[k].cursor <= |s.events|
    requires AbortVisible(s.events, s.bridges[k].cursor)
    ensures Leads(s, steps, t) && forall step | step in steps :: step == PollAbort(k)
    ensures k in t.bridges && t.bridges[k].Submitted?
    ensures t.bridges[k].outcome == Cancelled && t.bridges[k].flow == FlowCancelled
    decreases |s.events| - s.bridges[k].cursor
  {
    var mid := Apply(s, PollAbort(k));
    if mid.bridges[k].Submitted? {
      steps, t := [], mid;
      assert Leads(mid, [], mid);
    } else {
      assert mid.events == s.events;
      steps, t := VisibleAbortWins(mid, k);
    }
    LeadsFirst(s, PollAbort(k), mid, steps, t);
    steps := [PollAbort(k)] + steps;
  }

  lemma BlindStep(s: State, step: Step, k: nat)
    requires Blind(s, k) && Enabled(s, step)
    requires !(step.Reply? && step.key == k) && step != EmitAborted(true)
    ensures Blind(Apply(s, step), k)
  {
  }

  /** What the abort arm cannot see it never will: until the client answers or
      the thread is aborted again, the bridge goes on waiting whatever happens. */
  lemma {:induction false} BlindUntilAnswered(s: State, steps: seq<Step>, t: State, k: nat)
    requires Blind(s, k) && Leads(s, steps, t)
    requires forall step | step in steps :: !(step.Reply? && step.key == k) && step != EmitAborted(true)
    ensures Blind(t, k)
    decreases |steps|
  {
    if steps != [] {
      var front, last := steps[..|steps| - 1], steps[|steps| - 1];
      var mid :| Leads(s, front, mid) && Enabled(mid, last) && t == Apply(mid, last);
      BlindUntilAnswered(s, front, mid, k);
      BlindStep(mid, last, k);
    }
  }

  lemma Go(s: State, step: Step) returns (t: State)
    requires Reachable(s) && Enabled(s, step)
    ensures t == Apply(s, step) && Reachable(t)
  {
    t := Apply(s, step);
    var steps :| Leads(Start, steps, s);
    var more := steps + [step];
    assert more[..|more| - 1] == steps && more[|more| - 1] == step;
    assert Leads(Start, more, t);
  }

  /** The abort can be missed: it was broadcast after the request but before the
      bridge, still on its way to the request, subscribed. The waiter has its
      cancellation, the key is gone, and the bridge waits for the client. */
  lemma AnAbortCanBeMissed() returns (s: State)
    ensures Reachable(s) && Blind(s, 0) && Aborted in s.events
    ensures s.pending == {} && 0 in s.waiters && s.waiters[0] == Got(Cancelled)
  {
    assert Leads(Start, [], Start);
    s := Go(Start, Enrol(0));
    s := Go(s, PublishRequest(0));
    s := Go(s, RequestCancel);
    s := Go(s, TakeCancel(true));
    s := Go(s, TellCancelled(0));
    s := Go(s, EmitAborted(true));
    assert s.events == [Requested(0), Aborted];
    s := Go(s, Open(0));
  }
}
