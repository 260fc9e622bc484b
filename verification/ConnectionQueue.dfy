/** What is on the outbound queue of a connection: every call's request, once, and
    every notification, in order. */
module ConnectionQueue {
  import opened Messages
  import opened Connection
  import opened CallOutcomes
  import opened ConnectionInvariant
  import Decimal
  import C = Calls
  import R = Reverse

  // ----- requests -------------------------------------------------------

  /** How many of the messages are the request of call `n`. */
  function Requests(messages: seq<Outbound>, n: nat): nat {
    if messages == [] then 0
    else
      var last := messages[|messages| - 1];
      Requests(messages[..|messages| - 1], n) + (if last.CallMessage? && last.call == n then 1 else 0)
  }

  lemma RequestsSnoc(messages: seq<Outbound>, m: Outbound, n: nat)
    ensures Requests(messages + [m], n) == Requests(messages, n) + (if m.CallMessage? && m.call == n then 1 else 0)
  {
    assert (messages + [m])[..|messages|] == messages;
  }

  /** How often the request of a call that stands at `pc` has been queued: never
      before it got room, once when the caller awaits or has got an answer. */
  predicate QueuedAt(pc: C.CallPc, count: nat) {
    match pc
    case Minted => count == 0
    case Registered => count == 0
    case Waiting => count == 1
    case Returned(result) => count == if result == IoError then 0 else 1
    case Dropped => count <= 1
  }

  ghost predicate CountsInv(calls: seq<C.Call>, accepted: seq<Outbound>) {
    forall n: nat ::
      if n < |calls| then QueuedAt(calls[n].pc, Requests(accepted, n)) else Requests(accepted, n) == 0
  }

  ghost predicate NamesInv(calls: seq<C.Call>, accepted: seq<Outbound>) {
    forall i | 0 <= i < |accepted| && accepted[i].CallMessage? ::
      accepted[i].call < |calls| && accepted[i].id == calls[accepted[i].call].id
  }

  ghost predicate QueuedInv(s: State) {
    CountsInv(s.calls.calls, s.channel.accepted) && NamesInv(s.calls.calls, s.channel.accepted)
  }

  lemma QueuedCarries(s: State, t: State, m: Outbound)
    requires QueuedInv(s) && CallsStay(s.calls.calls, t.calls.calls) && !m.CallMessage?
    requires t.channel.accepted == s.channel.accepted || t.channel.accepted == s.channel.accepted + [m]
    ensures QueuedInv(t)
  {
    hide Requests, QueuedAt;
    forall n: nat ensures Requests(t.channel.accepted, n) == Requests(s.channel.accepted, n) {
      RequestsSnoc(s.channel.accepted, m, n);
    }
  }

  /** The reader and the handler tasks queue nothing but replies. */
  lemma ReaderAccepts(s: State, step: ReaderStep) returns (m: Outbound)
    requires ReaderEnabled(s, step)
    ensures m.Reply?
    ensures var before, after := s.channel.accepted, ReaderApply(s, step).channel.accepted;
            after == before || after == before + [m]
  {
    hide R.Clashes;
    m := Reply(0, Null, Result(""));
    if step.Reject? {
      var q := s.reverse.requests[s.reader.k];
      m := Reply(s.reader.k, q.id, R.NotFound(q.name));
    }
  }

  lemma TaskAccepts(s: State, step: TaskStep) returns (m: Outbound)
    requires TaskEnabled(s, step)
    ensures m.Reply?
    ensures var before, after := s.channel.accepted, TaskApply(s, step).channel.accepted;
            after == before || after == before + [m]
  {
    m := Reply(0, Null, Result(""));
    if step.SendReply? {
      var q := s.reverse.requests[step.k];
      m := Reply(step.k, q.id, R.OutcomeOf(q.phase.result));
    }
  }

  lemma ReaderQueued(s: State, step: ReaderStep)
    requires QueuedInv(s) && ReaderEnabled(s, step)
    ensures QueuedInv(ReaderApply(s, step))
  {
    hide QueuedInv, R.Clashes;
    var t := ReaderApply(s, step);
    ReaderMovesNoCall(s, step);
    var m := ReaderAccepts(s, step);
    QueuedCarries(s, t, m);
  }

  lemma WriterQueued(s: State, step: WriterStep)
    requires QueuedInv(s) && WriterEnabled(s, step)
    ensures QueuedInv(WriterApply(s, step))
  {
    hide QueuedInv;
    WriterMovesNoCall(s, step);
    QueuedCarries(s, WriterApply(s, step), NotifyMessage(""));
  }

  lemma TaskQueued(s: State, step: TaskStep)
    requires QueuedInv(s) && TaskEnabled(s, step)
    ensures QueuedInv(TaskApply(s, step))
  {
    hide QueuedInv;
    var m := TaskAccepts(s, step);
    QueuedCarries(s, TaskApply(s, step), m);
  }

  lemma EnqueueQueued(s: State, n: nat)
    requires QueuedInv(s) && CallEnabled(s, Enqueue(n))
    ensures QueuedInv(CallApply(s, Enqueue(n)))
  {
    hide Requests;
    forall m: nat {
      RequestsSnoc(s.channel.accepted, CallMessage(n, s.calls.calls[n].id), m);
    }
    assert QueuedAt(s.calls.calls[n].pc, Requests(s.channel.accepted, n));
  }

  lemma CallQueued(s: State, step: CallStep)
    requires QueuedInv(s) && CallEnabled(s, step)
    ensures QueuedInv(CallApply(s, step))
  {
    hide Requests, SenderGone;
    match step
    case Enqueue(n) => EnqueueQueued(s, n);
    case Notify(body) => QueuedCarries(s, CallApply(s, step), NotifyMessage(body));
    case _ =>
  }

  lemma QueuedStep(s: State, step: Step)
    requires QueuedInv(s) && Enabled(s, step)
    ensures QueuedInv(Apply(s, step))
  {
    match step
    case CallStep(call) => CallQueued(s, call);
    case ReaderStep(reader) => ReaderQueued(s, reader);
    case WriterStep(writer) => WriterQueued(s, writer);
    case TaskStep(task) => TaskQueued(s, task);
    case SetHandler(_) => assert Apply(s, step).calls == s.calls && Apply(s, step).channel == s.channel;
  }

  lemma {:induction false} QueuedRun(steps: seq<Step>, t: State)
    requires Leads(Initial, steps, t)
    ensures QueuedInv(t)
    decreases |steps|
  {
    if steps != [] {
      var front, last := steps[..|steps| - 1], steps[|steps| - 1];
      var mid :| Leads(Initial, front, mid) && Enabled(mid, last) && t == Apply(mid, last);
      hide *;
      QueuedRun(front, mid);
      QueuedStep(mid, last);
    }
  }

  /** In every reachable state: the request of a call has been queued exactly once
      if the call waits or has returned anything but the queue error, not at all if
      it has not got that far or returned the queue error, and at most once if its
      caller has gone; and every request queued carries the id of its call. */
  lemma EachRequestQueuedOnce(s: State, n: nat)
    requires Reachable(s) && n < |s.calls.calls|
    ensures QueuedAt(s.calls.calls[n].pc, Requests(s.channel.accepted, n))
    ensures forall i | 0 <= i < |s.channel.accepted| && s.channel.accepted[i].CallMessage? ::
              var m := s.channel.accepted[i];
              && m.call < |s.calls.calls| && m.id == s.calls.calls[m.call].id
              && m.id == Text("c:" + Decimal.Render(m.call + 1))
  {
    var steps :| Leads(Initial, steps, s);
    QueuedRun(steps, s);
    ReachableInv(s);
    assert C.Named(s.calls);
    hide Inv, QueuedAt, Requests;
  }

  /** A send completes exactly while the queue is open and holds fewer than 64
      messages, and fails exactly when it is closed; otherwise it waits. */
  lemma SendCompletesIff(s: State, n: nat, body: Json)
    requires n < |s.calls.calls| && s.calls.calls[n].pc.Registered?
    ensures CallEnabled(s, Notify(body)) <==> !s.channel.closed && |s.channel.queue| < 64
    ensures CallEnabled(s, Enqueue(n)) <==> !s.channel.closed && |s.channel.queue| < 64
    ensures CallEnabled(s, EnqueueFails(n)) <==> s.channel.closed
  {
  }

  // ----- the end of the queue -------------------------------------------

  /** What was still queued when the writer dropped its end is gone, and nothing is
      queued any more. */
  predicate EmptyOnceClosed(s: State) {
    s.channel.closed ==> s.channel.queue == [] && s.writer.WriterExited?
  }

  lemma EmptyStep(s: State, step: Step)
    requires EmptyOnceClosed(s) && Enabled(s, step)
    ensures EmptyOnceClosed(Apply(s, step))
    ensures s.channel.closed ==> Apply(s, step).channel == s.channel
  {
    match step
    case CallStep(call) => hide SenderGone;
    case ReaderStep(_) => hide R.Clashes;
    case _ =>
  }

  /** From the moment the queue is closed on (it starts open) it stays empty, and
      what has been accepted and written stays as it is. */
  lemma {:induction false} ClosedForGood(s: State, steps: seq<Step>, t: State)
    requires EmptyOnceClosed(s) && Leads(s, steps, t)
    ensures EmptyOnceClosed(Initial)
    ensures EmptyOnceClosed(t) && (s.channel.closed ==> t.channel == s.channel)
    decreases |steps|
  {
    if steps != [] {
      var front, last := steps[..|steps| - 1], steps[|steps| - 1];
      var mid :| Leads(s, front, mid) && Enabled(mid, last) && t == Apply(mid, last);
      hide Leads, Enabled, Apply;
      ClosedForGood(s, front, mid);
      EmptyStep(mid, last);
    }
  }

  // ----- notifications --------------------------------------------------

  /** The bodies of the notifications among the messages, in order. */
  function Notified(messages: seq<Outbound>): seq<Json> {
    if messages == [] then []
    else
      var last := messages[|messages| - 1];
      Notified(messages[..|messages| - 1]) + (if last.NotifyMessage? then [last.body] else [])
  }

  /** The bodies a run asks to send, in order. */
  function Notifies(steps: seq<Step>): seq<Json> {
    if steps == [] then []
    else
      var last := steps[|steps| - 1];
      Notifies(steps[..|steps| - 1]) + (if last.CallStep? && last.call.Notify? then [last.call.body] else [])
  }

  lemma NotifiedSnoc(messages: seq<Outbound>, m: Outbound)
    ensures Notified(messages + [m]) == Notified(messages) + (if m.NotifyMessage? then [m.body] else [])
  {
    assert (messages + [m])[..|messages|] == messages;
  }

  lemma NotifiedStep(s: State, step: Step)
    requires Enabled(s, step)
    ensures Notified(Apply(s, step).channel.accepted) ==
            Notified(s.channel.accepted) + (if step.CallStep? && step.call.Notify? then [step.call.body] else [])
  {
    hide Notified, CallApply, ReaderApply, WriterApply, TaskApply;
    match step
    case CallStep(call) => CallNotified(s, call);
    case ReaderStep(reader) =>
      var m := ReaderAccepts(s, reader);
      NotifiedSnoc(s.channel.accepted, m);
    case TaskStep(task) =>
      var m := TaskAccepts(s, task);
      NotifiedSnoc(s.channel.accepted, m);
    case WriterStep(writer) => WriterAccepts(s, writer);
    case SetHandler(_) =>
  }

  lemma WriterAccepts(s: State, step: WriterStep)
    requires WriterEnabled(s, step)
    ensures WriterApply(s, step).channel.accepted == s.channel.accepted
  {
  }

  lemma CallNotified(s: State, step: CallStep)
    requires CallEnabled(s, step)
    ensures Notified(CallApply(s, step).channel.accepted) ==
            Notified(s.channel.accepted) + (if step.Notify? then [step.body] else [])
  {
    hide Notified, SenderGone;
    match step
    case Enqueue(n) => NotifiedSnoc(s.channel.accepted, CallMessage(n, s.calls.calls[n].id));
    case Notify(body) => NotifiedSnoc(s.channel.accepted, NotifyMessage(body));
    case _ =>
  }

  /** Along every run the notifications queued are, in order, those sent. */
  lemma {:induction false} NotificationsInOrder(steps: seq<Step>, t: State)
    requires Leads(Initial, steps, t)
    ensures Notified(t.channel.accepted) == Notifies(steps)
    decreases |steps|
  {
    if steps != [] {
      var front, last := steps[..|steps| - 1], steps[|steps| - 1];
      var mid :| Leads(Initial, front, mid) && Enabled(mid, last) && t == Apply(mid, last);
      hide Leads, Enabled, Apply, Notified;
      NotificationsInOrder(front, mid);
      NotifiedStep(mid, last);
    }
  }
}
