/** What every step of a connection keeps. */
module ConnectionInvariant {
  import opened Wrappers
  import opened Messages
  import opened Connection
  import C = Calls
  import R = Reverse

  // ----- program counters -----------------------------------------------

  predicate ReaderDrained(pc: ReaderPc) {
    pc.Telling? || pc.AbortPending? || ReaderTorn(pc)
  }

  predicate ReaderTorn(pc: ReaderPc) {
    pc.Aborting? || pc.Announcing? || pc.Signalling? || pc.ReaderExited?
  }

  predicate Announced(pc: ReaderPc) {
    pc.Signalling? || pc.ReaderExited?
  }

  predicate WriterDrained(pc: WriterPc) {
    pc.WriterTelling? || pc.Closing? || pc.WriterExited?
  }

  /** What the tasks hold, and which locks they have taken, follows from where they stand. */
  ghost predicate PhasesInv(s: State) {
    && (s.calls.hand.Some? <==> s.reader.Delivering?)
    && (s.calls.readerHeld != {} ==> s.reader.Telling?)
    && (s.calls.readerDrained <==> ReaderDrained(s.reader))
    && (s.calls.writerHeld != {} ==> s.writer.WriterTelling?)
    && (s.calls.writerDrained <==> WriterDrained(s.writer))
    && (s.channel.closed <==> s.writer.WriterExited?)
    && (s.reverse.torn <==> ReaderTorn(s.reader))
    && (s.reverse.aborting != {} ==> s.reader.Aborting?)
    && (s.reverse.recording == if s.reader.Recording? then Some(s.reader.k) else None)
    && RequestPhase(s)
  }

  /** The request the reader works on is in the phase its counter says. */
  predicate RequestPhase(s: State) {
    var requests := s.reverse.requests;
    match s.reader
    case GotRequest(k) => k < |requests| && requests[k].phase.Seen?
    case Consulting(k) => k < |requests| && requests[k].phase.Seen?
    case Rejecting(k) => k < |requests| && requests[k].phase.Unregistered?
    case Spawning(k) => k < |requests| && requests[k].phase.Accepted?
    case Recording(k) => k < |requests|
    case _ => true
  }

  lemma CallPhases(s: State, step: CallStep)
    requires PhasesInv(s) && CallEnabled(s, step)
    ensures PhasesInv(CallApply(s, step))
  {
    hide SenderGone, C.Places;
  }

  lemma ReaderRequestPhase(s: State, step: ReaderStep)
    requires RequestPhase(s) && ReaderEnabled(s, step)
    ensures RequestPhase(ReaderApply(s, step))
  {
    hide C.Remove, C.DeliverHand, C.ReaderDrain, C.ReaderSend;
  }

  lemma ReaderPhases(s: State, step: ReaderStep)
    requires PhasesInv(s) && ReaderEnabled(s, step)
    ensures PhasesInv(ReaderApply(s, step))
  {
    ReaderRequestPhase(s, step);
    hide RequestPhase, R.Clashes, C.Live, Push;
  }

  lemma WriterPhases(s: State, step: WriterStep)
    requires PhasesInv(s) && WriterEnabled(s, step)
    ensures PhasesInv(WriterApply(s, step))
  {
  }

  lemma TaskPhases(s: State, step: TaskStep)
    requires PhasesInv(s) && TaskEnabled(s, step)
    ensures PhasesInv(TaskApply(s, step))
  {
  }

  // ----- calls ----------------------------------------------------------

  /** The reason the reader stopped for, once it has. */
  function Reason(pc: ReaderPc): Option<string> {
    match pc
    case Draining(reason) => Some(reason)
    case Telling(reason) => Some(reason)
    case AbortPending(reason) => Some(reason)
    case Aborting(reason) => Some(reason)
    case Announcing(reason) => Some(reason)
    case Signalling(reason) => Some(reason)
    case ReaderExited(reason) => Some(reason)
    case _ => None
  }

  /** The branch of `call` that finds its sender dropped unused is dead. */
  lemma SenderNeverLost(s: State, n: nat)
    requires C.Inv(s.calls)
    ensures !CallEnabled(s, SenderLost(n))
  {
  }

  lemma CallCalls(s: State, step: CallStep)
    requires C.Inv(s.calls) && CallEnabled(s, step)
    ensures C.Inv(CallApply(s, step).calls)
  {
    match step
    case Mint => C.MintKeeps(s.calls);
    case Register(n) => C.RegisterKeeps(s.calls, n);
    case Enqueue(n) => C.SetPcKeeps(s.calls, n, C.Waiting);
    case EnqueueFails(n) => C.SetPcKeeps(s.calls, n, C.Returned(IoError));
    case Receive(n) => C.SetPcKeeps(s.calls, n, C.Returned(ResultOf(s.calls.calls[n].slot.value)));
    case SenderLost(n) => SenderNeverLost(s, n);
    case Abandon(n) => C.SetPcKeeps(s.calls, n, C.Dropped);
    case Notify(_) =>
  }

  lemma ReaderCalls(s: State, step: ReaderStep)
    requires C.Inv(s.calls) && PhasesInv(s) && ReaderEnabled(s, step)
    ensures C.Inv(ReaderApply(s, step).calls)
  {
    match step
    case Resolve => C.RemoveKeeps(s.calls, s.reader.id, s.reader.outcome);
    case Deliver => C.DeliverKeeps(s.calls);
    case LockDrain => C.ReaderDrainKeeps(s.calls);
    case Tell(n) => C.ReaderSendKeeps(s.calls, n, s.reader.reason);
    case _ =>
  }

  lemma WriterCalls(s: State, step: WriterStep)
    requires C.Inv(s.calls) && PhasesInv(s) && WriterEnabled(s, step)
    ensures C.Inv(WriterApply(s, step).calls)
  {
    match step
    case WriterLockDrain => C.WriterDrainKeeps(s.calls);
    case WriterTell(n) => C.WriterSendKeeps(s.calls, n, WRITER_EXITED);
    case _ =>
  }

  /** What the reader drained has been, or is still to be, told the reason. */
  ghost predicate TellsInv(s: State) {
    ReaderDrained(s.reader) ==> C.DrainedTold(s.calls, Reason(s.reader).value)
  }

  lemma CallTells(s: State, step: CallStep)
    requires TellsInv(s) && CallEnabled(s, step)
    ensures TellsInv(CallApply(s, step))
  {
  }

  lemma ReaderTells(s: State, step: ReaderStep)
    requires TellsInv(s) && C.TableNamed(s.calls) && PhasesInv(s) && ReaderEnabled(s, step)
    ensures TellsInv(ReaderApply(s, step))
  {
    hide R.Arrive, R.Consult, R.SetPhase, R.Spawn, R.Record, R.LockAbort, R.AbortOne, Push;
  }

  lemma WriterTells(s: State, step: WriterStep)
    requires TellsInv(s) && C.TableNamed(s.calls) && C.OnePlace(s.calls) && WriterEnabled(s, step)
    ensures TellsInv(WriterApply(s, step))
  {
  }

  // ----- reverse requests -----------------------------------------------

  lemma ReaderTracks(s: State, step: ReaderStep)
    requires R.TrackInv(s.reverse) && PhasesInv(s) && ReaderEnabled(s, step)
    ensures R.TrackInv(ReaderApply(s, step).reverse)
  {
    match step
    case Read(Request(id, name)) => R.ArriveTracks(s.reverse, id, name);
    case Consult => R.ConsultTracks(s.reverse, s.reader.k);
    case Reject => R.SetPhaseTracks(s.reverse, s.reader.k, R.Rejected(true));
    case RejectFails => R.SetPhaseTracks(s.reverse, s.reader.k, R.Rejected(false));
    case Spawn => R.SpawnTracks(s.reverse, s.reader.k);
    case Record => R.RecordTracks(s.reverse, s.reader.k);
    case LockAbort => R.LockAbortTracks(s.reverse);
    case AbortOne(k) => R.AbortOneTracks(s.reverse, k);
    case _ =>
  }

  lemma TaskTracks(s: State, step: TaskStep)
    requires R.TrackInv(s.reverse) && TaskEnabled(s, step)
    ensures R.TrackInv(TaskApply(s, step).reverse)
  {
    match step
    case CleanUp(k) => R.CleanUpTracks(s.reverse, k);
    case HandlerReturns(k, result) => R.SetPhaseTracks(s.reverse, k, R.Sending(result));
    case SendReply(k) => R.SetPhaseTracks(s.reverse, k, R.CleaningUp(s.reverse.requests[k].phase.result, true));
    case SendReplyFails(k) => R.SetPhaseTracks(s.reverse, k, R.CleaningUp(s.reverse.requests[k].phase.result, false));
    case Cancel(k) => R.SetPhaseTracks(s.reverse, k, R.Cancelled);
  }

  ghost predicate RepliesInv(s: State) {
    R.RepliesInv(s.reverse, s.channel.accepted)
  }

  lemma CallReplies(s: State, step: CallStep)
    requires RepliesInv(s) && CallEnabled(s, step)
    ensures RepliesInv(CallApply(s, step))
  {
    match step
    case Enqueue(n) =>
      R.RepliesCarry(s.reverse, s.reverse, s.channel.accepted, CallMessage(n, s.calls.calls[n].id));
    case Notify(body) => R.RepliesCarry(s.reverse, s.reverse, s.channel.accepted, NotifyMessage(body));
    case _ =>
  }

  lemma ReaderReplies(s: State, step: ReaderStep)
    requires RepliesInv(s) && RequestPhase(s) && ReaderEnabled(s, step)
    ensures RepliesInv(ReaderApply(s, step))
  {
    if step.Reject? {
      var k := s.reader.k;
      R.ReplySent(s.reverse, s.channel.accepted, k, R.Rejected(true), R.NotFound(s.reverse.requests[k].name));
    } else {
      ReaderAnswersAlone(s, step);
      hide ReaderApply;
      R.RepliesCarry(s.reverse, ReaderApply(s, step).reverse, s.channel.accepted, NotifyMessage(""));
    }
  }

  /** No reader step but a rejection changes what is answered. */
  lemma ReaderAnswersAlone(s: State, step: ReaderStep)
    requires RequestPhase(s) && ReaderEnabled(s, step) && !step.Reject?
    requires forall k | 0 <= k < |s.reverse.requests| :: R.FollowsSnapshot(s.reverse.requests[k])
    ensures var t := ReaderApply(s, step);
      && t.channel.accepted == s.channel.accepted
      && |s.reverse.requests| <= |t.reverse.requests|
      && (forall k | 0 <= k < |s.reverse.requests| ::
            && t.reverse.requests[k].id == s.reverse.requests[k].id
            && R.Answered(t.reverse.requests[k]) == R.Answered(s.reverse.requests[k]))
      && (forall k | |s.reverse.requests| <= k < |t.reverse.requests| :: R.Answered(t.reverse.requests[k]).None?)
      && (forall k | 0 <= k < |t.reverse.requests| :: R.FollowsSnapshot(t.reverse.requests[k]))
  {
  }

  lemma TaskReplies(s: State, step: TaskStep)
    requires RepliesInv(s) && TaskEnabled(s, step)
    ensures RepliesInv(TaskApply(s, step))
  {
    match step
    case SendReply(k) =>
      var result := s.reverse.requests[k].phase.result;
      R.ReplySent(s.reverse, s.channel.accepted, k, R.CleaningUp(result, true), R.OutcomeOf(result));
    case _ =>
      var t := TaskApply(s, step);
      R.RepliesCarry(s.reverse, t.reverse, s.channel.accepted, NotifyMessage(""));
  }

  // ----- the outbound queue ---------------------------------------------

  /** The queue is first-in first-out and bounded: what reached the wire is a
      prefix of what was accepted, and nothing is lost while the writer lives. */
  ghost predicate QueueInv(s: State) {
    var ch := s.channel;
    && |ch.queue| <= OUTBOUND_QUEUE_CAP
    && ch.wire <= ch.accepted
    && (s.writer.Receiving? ==> ch.accepted == ch.wire + ch.queue)
    && (s.writer.Writing? ==> ch.accepted == ch.wire + [s.writer.message] + ch.queue)
  }

  /** A step that pushes one message leaves the rest of the queue alone. */
  lemma PushKeepsQueue(ch: Channel, m: Outbound, sent: seq<Outbound>)
    requires CanPush(ch) && ch.wire <= ch.accepted
    ensures |Push(ch, m).queue| <= OUTBOUND_QUEUE_CAP && Push(ch, m).wire <= Push(ch, m).accepted
    ensures ch.accepted == sent + ch.queue ==> Push(ch, m).accepted == sent + Push(ch, m).queue
  {
  }

  /** What has left the queue on its way to the wire. */
  function Sent(s: State): seq<Outbound> {
    if s.writer.Writing? then s.channel.wire + [s.writer.message] else s.channel.wire
  }

  lemma CallQueue(s: State, step: CallStep)
    requires QueueInv(s) && CallEnabled(s, step)
    ensures QueueInv(CallApply(s, step))
  {
  }

  lemma ReaderQueue(s: State, step: ReaderStep)
    requires QueueInv(s) && ReaderEnabled(s, step)
    ensures QueueInv(ReaderApply(s, step))
  {
    match step
    case Reject =>
      var q := s.reverse.requests[s.reader.k];
      PushKeepsQueue(s.channel, Reply(s.reader.k, q.id, R.NotFound(q.name)), Sent(s));
    case _ =>
  }

  lemma TaskQueue(s: State, step: TaskStep)
    requires QueueInv(s) && TaskEnabled(s, step)
    ensures QueueInv(TaskApply(s, step))
  {
  }

  lemma WriterQueue(s: State, step: WriterStep)
    requires QueueInv(s) && WriterEnabled(s, step)
    ensures QueueInv(WriterApply(s, step))
  {
  }

  // ----- the logs -------------------------------------------------------

  /** What a message from the server is published as on the event log. */
  function EventOf(m: Inbound): seq<Event> {
    match m
    case Notification(body) => [NotificationEvent(body)]
    case Request(id, name) => [RequestEvent(id, name)]
    case Response(_, _) => []
  }

  function EventsOf(read: seq<Inbound>): seq<Event> {
    if read == [] then [] else EventsOf(read[..|read| - 1]) + EventOf(read[|read| - 1])
  }

  function NotificationsOf(read: seq<Inbound>): seq<Json> {
    if read == [] then []
    else
      var last := read[|read| - 1];
      NotificationsOf(read[..|read| - 1]) + (if last.Notification? then [last.body] else [])
  }

  function ResolutionsOf(read: seq<Inbound>): seq<C.Resolution> {
    if read == [] then []
    else
      var last := read[|read| - 1];
      ResolutionsOf(read[..|read| - 1]) + (if last.Response? then [C.Resolution(last.id, last.outcome)] else [])
  }

  /** The messages the reader has finished publishing or resolving. */
  function Handled(s: State): seq<Inbound> {
    var r := s.reader;
    if s.log.read != [] && (r.GotResponse? || r.GotNotification? || r.Mirrored? || r.GotRequest?)
    then s.log.read[..|s.log.read| - 1]
    else s.log.read
  }

  /** The message the reader is working on. */
  predicate InWork(s: State) {
    var read := s.log.read;
    match s.reader
    case GotResponse(id, outcome) => read != [] && read[|read| - 1] == Response(id, outcome)
    case GotNotification(body) => read != [] && read[|read| - 1] == Notification(body)
    case Mirrored(body) => read != [] && read[|read| - 1] == Notification(body)
    case GotRequest(k) =>
      && k < |s.reverse.requests|
      && read != [] && read[|read| - 1] == Request(s.reverse.requests[k].id, s.reverse.requests[k].name)
    case _ => true
  }

  ghost predicate LogInv(s: State) {
    && InWork(s)
    && s.log.events ==
         (if Announced(s.reader) then EventsOf(Handled(s)) + [DisconnectedEvent(Reason(s.reader).value)]
          else EventsOf(Handled(s)))
    && s.log.legacy == NotificationsOf(if s.reader.Mirrored? then s.log.read else Handled(s))
    && s.calls.resolved == ResolutionsOf(Handled(s))
    && (s.log.workerDone <==> s.reader.ReaderExited?)
  }

  /** The last message read moves from being worked on to handled. */
  lemma Unfold(read: seq<Inbound>)
    requires read != []
    ensures var pre, last := read[..|read| - 1], read[|read| - 1];
            && EventsOf(read) == (if last.Response? then EventsOf(pre) else EventsOf(pre) + EventOf(last))
            && NotificationsOf(read) ==
               (if last.Notification? then NotificationsOf(pre) + [last.body] else NotificationsOf(pre))
            && ResolutionsOf(read) ==
               (if last.Response? then ResolutionsOf(pre) + [C.Resolution(last.id, last.outcome)]
                else ResolutionsOf(pre))
  {
  }

  lemma ReadLog(s: State, m: Inbound)
    requires LogInv(s) && s.reader.Reading?
    ensures LogInv(ReadMessage(s, m))
  {
    assert (s.log.read + [m])[..|s.log.read|] == s.log.read;
  }

  /** The reader is done with a message of the given kind. */
  lemma ResolveLog(s: State)
    requires LogInv(s) && s.reader.GotResponse?
    ensures LogInv(ReaderApply(s, Resolve))
  {
    hide EventsOf, NotificationsOf, ResolutionsOf;
    Unfold(s.log.read);
  }

  lemma MirrorLog(s: State)
    requires LogInv(s) && s.reader.GotNotification?
    ensures LogInv(ReaderApply(s, Mirror))
  {
    hide EventsOf, NotificationsOf, ResolutionsOf;
    Unfold(s.log.read);
  }

  lemma PublishLog(s: State)
    requires LogInv(s) && s.reader.Mirrored?
    ensures LogInv(ReaderApply(s, Publish))
  {
    hide EventsOf, NotificationsOf, ResolutionsOf;
    Unfold(s.log.read);
  }

  lemma PublishRequestLog(s: State)
    requires LogInv(s) && s.reader.GotRequest? && ReaderEnabled(s, PublishRequest)
    ensures LogInv(ReaderApply(s, PublishRequest))
  {
    hide EventsOf, NotificationsOf, ResolutionsOf;
    Unfold(s.log.read);
  }

  /** The reader is between messages or past its last one, before and after. */
  lemma QuietLog(s: State, t: State)
    requires LogInv(s) && Handled(s) == s.log.read && !s.reader.Mirrored? && InWork(t)
    requires t.log.read == s.log.read && Handled(t) == s.log.read && !t.reader.Mirrored?
    requires t.log.legacy == s.log.legacy && t.calls.resolved == s.calls.resolved
    requires t.log.events ==
             if Announced(t.reader) && !Announced(s.reader)
             then s.log.events + [DisconnectedEvent(Reason(t.reader).value)]
             else s.log.events
    requires Announced(s.reader) ==> Announced(t.reader) && Reason(t.reader) == Reason(s.reader)
    requires t.log.workerDone <==> t.reader.ReaderExited?
    ensures LogInv(t)
  {
  }

  lemma QuietReaderLog(s: State, step: ReaderStep)
    requires LogInv(s) && ReaderEnabled(s, step)
    requires !step.Read? && !step.Resolve? && !step.Mirror? && !step.Publish? && !step.PublishRequest?
    ensures LogInv(ReaderApply(s, step))
  {
    hide EventsOf, NotificationsOf, ResolutionsOf, EventOf;
    QuietLog(s, ReaderApply(s, step));
  }

  lemma ReaderLog(s: State, step: ReaderStep)
    requires LogInv(s) && ReaderEnabled(s, step)
    ensures LogInv(ReaderApply(s, step))
  {
    hide LogInv;
    match step
    case Read(message) => ReadLog(s, message);
    case Resolve => ResolveLog(s);
    case Mirror => MirrorLog(s);
    case Publish => PublishLog(s);
    case PublishRequest => PublishRequestLog(s);
    case _ => QuietReaderLog(s, step);
  }

  /** The other tasks touch neither the log nor the identity of a request. */
  lemma LogCarries(s: State, t: State)
    requires LogInv(s) && t.log == s.log && t.reader == s.reader && t.calls.resolved == s.calls.resolved
    requires |t.reverse.requests| == |s.reverse.requests|
    requires forall k | 0 <= k < |s.reverse.requests| ::
               && t.reverse.requests[k].id == s.reverse.requests[k].id
               && t.reverse.requests[k].name == s.reverse.requests[k].name
    ensures LogInv(t)
  {
    hide EventsOf, NotificationsOf, ResolutionsOf;
  }

  // ----- every run ------------------------------------------------------

  ghost predicate Inv(s: State) {
    && PhasesInv(s)
    && C.Inv(s.calls)
    && TellsInv(s)
    && R.TrackInv(s.reverse)
    && RepliesInv(s)
    && QueueInv(s)
    && LogInv(s)
  }

  lemma CallKeeps(s: State, step: CallStep)
    requires Inv(s) && CallEnabled(s, step)
    ensures Inv(CallApply(s, step))
  {
    CallPhases(s, step);
    CallCalls(s, step);
    CallTells(s, step);
    CallReplies(s, step);
    CallQueue(s, step);
    LogCarries(s, CallApply(s, step));
    hide PhasesInv, C.Inv, TellsInv, R.TrackInv, RepliesInv, QueueInv, LogInv;
  }

  lemma ReaderKeeps(s: State, step: ReaderStep)
    requires Inv(s) && ReaderEnabled(s, step)
    ensures Inv(ReaderApply(s, step))
  {
    ReaderPhases(s, step);
    ReaderCalls(s, step);
    ReaderTells(s, step);
    ReaderTracks(s, step);
    ReaderReplies(s, step);
    ReaderQueue(s, step);
    ReaderLog(s, step);
    hide PhasesInv, C.Inv, TellsInv, R.TrackInv, RepliesInv, QueueInv, LogInv, ReaderApply;
  }

  lemma WriterKeeps(s: State, step: WriterStep)
    requires Inv(s) && WriterEnabled(s, step)
    ensures Inv(WriterApply(s, step))
  {
    WriterPhases(s, step);
    WriterCalls(s, step);
    WriterTells(s, step);
    WriterQueue(s, step);
    LogCarries(s, WriterApply(s, step));
    hide PhasesInv, C.Inv, TellsInv, QueueInv, LogInv;
  }

  lemma TaskKeeps(s: State, step: TaskStep)
    requires Inv(s) && TaskEnabled(s, step)
    ensures Inv(TaskApply(s, step))
  {
    hide PhasesInv, C.Inv, R.TrackInv, RepliesInv, QueueInv, LogInv;
    TaskPhases(s, step);
    TaskTracks(s, step);
    TaskReplies(s, step);
    TaskQueue(s, step);
    LogCarries(s, TaskApply(s, step));
  }

  lemma SetHandlerKeeps(s: State, handler: Option<R.Handler>)
    requires Inv(s)
    ensures Inv(Apply(s, SetHandler(handler)))
  {
    var t := Apply(s, SetHandler(handler));
    LogCarries(s, t);
    SetHandlerReverse(s, t);
    assert TellsInv(t) && QueueInv(t);
    hide LogInv, TellsInv, QueueInv, R.TrackInv, RepliesInv, PhasesInv, C.Inv;
  }

  /** The handler slot is in nobody's way. */
  lemma SetHandlerReverse(s: State, t: State)
    requires PhasesInv(s) && R.TrackInv(s.reverse) && RepliesInv(s)
    requires t == s.(reverse := s.reverse.(handler := t.reverse.handler))
    ensures PhasesInv(t) && R.TrackInv(t.reverse) && RepliesInv(t)
  {
    assert forall k :: R.Tracked(t.reverse, k) <==> R.Tracked(s.reverse, k);
    hide R.Tracked, R.Replies, R.Answered, R.FollowsSnapshot;
  }

  lemma StepKeeps(s: State, step: Step)
    requires Inv(s) && Enabled(s, step)
    ensures Inv(Apply(s, step))
  {
    hide Inv, CallApply, ReaderApply, WriterApply, TaskApply, CallEnabled, ReaderEnabled, WriterEnabled, TaskEnabled;
    match step
    case CallStep(call) => CallKeeps(s, call);
    case ReaderStep(reader) => ReaderKeeps(s, reader);
    case WriterStep(writer) => WriterKeeps(s, writer);
    case TaskStep(task) => TaskKeeps(s, task);
    case SetHandler(handler) => SetHandlerKeeps(s, handler);
  }

  /** The invariant holds along every run. */
  lemma {:induction false} RunKeeps(s: State, steps: seq<Step>, t: State)
    requires Inv(s) && Leads(s, steps, t)
    ensures Inv(t)
    decreases |steps|
  {
    if steps != [] {
      var front, last := steps[..|steps| - 1], steps[|steps| - 1];
      var mid :| Leads(s, front, mid) && Enabled(mid, last) && t == Apply(mid, last);
      RunKeeps(s, front, mid);
      StepKeeps(mid, last);
    }
  }

  lemma InitialInv()
    ensures Inv(Initial)
  {
  }

  lemma ReachableInv(t: State)
    requires Reachable(t)
    ensures Inv(t)
  {
    InitialInv();
    hide Inv, Leads;
    var steps :| Leads(Initial, steps, t);
    RunKeeps(Initial, steps, t);
  }
}
