/** One JSON-RPC client connection as a transition system: any number of calls,
    the reader task, the writer task, the reverse-handler tasks and an arbitrary
    server. What one lock protects is one step; a send that follows a drain, a
    spawn and the insertion of its handle, and the two broadcasts of a
    notification are steps of their own. */
module Connection {
  import opened Wrappers
  import opened Messages
  import C = Calls
  import R = Reverse

  const OUTBOUND_QUEUE_CAP: nat := 64
  const WRITER_EXITED := "writer task exited"

  datatype Event =
    | NotificationEvent(body: Json)
    | RequestEvent(id: Id, name: string)
    | DisconnectedEvent(reason: string)

  datatype ReaderPc =
    | Reading
    | GotResponse(id: Id, outcome: Outcome)     // about to take the table lock
    | Delivering                                // holds the sender it removed
    | GotNotification(body: Json)               // about to broadcast on the legacy log
    | Mirrored(body: Json)                      // about to broadcast on the event log
    | GotRequest(k: nat)                        // about to broadcast the request
    | Consulting(k: nat)                        // about to read the handler slot
    | Rejecting(k: nat)                         // about to queue "method not found"
    | Spawning(k: nat)
    | Recording(k: nat)                         // about to insert the join handle
    | Draining(reason: string)                  // about to take the table lock
    | Telling(reason: string)                   // sends to what it drained
    | AbortPending(reason: string)
    | Aborting(reason: string)
    | Announcing(reason: string)
    | Signalling(reason: string)
    | ReaderExited(reason: string)

  datatype WriterPc =
    | Receiving
    | Writing(message: Outbound)
    | WriterDraining
    | WriterTelling
    | Closing                                   // about to drop the receiving end of the queue
    | WriterExited

  /** The bounded queue to the writer, with what it ever accepted and what
      reached the wire. */
  datatype Channel = Channel(queue: seq<Outbound>, accepted: seq<Outbound>, wire: seq<Outbound>, closed: bool)

  /** What the reader has read and published. */
  datatype Log = Log(read: seq<Inbound>, events: seq<Event>, legacy: seq<Json>, workerDone: bool)

  datatype State = State(
    calls: C.Calls,
    reverse: R.Reverse,
    channel: Channel,
    log: Log,
    reader: ReaderPc,
    writer: WriterPc)

  const Initial := State(C.Initial, R.Initial, Channel([], [], [], false), Log([], [], [], false), Reading, Receiving)

  datatype CallStep =
    | Mint
    | Register(n: nat)
    | Enqueue(n: nat)
    | EnqueueFails(n: nat)
    | Receive(n: nat)
    | SenderLost(n: nat)          // the receiver observes a sender dropped unused
    | Abandon(n: nat)
    | Notify(body: Json)

  datatype ReaderStep =
    | Read(message: Inbound)
    | Stop(reason: string)        // cancelled, end of file or framing error
    | Resolve
    | Deliver
    | Mirror
    | Publish
    | PublishRequest
    | Consult
    | Reject
    | RejectFails
    | Spawn
    | Record
    | LockDrain
    | Tell(n: nat)
    | Told
    | LockAbort
    | AbortOne(k: nat)
    | AbortedAll
    | Announce
    | Signal

  datatype WriterStep =
    | Take
    | Write
    | WriteFails
    | WriterStop                  // cancelled or every sender gone
    | WriterLockDrain
    | WriterTell(n: nat)
    | WriterTold
    | DropReceiver

  datatype TaskStep =
    | HandlerReturns(k: nat, result: R.HandlerResult)
    | SendReply(k: nat)
    | SendReplyFails(k: nat)
    | CleanUp(k: nat)
    | Cancel(k: nat)

  datatype Step =
    | CallStep(call: CallStep)
    | ReaderStep(reader: ReaderStep)
    | WriterStep(writer: WriterStep)
    | TaskStep(task: TaskStep)
    | SetHandler(handler: Option<R.Handler>)

  // ----- the outbound queue ---------------------------------------------

  /** A send completes exactly when the receiver is alive and there is room. */
  predicate CanPush(ch: Channel) {
    !ch.closed && |ch.queue| < OUTBOUND_QUEUE_CAP
  }

  function Push(ch: Channel, m: Outbound): Channel {
    ch.(queue := ch.queue + [m], accepted := ch.accepted + [m])
  }

  // ----- calls ----------------------------------------------------------

  /** No task holds the sender of call `n` and nothing was delivered. */
  predicate SenderGone(s: State, n: nat) {
    C.Places(s.calls, n) == 0
  }

  predicate CallEnabled(s: State, step: CallStep) {
    var calls := s.calls.calls;
    match step
    case Mint => true
    case Register(n) => n < |calls| && calls[n].pc.Minted?
    case Enqueue(n) => n < |calls| && calls[n].pc.Registered? && CanPush(s.channel)
    case EnqueueFails(n) => n < |calls| && calls[n].pc.Registered? && s.channel.closed
    case Receive(n) => n < |calls| && calls[n].pc.Waiting? && calls[n].slot.Some?
    case SenderLost(n) => n < |calls| && calls[n].pc.Waiting? && SenderGone(s, n)
    case Abandon(n) => C.Live(s.calls, n)
    case Notify(_) => CanPush(s.channel)
  }

  function CallApply(s: State, step: CallStep): State
    requires CallEnabled(s, step)
  {
    var calls := s.calls.calls;
    match step
    case Mint => s.(calls := C.Mint(s.calls))
    case Register(n) => s.(calls := C.Register(s.calls, n))
    case Enqueue(n) =>
      s.(calls := C.SetPc(s.calls, n, C.Waiting), channel := Push(s.channel, CallMessage(n, calls[n].id)))
    case EnqueueFails(n) => s.(calls := C.SetPc(s.calls, n, C.Returned(IoError)))
    case Receive(n) => s.(calls := C.SetPc(s.calls, n, C.Returned(ResultOf(calls[n].slot.value))))
    case SenderLost(n) => s.(calls := C.SetPc(s.calls, n, C.Returned(DisconnectedError("reader task exited"))))
    case Abandon(n) => s.(calls := C.SetPc(s.calls, n, C.Dropped))
    case Notify(body) => s.(channel := Push(s.channel, NotifyMessage(body)))
  }

  // ----- the reader -----------------------------------------------------

  predicate ReaderEnabled(s: State, step: ReaderStep) {
    match step
    case Read(_) => s.reader.Reading?
    case Stop(_) => s.reader.Reading?
    case Resolve => s.reader.GotResponse?
    case Deliver => s.reader.Delivering? && s.calls.hand.Some?
    case Mirror => s.reader.GotNotification?
    case Publish => s.reader.Mirrored?
    case PublishRequest => s.reader.GotRequest? && s.reader.k < |s.reverse.requests|
    case Consult => s.reader.Consulting? && s.reader.k < |s.reverse.requests|
    case Reject => s.reader.Rejecting? && s.reader.k < |s.reverse.requests| && CanPush(s.channel)
    case RejectFails => s.reader.Rejecting? && s.reader.k < |s.reverse.requests| && s.channel.closed
    case Spawn => s.reader.Spawning? && s.reader.k < |s.reverse.requests|
    case Record => s.reader.Recording? && s.reader.k < |s.reverse.requests|
    case LockDrain => s.reader.Draining?
    case Tell(n) => s.reader.Telling? && n in s.calls.readerHeld
    case Told => s.reader.Telling? && s.calls.readerHeld == {}
    case LockAbort => s.reader.AbortPending?
    case AbortOne(k) => s.reader.Aborting? && k in s.reverse.aborting && k < |s.reverse.requests|
    case AbortedAll => s.reader.Aborting? && s.reverse.aborting == {}
    case Announce => s.reader.Announcing?
    case Signal => s.reader.Signalling?
  }

  function ReadMessage(s: State, message: Inbound): State {
    var read := s.log.(read := s.log.read + [message]);
    match message
    case Response(id, outcome) => s.(log := read, reader := GotResponse(id, outcome))
    case Notification(body) => s.(log := read, reader := GotNotification(body))
    case Request(id, name) =>
      s.(log := read, reverse := R.Arrive(s.reverse, id, name), reader := GotRequest(|s.reverse.requests|))
  }

  function ReaderApply(s: State, step: ReaderStep): State
    requires ReaderEnabled(s, step)
  {
    match step
    case Read(message) => ReadMessage(s, message)
    case Stop(reason) => s.(reader := Draining(reason))
    case Resolve =>
      var calls := C.Remove(s.calls, s.reader.id, s.reader.outcome);
      s.(calls := calls, reader := if calls.hand.Some? then Delivering else Reading)
    case Deliver => s.(calls := C.DeliverHand(s.calls), reader := Reading)
    case Mirror =>
      s.(log := s.log.(legacy := s.log.legacy + [s.reader.body]), reader := Mirrored(s.reader.body))
    case Publish =>
      s.(log := s.log.(events := s.log.events + [NotificationEvent(s.reader.body)]), reader := Reading)
    case PublishRequest =>
      var q := s.reverse.requests[s.reader.k];
      s.(log := s.log.(events := s.log.events + [RequestEvent(q.id, q.name)]), reader := Consulting(s.reader.k))
    case Consult =>
      var reverse := R.Consult(s.reverse, s.reader.k);
      var accepted := reverse.requests[s.reader.k].phase.Accepted?;
      s.(reverse := reverse, reader := if accepted then Spawning(s.reader.k) else Rejecting(s.reader.k))
    case Reject =>
      var k := s.reader.k;
      var q := s.reverse.requests[k];
      s.(reverse := R.SetPhase(s.reverse, k, R.Rejected(true)),
         channel := Push(s.channel, Reply(k, q.id, R.NotFound(q.name))),
         reader := Reading)
    case RejectFails => s.(reverse := R.SetPhase(s.reverse, s.reader.k, R.Rejected(false)), reader := Reading)
    case Spawn => s.(reverse := R.Spawn(s.reverse, s.reader.k), reader := Recording(s.reader.k))
    case Record => s.(reverse := R.Record(s.reverse, s.reader.k), reader := Reading)
    case LockDrain => s.(calls := C.ReaderDrain(s.calls), reader := Telling(s.reader.reason))
    case Tell(n) => s.(calls := C.ReaderSend(s.calls, n, s.reader.reason))
    case Told => s.(reader := AbortPending(s.reader.reason))
    case LockAbort => s.(reverse := R.LockAbort(s.reverse), reader := Aborting(s.reader.reason))
    case AbortOne(k) => s.(reverse := R.AbortOne(s.reverse, k))
    case AbortedAll => s.(reader := Announcing(s.reader.reason))
    case Announce =>
      s.(log := s.log.(events := s.log.events + [DisconnectedEvent(s.reader.reason)]),
         reader := Signalling(s.reader.reason))
    case Signal => s.(log := s.log.(workerDone := true), reader := ReaderExited(s.reader.reason))
  }

  // ----- the writer -----------------------------------------------------

  predicate WriterEnabled(s: State, step: WriterStep) {
    match step
    case Take => s.writer.Receiving? && s.channel.queue != []
    case Write => s.writer.Writing?
    case WriteFails => s.writer.Writing?
    case WriterStop => s.writer.Receiving?
    case WriterLockDrain => s.writer.WriterDraining?
    case WriterTell(n) => s.writer.WriterTelling? && n in s.calls.writerHeld
    case WriterTold => s.writer.WriterTelling? && s.calls.writerHeld == {}
    case DropReceiver => s.writer.Closing?
  }

  function WriterApply(s: State, step: WriterStep): State
    requires WriterEnabled(s, step)
  {
    match step
    case Take =>
      s.(channel := s.channel.(queue := s.channel.queue[1..]), writer := Writing(s.channel.queue[0]))
    case Write => s.(channel := s.channel.(wire := s.channel.wire + [s.writer.message]), writer := Receiving)
    case WriteFails => s.(writer := WriterDraining)
    case WriterStop => s.(writer := WriterDraining)
    case WriterLockDrain => s.(calls := C.WriterDrain(s.calls), writer := WriterTelling)
    case WriterTell(n) => s.(calls := C.WriterSend(s.calls, n, WRITER_EXITED))
    case WriterTold => s.(writer := Closing)
    case DropReceiver => s.(channel := s.channel.(queue := [], closed := true), writer := WriterExited)
  }

  // ----- handler tasks --------------------------------------------------

  predicate TaskEnabled(s: State, step: TaskStep) {
    var requests := s.reverse.requests;
    match step
    case HandlerReturns(k, _) => k < |requests| && requests[k].phase.Running?
    case SendReply(k) => k < |requests| && requests[k].phase.Sending? && CanPush(s.channel)
    case SendReplyFails(k) => k < |requests| && requests[k].phase.Sending? && s.channel.closed
    case CleanUp(k) => k < |requests| && requests[k].phase.CleaningUp?
    case Cancel(k) =>
      k < |requests| && requests[k].aborted && (requests[k].phase.Running? || requests[k].phase.Sending?)
  }

  function TaskApply(s: State, step: TaskStep): State
    requires TaskEnabled(s, step)
  {
    var requests := s.reverse.requests;
    match step
    case HandlerReturns(k, result) => s.(reverse := R.SetPhase(s.reverse, k, R.Sending(result)))
    case SendReply(k) =>
      var result := requests[k].phase.result;
      s.(reverse := R.SetPhase(s.reverse, k, R.CleaningUp(result, true)),
         channel := Push(s.channel, Reply(k, requests[k].id, R.OutcomeOf(result))))
    case SendReplyFails(k) =>
      s.(reverse := R.SetPhase(s.reverse, k, R.CleaningUp(requests[k].phase.result, false)))
    case CleanUp(k) => s.(reverse := R.CleanUp(s.reverse, k))
    case Cancel(k) => s.(reverse := R.SetPhase(s.reverse, k, R.Cancelled))
  }

  // ----- runs -----------------------------------------------------------

  predicate Enabled(s: State, step: Step) {
    match step
    case CallStep(call) => CallEnabled(s, call)
    case ReaderStep(reader) => ReaderEnabled(s, reader)
    case WriterStep(writer) => WriterEnabled(s, writer)
    case TaskStep(task) => TaskEnabled(s, task)
    case SetHandler(_) => true
  }

  function Apply(s: State, step: Step): State
    requires Enabled(s, step)
  {
    match step
    case CallStep(call) => CallApply(s, call)
    case ReaderStep(reader) => ReaderApply(s, reader)
    case WriterStep(writer) => WriterApply(s, writer)
    case TaskStep(task) => TaskApply(s, task)
    case SetHandler(handler) => s.(reverse := s.reverse.(handler := handler))
  }

  /** `t` is what the steps lead to from `s`, each of them enabled in turn. */
  ghost predicate Leads(s: State, steps: seq<Step>, t: State)
    decreases |steps|
  {
    if steps == [] then s == t
    else
      var last := steps[|steps| - 1];
      exists mid :: Leads(s, steps[..|steps| - 1], mid) && Enabled(mid, last) && t == Apply(mid, last)
  }

  /** `t` is the state of a connection after some run. */
  ghost predicate Reachable(t: State) {
    exists steps :: Leads(Initial, steps, t)
  }
}
