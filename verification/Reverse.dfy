/** The server-facing half of a connection: requests the server sends, the
    handler snapshot each of them is dispatched with, the spawned handler tasks
    and the table of their join handles. A request, and the task spawned for it,
    is identified by its number in order of arrival. */
module Reverse {
  import opened Wrappers
  import opened Messages

  const METHOD_NOT_FOUND := -32601
  const INTERNAL_ERROR := -32603

  datatype Handler = Handler(methods: set<string>)

  datatype HandlerResult = Completed(value: Json) | Failed(code: int, message: string) | Panicked

  datatype Phase =
    | Seen                                            // read, handler slot not consulted yet
    | Unregistered                                    // to be answered by the reader itself
    | Rejected(sent: bool)
    | Accepted                                        // handler found, task not spawned yet
    | Running
    | Sending(result: HandlerResult)
    | CleaningUp(result: HandlerResult, sent: bool)   // about to remove its own handle
    | Ended(result: HandlerResult, sent: bool)
    | Cancelled

  datatype ServerRequest = ServerRequest(id: Id, name: string, snapshot: Option<Handler>, phase: Phase, aborted: bool)

  datatype Reverse = Reverse(
    handler: Option<Handler>,          // the slot shared with `set_reverse_handler`
    requests: seq<ServerRequest>,
    table: map<Id, nat>,               // join handles, guarded by the mutex
    recording: Option<nat>,            // handle the reader has spawned but not inserted
    aborting: set<nat>,                // handles drained by `abort_all`, not aborted yet
    torn: bool,                        // `abort_all` has taken the lock
    // History: some handle was inserted while another task serving a request
    // with the same id was unfinished.
    clash: bool)

  const Initial := Reverse(None, [], map[], None, {}, false, false)

  predicate Handles(handler: Option<Handler>, name: string) {
    handler.Some? && name in handler.value.methods
  }

  /** The task of the request has been spawned and has something left to do. */
  predicate Unfinished(q: ServerRequest) {
    q.phase.Running? || q.phase.Sending? || q.phase.CleaningUp?
  }

  predicate InTable(r: Reverse, k: nat) {
    k < |r.requests| && r.requests[k].id in r.table && r.table[r.requests[k].id] == k
  }

  function NotFound(name: string): Outcome {
    Error(METHOD_NOT_FOUND, "client has no handler for reverse-RPC method \"" + name + "\"")
  }

  function OutcomeOf(result: HandlerResult): Outcome {
    match result
    case Completed(v) => Result(v)
    case Failed(code, message) => Error(code, message)
    case Panicked => Error(INTERNAL_ERROR, "reverse handler panicked")
  }

  // ----- atomic sections ------------------------------------------------

  function SetPhase(r: Reverse, k: nat, phase: Phase): Reverse
    requires k < |r.requests|
  {
    r.(requests := r.requests[k := r.requests[k].(phase := phase)])
  }

  function Arrive(r: Reverse, id: Id, name: string): Reverse {
    r.(requests := r.requests + [ServerRequest(id, name, None, Seen, false)])
  }

  /** Reads the handler slot once and decides. */
  function Consult(r: Reverse, k: nat): Reverse
    requires k < |r.requests|
  {
    var q := r.requests[k].(snapshot := r.handler,
                            phase := if Handles(r.handler, r.requests[k].name) then Accepted else Unregistered);
    r.(requests := r.requests[k := q])
  }

  function Spawn(r: Reverse, k: nat): Reverse
    requires k < |r.requests|
  {
    SetPhase(r, k, Running).(recording := Some(k))
  }

  predicate Clashes(r: Reverse, k: nat)
    requires k < |r.requests|
  {
    exists j | 0 <= j < |r.requests| :: j != k && Unfinished(r.requests[j]) && r.requests[j].id == r.requests[k].id
  }

  function Record(r: Reverse, k: nat): Reverse
    requires k < |r.requests|
  {
    r.(table := r.table[r.requests[k].id := k], recording := None, clash := r.clash || Clashes(r, k))
  }

  function LockAbort(r: Reverse): Reverse {
    r.(aborting := r.table.Values, table := map[], torn := true)
  }

  function AbortOne(r: Reverse, k: nat): Reverse
    requires k < |r.requests|
  {
    r.(requests := r.requests[k := r.requests[k].(aborted := true)], aborting := r.aborting - {k})
  }

  /** The last action of a task: it removes whatever handle is under its id. */
  function CleanUp(r: Reverse, k: nat): Reverse
    requires k < |r.requests| && r.requests[k].phase.CleaningUp?
  {
    var phase := r.requests[k].phase;
    SetPhase(r, k, Ended(phase.result, phase.sent)).(table := r.table - {r.requests[k].id})
  }

  // ----- tracking -------------------------------------------------------

  /** `abort_all` has reached, or is sure to reach, the task. */
  predicate Tracked(r: Reverse, k: nat) {
    k < |r.requests| && (InTable(r, k) || k in r.aborting || r.requests[k].aborted)
  }

  /** The task is the one being recorded or serves the same id. */
  predicate Exempt(r: Reverse, k: nat)
    requires k < |r.requests|
  {
    r.recording.Some? && r.recording.value < |r.requests| && r.requests[r.recording.value].id == r.requests[k].id
  }

  ghost predicate TableNamed(r: Reverse) {
    && (forall id | id in r.table :: r.table[id] < |r.requests| && r.requests[r.table[id]].id == id)
    && (r.recording.Some? ==> r.recording.value < |r.requests|)
    && (forall k | k in r.aborting :: k < |r.requests|)
  }

  /** Before teardown nothing is aborted, after it nothing is recorded. */
  ghost predicate Torn(r: Reverse) {
    && (r.torn ==> r.table == map[] && r.recording.None?)
    && (!r.torn ==> r.aborting == {} && forall k | 0 <= k < |r.requests| :: !r.requests[k].aborted)
  }

  /** As long as no id was reused while in flight, every unfinished task is
      tracked, except while the reader holds a handle for the same id. */
  ghost predicate AllTracked(r: Reverse) {
    !r.clash ==> forall k | 0 <= k < |r.requests| && Unfinished(r.requests[k]) && !Exempt(r, k) :: Tracked(r, k)
  }

  ghost predicate TrackInv(r: Reverse) {
    TableNamed(r) && Torn(r) && AllTracked(r)
  }

  lemma ArriveTracks(r: Reverse, id: Id, name: string)
    requires TrackInv(r)
    ensures TrackInv(Arrive(r, id, name))
  {
  }

  lemma ConsultTracks(r: Reverse, k: nat)
    requires TrackInv(r) && k < |r.requests| && !Unfinished(r.requests[k])
    ensures TrackInv(Consult(r, k))
  {
  }

  /** A change of phase that does not bring a finished task back. */
  lemma SetPhaseTracks(r: Reverse, k: nat, phase: Phase)
    requires TrackInv(r) && k < |r.requests|
    requires Unfinished(r.requests[k].(phase := phase)) ==> Unfinished(r.requests[k])
    ensures TrackInv(SetPhase(r, k, phase))
  {
  }

  lemma SpawnTracks(r: Reverse, k: nat)
    requires TrackInv(r) && k < |r.requests| && r.recording.None? && !r.torn
    ensures TrackInv(Spawn(r, k))
  {
  }

  lemma RecordTracks(r: Reverse, k: nat)
    requires TrackInv(r) && r.recording == Some(k) && k < |r.requests|
    ensures TrackInv(Record(r, k))
  {
  }

  lemma LockAbortTracks(r: Reverse)
    requires TrackInv(r) && r.recording.None? && !r.torn
    ensures TrackInv(LockAbort(r))
  {
  }

  lemma AbortOneTracks(r: Reverse, k: nat)
    requires TrackInv(r) && k in r.aborting && k < |r.requests|
    ensures TrackInv(AbortOne(r, k))
  {
  }

  lemma CleanUpTracks(r: Reverse, k: nat)
    requires TrackInv(r) && k < |r.requests| && r.requests[k].phase.CleaningUp?
    ensures TrackInv(CleanUp(r, k))
  {
  }

  // ----- replies --------------------------------------------------------

  /** How many replies to request `k` are in `messages`. */
  function Replies(messages: seq<Outbound>, k: nat): nat {
    if messages == [] then 0
    else
      var last := messages[|messages| - 1];
      Replies(messages[..|messages| - 1], k) + (if last.Reply? && last.request == k then 1 else 0)
  }

  /** What the program has queued in answer to a request, if anything. */
  function Answered(q: ServerRequest): Option<Outcome> {
    match q.phase
    case Rejected(true) => Some(NotFound(q.name))
    case CleaningUp(result, true) => Some(OutcomeOf(result))
    case Ended(result, true) => Some(OutcomeOf(result))
    case _ => None
  }

  /** The phases a request goes through depend on the one snapshot only. */
  predicate FollowsSnapshot(q: ServerRequest) {
    match q.phase
    case Seen => true
    case Unregistered => !Handles(q.snapshot, q.name)
    case Rejected(_) => !Handles(q.snapshot, q.name)
    case _ => Handles(q.snapshot, q.name)
  }

  ghost predicate RepliesInv(r: Reverse, accepted: seq<Outbound>) {
    && (forall k: nat :: Replies(accepted, k) == if k < |r.requests| && Answered(r.requests[k]).Some? then 1 else 0)
    && (forall i | 0 <= i < |accepted| && accepted[i].Reply? ::
          && accepted[i].request < |r.requests|
          && accepted[i].id == r.requests[accepted[i].request].id
          && Answered(r.requests[accepted[i].request]) == Some(accepted[i].outcome))
    && (forall k | 0 <= k < |r.requests| :: FollowsSnapshot(r.requests[k]))
  }

  lemma RepliesSnoc(messages: seq<Outbound>, m: Outbound, k: nat)
    ensures Replies(messages + [m], k) == Replies(messages, k) + (if m.Reply? && m.request == k then 1 else 0)
  {
    assert (messages + [m])[..|messages|] == messages;
  }

  /** A change that leaves what is answered alone. */
  lemma RepliesCarry(r: Reverse, d: Reverse, accepted: seq<Outbound>, m: Outbound)
    requires RepliesInv(r, accepted) && |r.requests| <= |d.requests|
    requires forall k | 0 <= k < |r.requests| ::
               d.requests[k].id == r.requests[k].id && Answered(d.requests[k]) == Answered(r.requests[k])
    requires forall k | |r.requests| <= k < |d.requests| :: Answered(d.requests[k]).None?
    requires forall k | 0 <= k < |d.requests| :: FollowsSnapshot(d.requests[k])
    ensures RepliesInv(d, accepted)
    ensures !m.Reply? ==> RepliesInv(d, accepted + [m])
  {
    hide Replies, Answered, FollowsSnapshot;
    forall k: nat ensures !m.Reply? ==> Replies(accepted + [m], k) == Replies(accepted, k) {
      RepliesSnoc(accepted, m, k);
    }
  }

  /** Queueing the reply to request `k` and noting it as sent. */
  lemma ReplySent(r: Reverse, accepted: seq<Outbound>, k: nat, phase: Phase, o: Outcome)
    requires RepliesInv(r, accepted) && k < |r.requests| && Answered(r.requests[k]).None?
    requires Answered(r.requests[k].(phase := phase)) == Some(o) && FollowsSnapshot(r.requests[k].(phase := phase))
    ensures RepliesInv(SetPhase(r, k, phase), accepted + [Reply(k, r.requests[k].id, o)])
  {
    hide Replies, Answered, FollowsSnapshot;
    var m := Reply(k, r.requests[k].id, o);
    forall j: nat ensures Replies(accepted + [m], j) == Replies(accepted, j) + (if j == k then 1 else 0) {
      RepliesSnoc(accepted, m, j);
    }
  }
}
