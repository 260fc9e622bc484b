/** Which handler tasks the teardown reaches: exactly, and in terms of what the
    server sent. */
module HandlerTeardown {
  import opened Wrappers
  import opened Messages
  import opened Connection
  import opened ConnectionInvariant
  import opened ConnectionTheorems
  import opened ConnectionTasks
  import C = Calls
  import R = Reverse

  // ----- the exact condition --------------------------------------------

  predicate Spawned(q: R.ServerRequest) {
    q.phase.Running? || q.phase.Sending? || q.phase.CleaningUp? || q.phase.Ended? || q.phase.Cancelled?
  }

  /** The reader has inserted the handle of the task. */
  predicate Recorded(s: State, k: nat) {
    k < |s.reverse.requests| && Spawned(s.reverse.requests[k]) && s.reverse.recording != Some(k)
  }

  predicate UnfinishedTask(s: State, k: nat) {
    k < |s.reverse.requests| && R.Unfinished(s.reverse.requests[k])
  }

  /** Another task serving a request with the same id. */
  predicate Namesake(s: State, j: nat, k: nat) {
    var requests := s.reverse.requests;
    j < |requests| && k < |requests| && j != k && requests[j].id == requests[k].id
  }

  /** The step records a namesake of task k, or is the clean-up of one, while k is
      recorded and `abort_all` has not taken the lock. */
  predicate Displaces(s: State, step: Step, k: nat) {
    && Recorded(s, k) && !s.reverse.torn
    && match step
       case ReaderStep(Record) => s.reader.Recording? && Namesake(s, s.reader.k, k)
       case TaskStep(CleanUp(j)) => Namesake(s, j, k)
       case _ => false
  }

  ghost predicate Displaced(steps: seq<Step>, k: nat) {
    exists i, s :: 0 <= i < |steps| && Leads(Initial, steps[..i], s) && Displaces(s, steps[i], k)
  }

  lemma RecordedStep(s: State, step: Step, k: nat)
    requires Enabled(s, step) && PhasesInv(s) && R.TrackInv(s.reverse)
    ensures Recorded(s, k) ==> Recorded(Apply(s, step), k)
    ensures UnfinishedTask(Apply(s, step), k) && Recorded(Apply(s, step), k) ==>
              || (UnfinishedTask(s, k) && Recorded(s, k))
              || (!Recorded(s, k) && R.InTable(Apply(s, step).reverse, k))
  {
    match step
    case ReaderStep(reader) => ReaderRecorded(s, reader, k);
    case TaskStep(task) => TaskRecorded(s, task, k);
    case _ => assert Apply(s, step).reverse.(handler := None) == s.reverse.(handler := None);
  }

  /** The steps of the reader that leave the server's requests as they are. */
  predicate OffRequests(step: ReaderStep) {
    match step
    case Read(message) => !message.Request?
    case Consult => false
    case Reject => false
    case RejectFails => false
    case Spawn => false
    case Record => false
    case LockAbort => false
    case AbortOne(_) => false
    case _ => true
  }

  lemma ReverseKept(s: State, step: ReaderStep)
    requires ReaderEnabled(s, step) && OffRequests(step)
    ensures ReaderApply(s, step).reverse == s.reverse
  {
    hide C.Remove, C.DeliverHand, C.ReaderDrain, C.ReaderSend, Push;
  }

  lemma ReaderRecorded(s: State, step: ReaderStep, k: nat)
    requires ReaderEnabled(s, step) && PhasesInv(s)
    ensures Recorded(s, k) ==> Recorded(ReaderApply(s, step), k)
    ensures UnfinishedTask(ReaderApply(s, step), k) && Recorded(ReaderApply(s, step), k) ==>
              || (UnfinishedTask(s, k) && Recorded(s, k))
              || (!Recorded(s, k) && R.InTable(ReaderApply(s, step).reverse, k))
  {
    hide C.Remove, C.DeliverHand, C.ReaderDrain, C.ReaderSend, R.Clashes, Push;
    if OffRequests(step) {
      ReverseKept(s, step);
      hide ReaderApply, PhasesInv;
    }
  }

  lemma TaskRecorded(s: State, step: TaskStep, k: nat)
    requires TaskEnabled(s, step)
    ensures Recorded(s, k) ==> Recorded(TaskApply(s, step), k)
    ensures UnfinishedTask(TaskApply(s, step), k) && Recorded(TaskApply(s, step), k) ==>
              UnfinishedTask(s, k) && Recorded(s, k)
  {
  }

  /** A recorded task stays within reach except by a step that displaces it, and
      never comes back. */
  lemma TrackedStep(s: State, step: Step, k: nat)
    requires Enabled(s, step) && PhasesInv(s) && R.TrackInv(s.reverse)
    requires UnfinishedTask(s, k) && Recorded(s, k) && UnfinishedTask(Apply(s, step), k)
    ensures R.Tracked(Apply(s, step).reverse, k) <==> R.Tracked(s.reverse, k) && !Displaces(s, step, k)
  {
    match step
    case ReaderStep(reader) => ReaderTracked(s, reader, k);
    case TaskStep(task) => TaskTracked(s, task, k);
    case _ => assert Apply(s, step).reverse.(handler := None) == s.reverse.(handler := None);
  }

  lemma ReaderTracked(s: State, step: ReaderStep, k: nat)
    requires ReaderEnabled(s, step) && PhasesInv(s) && R.TrackInv(s.reverse)
    requires UnfinishedTask(s, k) && Recorded(s, k)
    ensures R.Tracked(ReaderApply(s, step).reverse, k) <==>
              R.Tracked(s.reverse, k) && !Displaces(s, ReaderStep(step), k)
  {
    hide C.Remove, C.DeliverHand, C.ReaderDrain, C.ReaderSend, R.Clashes, Push;
    if OffRequests(step) {
      ReverseKept(s, step);
      hide ReaderApply, PhasesInv;
    }
  }

  lemma TaskTracked(s: State, step: TaskStep, k: nat)
    requires TaskEnabled(s, step) && R.TrackInv(s.reverse)
    requires UnfinishedTask(s, k) && Recorded(s, k) && UnfinishedTask(TaskApply(s, step), k)
    ensures R.Tracked(TaskApply(s, step).reverse, k) <==>
              R.Tracked(s.reverse, k) && !Displaces(s, TaskStep(step), k)
  {
  }

  lemma {:induction false} RecordedOn(steps: seq<Step>, t: State, i: nat, s: State, k: nat)
    requires Leads(Initial, steps, t) && i <= |steps| && Leads(Initial, steps[..i], s) && Recorded(s, k)
    ensures Recorded(t, k)
    decreases |steps|
  {
    if i == |steps| {
      assert steps[..i] == steps;
      LeadsDeterministic(Initial, steps, s, t);
    } else {
      var front, last := steps[..|steps| - 1], steps[|steps| - 1];
      var m :| Leads(Initial, front, m) && Enabled(m, last) && t == Apply(m, last);
      assert front[..i] == steps[..i];
      RecordedOn(front, m, i, s, k);
      assert Reachable(m);
      ReachableInv(m);
      RecordedStep(m, last, k);
    }
  }

  /** A task that is recorded and unfinished is within reach of `abort_all` if and
      only if no step of the run has displaced it. */
  lemma {:induction false} TrackedIff(steps: seq<Step>, t: State, k: nat)
    requires Leads(Initial, steps, t) && UnfinishedTask(t, k) && Recorded(t, k)
    ensures R.Tracked(t.reverse, k) <==> !Displaced(steps, k)
    decreases |steps|
  {
    if steps != [] {
      var front, last := steps[..|steps| - 1], steps[|steps| - 1];
      var m :| Leads(Initial, front, m) && Enabled(m, last) && t == Apply(m, last);
      assert Reachable(m);
      ReachableInv(m);
      RecordedStep(m, last, k);
      DisplacedMore(steps, m, k);
      if Recorded(m, k) {
        TrackedIff(front, m, k);
        TrackedStep(m, last, k);
      } else {
        if i, s :| 0 <= i < |front| && Leads(Initial, front[..i], s) && Displaces(s, front[i], k) {
          RecordedOn(front, m, i, s, k);
        }
      }
      hide Leads, Enabled, Apply, Inv;
    }
  }

  lemma DisplacedMore(steps: seq<Step>, m: State, k: nat)
    requires steps != [] && Leads(Initial, steps[..|steps| - 1], m)
    ensures Displaced(steps, k) <==> Displaced(steps[..|steps| - 1], k) || Displaces(m, steps[|steps| - 1], k)
  {
    var front := steps[..|steps| - 1];
    assert forall i | 0 <= i < |steps| :: steps[..i] == front[..i];
    assert steps[..|front|] == front;
    if i, s :| 0 <= i < |steps| && Leads(Initial, steps[..i], s) && Displaces(s, steps[i], k) && i == |front| {
      LeadsDeterministic(Initial, front, s, m);
    }
    hide Leads, Displaces;
  }

  /** The exact condition: an unfinished handler task escapes the teardown if and
      only if, after its own handle was inserted and before `abort_all` took the
      lock, the handle of a task with the same id was inserted or such a task
      cleaned up. */
  lemma EscapesAbortIff(steps: seq<Step>, t: State, k: nat)
    requires Leads(Initial, steps, t) && (t.reader.Announcing? || Announced(t.reader)) && UnfinishedTask(t, k)
    ensures !t.reverse.requests[k].aborted <==> Displaced(steps, k)
  {
    assert Reachable(t);
    ReachableInv(t);
    TrackedIff(steps, t, k);
    hide Leads, Displaced;
  }

  // ----- what the server sent -------------------------------------------

  /** The server never reuses a request id on the connection. */
  predicate NoReuse(read: seq<Inbound>) {
    forall i, j | 0 <= i < j < |read| && read[i].Request? && read[j].Request? :: read[i].id != read[j].id
  }

  function RequestIds(read: seq<Inbound>): seq<Id> {
    if read == [] then []
    else RequestIds(read[..|read| - 1]) + (if read[|read| - 1].Request? then [read[|read| - 1].id] else [])
  }

  lemma {:induction false} RequestIdRead(read: seq<Inbound>, k: nat)
    requires k < |RequestIds(read)|
    ensures exists i :: 0 <= i < |read| && read[i].Request? && read[i].id == RequestIds(read)[k]
  {
    if k < |RequestIds(read[..|read| - 1])| {
      RequestIdRead(read[..|read| - 1], k);
    }
  }

  lemma {:induction false} RequestIdsDistinct(read: seq<Inbound>, j: nat, k: nat)
    requires NoReuse(read) && j < k < |RequestIds(read)|
    ensures RequestIds(read)[j] != RequestIds(read)[k]
  {
    var front := read[..|read| - 1];
    if k < |RequestIds(front)| {
      RequestIdsDistinct(front, j, k);
    } else {
      RequestIdRead(front, j);
    }
  }

  /** The requests are those read, in order; a clash is between two of them. */
  ghost predicate IdsInv(s: State) {
    && |s.reverse.requests| == |RequestIds(s.log.read)|
    && (forall k | 0 <= k < |s.reverse.requests| :: s.reverse.requests[k].id == RequestIds(s.log.read)[k])
    && (s.reverse.clash ==> exists j: nat, k: nat :: Namesake(s, j, k))
  }

  lemma IdsStep(s: State, step: Step)
    requires IdsInv(s) && Enabled(s, step)
    ensures IdsInv(Apply(s, step))
  {
    match step
    case ReaderStep(reader) => ReaderIds(s, reader);
    case TaskStep(task) => TaskIds(s, task);
    case _ =>
      SameIds(s, Apply(s, step));
  }

  lemma SameIds(s: State, t: State)
    requires IdsInv(s) && t.log.read == s.log.read && |t.reverse.requests| == |s.reverse.requests|
    requires forall k | 0 <= k < |s.reverse.requests| :: t.reverse.requests[k].id == s.reverse.requests[k].id
    requires t.reverse.clash ==> s.reverse.clash
    ensures IdsInv(t)
  {
    if t.reverse.clash {
      var j: nat, k: nat :| Namesake(s, j, k);
      assert Namesake(t, j, k);
    }
  }

  lemma TaskIds(s: State, step: TaskStep)
    requires IdsInv(s) && TaskEnabled(s, step)
    ensures IdsInv(TaskApply(s, step))
  {
    SameIds(s, TaskApply(s, step));
  }

  lemma ReadIds(s: State, message: Inbound)
    requires IdsInv(s)
    ensures IdsInv(ReadMessage(s, message))
  {
    var t := ReadMessage(s, message);
    assert t.log.read[..|s.log.read|] == s.log.read;
    if s.reverse.clash {
      var j: nat, k: nat :| Namesake(s, j, k);
      assert Namesake(t, j, k);
    }
  }

  /** A handle inserted over an unfinished task of the same id is a namesake. */
  lemma RecordIds(s: State)
    requires IdsInv(s) && ReaderEnabled(s, Record)
    ensures IdsInv(ReaderApply(s, Record))
  {
    var t, k := ReaderApply(s, Record), s.reader.k;
    if R.Clashes(s.reverse, k) {
      var j :| 0 <= j < |s.reverse.requests| && j != k && s.reverse.requests[j].id == s.reverse.requests[k].id;
      assert Namesake(t, j, k);
    } else {
      SameIds(s, t);
    }
  }

  lemma ReaderIds(s: State, step: ReaderStep)
    requires IdsInv(s) && ReaderEnabled(s, step)
    ensures IdsInv(ReaderApply(s, step))
  {
    hide C.Remove, C.DeliverHand, C.ReaderDrain, C.ReaderSend, Push, Namesake, RequestIds;
    match step
    case Read(message) => ReadIds(s, message);
    case Record => RecordIds(s);
    case _ => OtherIds(s, step);
  }

  lemma OtherIds(s: State, step: ReaderStep)
    requires IdsInv(s) && ReaderEnabled(s, step) && !step.Read? && !step.Record?
    ensures IdsInv(ReaderApply(s, step))
  {
    hide C.Remove, C.DeliverHand, C.ReaderDrain, C.ReaderSend, Push, Namesake, RequestIds, IdsInv;
    SameIds(s, ReaderApply(s, step));
  }

  lemma {:induction false} IdsRun(steps: seq<Step>, t: State)
    requires Leads(Initial, steps, t)
    ensures IdsInv(t)
    decreases |steps|
  {
    if steps != [] {
      var front, last := steps[..|steps| - 1], steps[|steps| - 1];
      var m :| Leads(Initial, front, m) && Enabled(m, last) && t == Apply(m, last);
      IdsRun(front, m);
      IdsStep(m, last);
      hide Leads, Enabled, Apply, IdsInv;
    }
  }

  /** A server that never reuses a request id causes no clash. */
  lemma NoReuseNoClash(s: State)
    requires Reachable(s) && NoReuse(s.log.read)
    ensures !s.reverse.clash
  {
    var steps :| Leads(Initial, steps, s);
    IdsRun(steps, s);
    hide Leads;
    if s.reverse.clash {
      var j: nat, k: nat :| Namesake(s, j, k);
      RequestIdsDistinct(s.log.read, if j < k then j else k, if j < k then k else j);
    }
  }

  /** If the server never reuses a request id, `abort_all` has aborted every
      unfinished handler task by the time the terminal event is announced. */
  lemma AbortReachesEveryTask(s: State, k: nat)
    requires Reachable(s) && NoReuse(s.log.read)
    requires (s.reader.Announcing? || Announced(s.reader)) && UnfinishedTask(s, k)
    ensures s.reverse.requests[k].aborted
  {
    NoReuseNoClash(s);
    AbortReachesTracked(s, k);
  }

  // ----- reuse after the reply ------------------------------------------

  lemma GoOn(start: State, s: State, step: Step) returns (t: State)
    requires Reachable(s) && Reaches(start, s) && Enabled(s, step)
    ensures t == Apply(s, step) && Reachable(t) && Reaches(start, t)
  {
    t := Go(s, step);
    ReachesMore(start, s, step);
  }

  /** A handler returns and its reply reaches the wire. */
  lemma ReplyWritten(s: State, k: nat) returns (t: State)
    requires Reachable(s) && UnfinishedTask(s, k) && s.reverse.requests[k].phase.Running?
    requires s.writer.Receiving? && s.channel.queue == [] && !s.channel.closed
    ensures Reachable(t) && t.reader == s.reader && t.calls == s.calls && t.log == s.log
    ensures t.channel.wire == s.channel.wire + [Reply(k, s.reverse.requests[k].id, Result(""))]
    ensures t.reverse == R.SetPhase(s.reverse, k, R.CleaningUp(R.Completed(""), true))
  {
    t := Go(s, TaskStep(HandlerReturns(k, R.Completed(""))));
    t := Go(t, TaskStep(SendReply(k)));
    assert t.channel.queue == [Reply(k, s.reverse.requests[k].id, Result(""))];
    t := Go(t, WriterStep(Take));
    t := Go(t, WriterStep(Write));
    hide Reachable;
  }

  /** A request is served and its reply is on the wire; its task has yet to remove
      its handle. */
  lemma RepliedRequest(name: string, handler: R.Handler) returns (s: State)
    requires name in handler.methods
    ensures Reachable(s) && s.reader.Reading? && s.calls.pending == map[]
    ensures s.channel.wire == [Reply(0, Number(1), Result(""))]
    ensures s.log.read == [Request(Number(1), name)]
    ensures s.reverse.handler == Some(handler) && s.reverse.table == map[Number(1) := 0] && s.reverse.aborting == {}
    ensures s.reverse.requests ==
            [R.ServerRequest(Number(1), name, Some(handler), R.CleaningUp(R.Completed(""), true), false)]
  {
    assert Leads(Initial, [], Initial);
    s := Go(Initial, SetHandler(Some(handler)));
    s := SpawnHandler(s, Number(1), name);
    assert s.reverse.requests == [R.ServerRequest(Number(1), name, Some(handler), R.Running, false)];
    hide Reachable;
    s := ReplyWritten(s, 0);
  }

  /** The server may reuse an id only after it has the reply and a task still
      escapes: the old task, cleaning up, removes the handle of the new one. */
  lemma ReuseAfterReplyEscapes() returns (mid: State, s: State)
    ensures Reachable(mid) && mid.log.read == [Request(Number(1), "fs/read_text_file")]
    ensures mid.channel.wire == [Reply(0, Number(1), Result(""))]
    ensures Reaches(mid, s) && s.reader.Announcing? && |s.reverse.requests| == 2
    ensures s.reverse.requests[1].phase.Running? && !s.reverse.requests[1].aborted
  {
    var name := "fs/read_text_file";
    mid := RepliedRequest(name, R.Handler({name}));
    assert Leads(mid, [], mid);
    hide Reachable, Reaches;
    s := SpawnOn(mid, mid, Number(1), name);
    assert s.reverse.requests[0].id == Number(1);
    s := GoOn(mid, s, TaskStep(CleanUp(0)));
    assert s.reverse.table == map[];
    s := EmptyTeardown(mid, s);
  }

  /** The reader reads a request, finds a handler, spawns it and records it. */
  lemma SpawnOn(start: State, s: State, id: Id, name: string) returns (t: State)
    requires Reachable(s) && Reaches(start, s) && s.reader.Reading? && R.Handles(s.reverse.handler, name)
    ensures Reachable(t) && Reaches(start, t) && t.reader.Reading? && t.calls == s.calls
    ensures t.reverse.requests == s.reverse.requests + [R.ServerRequest(id, name, s.reverse.handler, R.Running, false)]
    ensures t.reverse.table == s.reverse.table[id := |s.reverse.requests|]
  {
    t := AcceptOn(start, s, id, name);
    t := GoOn(start, t, ReaderStep(Spawn));
    t := GoOn(start, t, ReaderStep(Record));
    hide Reachable, Reaches;
  }

  lemma AcceptOn(start: State, s: State, id: Id, name: string) returns (t: State)
    requires Reachable(s) && Reaches(start, s) && s.reader.Reading? && R.Handles(s.reverse.handler, name)
    ensures Reachable(t) && Reaches(start, t) && t.reader == Spawning(|s.reverse.requests|) && t.calls == s.calls
    ensures var q := R.ServerRequest(id, name, s.reverse.handler, R.Accepted, false);
            t.reverse == s.reverse.(requests := s.reverse.requests + [q])
  {
    t := GoOn(start, s, ReaderStep(Read(Request(id, name))));
    t := GoOn(start, t, ReaderStep(PublishRequest));
    t := GoOn(start, t, ReaderStep(Consult));
    hide Reachable, Reaches;
  }

  /** The reader tears down with nothing in either table. */
  lemma EmptyTeardown(start: State, s: State) returns (t: State)
    requires Reachable(s) && Reaches(start, s)
    requires s.reader.Reading? && s.calls.pending == map[] && s.reverse.table == map[]
    ensures Reaches(start, t) && t.reader.Announcing? && t.reverse.requests == s.reverse.requests
  {
    t := GoOn(start, s, ReaderStep(Stop("unexpected EOF")));
    t := GoOn(start, t, ReaderStep(LockDrain));
    t := GoOn(start, t, ReaderStep(Told));
    t := GoOn(start, t, ReaderStep(LockAbort));
    t := GoOn(start, t, ReaderStep(AbortedAll));
    hide Reachable, Reaches;
  }
}
