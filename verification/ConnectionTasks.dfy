/** The reader and the writer task as the loops they are, over a shared
    connection that every other task may change between any two of their atomic
    sections. The sections are executed as steps of the transition system; what is
    shown is that each of them can be, whatever the other tasks have done by then,
    and where the loops get in the end unless a full queue stops them. */
module ConnectionTasks {
  import opened Wrappers
  import opened Messages
  import opened Connection
  import opened ConnectionInvariant
  import opened ConnectionTheorems
  import C = Calls
  import R = Reverse

  ghost predicate Reaches(s: State, t: State) {
    exists steps :: Leads(s, steps, t)
  }

  /** `t` is reached from `s` without a step of the reader. */
  ghost predicate ReachesBeside(s: State, t: State) {
    exists steps :: Leads(s, steps, t) && forall step: Step | step in steps :: !step.ReaderStep?
  }

  /** What belongs to the reader is as it was. */
  ghost predicate ReaderUntouched(s: State, t: State) {
    && t.reader == s.reader
    && t.log == s.log
    && t.calls.hand == s.calls.hand
    && t.calls.readerHeld == s.calls.readerHeld
    && t.reverse.aborting == s.reverse.aborting
    && |t.reverse.requests| == |s.reverse.requests|
  }

  lemma {:induction false} BesideTheReader(s: State, steps: seq<Step>, t: State)
    requires Leads(s, steps, t) && forall step: Step | step in steps :: !step.ReaderStep?
    ensures ReaderUntouched(s, t)
    decreases |steps|
  {
    if steps != [] {
      var front, last := steps[..|steps| - 1], steps[|steps| - 1];
      var mid :| Leads(s, front, mid) && Enabled(mid, last) && t == Apply(mid, last);
      BesideTheReader(s, front, mid);
      OneBesideTheReader(mid, last);
    }
  }

  lemma OneBesideTheReader(s: State, step: Step)
    requires Enabled(s, step) && !step.ReaderStep?
    ensures ReaderUntouched(s, Apply(s, step))
  {
  }

  /** `t` is reached from `s` without a step of the writer. */
  ghost predicate ReachesBesideWriter(s: State, t: State) {
    exists steps :: Leads(s, steps, t) && forall step: Step | step in steps :: !step.WriterStep?
  }

  /** What belongs to the writer is as it was; the queue can only have grown. */
  ghost predicate WriterUntouched(s: State, t: State) {
    && t.writer == s.writer
    && t.calls.writerHeld == s.calls.writerHeld
    && s.channel.queue <= t.channel.queue
    && t.channel.wire == s.channel.wire
    && t.channel.closed == s.channel.closed
  }

  lemma {:induction false} BesideTheWriter(s: State, steps: seq<Step>, t: State)
    requires Leads(s, steps, t) && forall step: Step | step in steps :: !step.WriterStep?
    ensures WriterUntouched(s, t)
    decreases |steps|
  {
    if steps != [] {
      var front, last := steps[..|steps| - 1], steps[|steps| - 1];
      var mid :| Leads(s, front, mid) && Enabled(mid, last) && t == Apply(mid, last);
      BesideTheWriter(s, front, mid);
      OneBesideTheWriter(mid, last);
    }
  }

  lemma OneBesideTheWriter(s: State, step: Step)
    requires Enabled(s, step) && !step.WriterStep?
    ensures WriterUntouched(s, Apply(s, step))
  {
    if step.ReaderStep? {
      ReaderBesideTheWriter(s, step.reader);
    }
    hide ReaderApply;
  }

  lemma ReaderBesideTheWriter(s: State, step: ReaderStep)
    requires ReaderEnabled(s, step)
    ensures WriterUntouched(s, ReaderApply(s, step))
  {
    hide R.Arrive, R.Consult, R.SetPhase, R.Spawn, R.Record, R.LockAbort, R.AbortOne, C.Live;
  }

  /** A step of the future of call n. */
  predicate OfCall(step: Step, n: nat) {
    step.CallStep? &&
    match step.call
    case Register(m) => m == n
    case Enqueue(m) => m == n
    case EnqueueFails(m) => m == n
    case Receive(m) => m == n
    case SenderLost(m) => m == n
    case Abandon(m) => m == n
    case _ => false
  }

  /** `t` is reached from `s` without a step of call n. */
  ghost predicate ReachesBesideCall(s: State, t: State, n: nat) {
    exists steps :: Leads(s, steps, t) && forall step: Step | step in steps :: !OfCall(step, n)
  }

  ghost predicate CallUntouched(s: State, t: State, n: nat) {
    n < |s.calls.calls| ==>
      n < |t.calls.calls| && t.calls.calls[n].pc == s.calls.calls[n].pc && t.calls.calls[n].id == s.calls.calls[n].id
  }

  lemma {:induction false} BesideTheCall(s: State, steps: seq<Step>, t: State, n: nat)
    requires Leads(s, steps, t) && forall step: Step | step in steps :: !OfCall(step, n)
    ensures CallUntouched(s, t, n)
    decreases |steps|
  {
    if steps != [] {
      var front, last := steps[..|steps| - 1], steps[|steps| - 1];
      var mid :| Leads(s, front, mid) && Enabled(mid, last) && t == Apply(mid, last);
      BesideTheCall(s, front, mid, n);
      OneBesideTheCall(mid, last, n);
      hide Enabled, Apply;
    }
  }

  lemma OneBesideTheCall(s: State, step: Step, n: nat)
    requires Enabled(s, step) && !OfCall(step, n)
    ensures CallUntouched(s, Apply(s, step), n)
  {
    match step
    case CallStep(call) => CallBesideTheCall(s, call, n);
    case ReaderStep(reader) => ReaderBesideTheCall(s, reader, n);
    case WriterStep(writer) => WriterBesideTheCall(s, writer, n);
    case _ =>
      hide CallUntouched;
      assert Apply(s, step).calls == s.calls;
      SameCalls(s, Apply(s, step), n);
  }

  lemma SameCalls(s: State, t: State, n: nat)
    requires t.calls == s.calls
    ensures CallUntouched(s, t, n)
  {
  }

  lemma CallBesideTheCall(s: State, step: CallStep, n: nat)
    requires CallEnabled(s, step) && !OfCall(CallStep(step), n)
    ensures CallUntouched(s, CallApply(s, step), n)
  {
  }

  lemma ReaderBesideTheCall(s: State, step: ReaderStep, n: nat)
    requires ReaderEnabled(s, step)
    ensures CallUntouched(s, ReaderApply(s, step), n)
  {
  }

  lemma WriterBesideTheCall(s: State, step: WriterStep, n: nat)
    requires WriterEnabled(s, step)
    ensures CallUntouched(s, WriterApply(s, step), n)
  {
  }

  lemma ReachesMore(s: State, t: State, step: Step)
    requires Reaches(s, t) && Enabled(t, step)
    ensures Reaches(s, Apply(t, step))
  {
    var steps :| Leads(s, steps, t);
    var more := steps + [step];
    assert more[..|more| - 1] == steps && more[|more| - 1] == step;
    assert Leads(s, more, Apply(t, step));
  }

  lemma {:induction false} ReachesOn(s: State, t: State, steps: seq<Step>, u: State)
    requires Reaches(s, t) && Leads(t, steps, u)
    ensures Reaches(s, u)
    decreases |steps|
  {
    if steps != [] {
      var front, last := steps[..|steps| - 1], steps[|steps| - 1];
      var mid :| Leads(t, front, mid) && Enabled(mid, last) && u == Apply(mid, last);
      ReachesOn(s, t, front, mid);
      ReachesMore(s, mid, last);
    }
  }

  lemma ReachesTransitive(s: State, t: State, u: State)
    requires Reaches(s, t) && Reaches(t, u)
    ensures Reaches(s, u)
  {
    var steps :| Leads(t, steps, u);
    ReachesOn(s, t, steps, u);
  }

  lemma ReachableReaches(s: State, t: State)
    requires Reachable(s) && Reaches(s, t)
    ensures Reachable(t)
  {
    var steps :| Leads(s, steps, t);
    ReachableOnwards(s, steps, t);
  }

  lemma AbortingInRange(s: State, k: nat)
    requires Reachable(s) && k in s.reverse.aborting
    ensures k < |s.reverse.requests|
  {
    ReachableInv(s);
  }

  /** What became of a response between the lock of the table in `mid` and `t`. */
  ghost predicate Discharged(mid: State, t: State)
    requires mid.reader.GotResponse?
  {
    if mid.reader.id in mid.calls.pending then
      var n := mid.calls.pending[mid.reader.id];
      && n < |t.calls.calls| && t.calls.calls[n].id == mid.reader.id
      && t.calls.calls[n].slot == if C.Live(t.calls, n) then Some(Answer(mid.reader.outcome)) else None
    else t.calls.calls == mid.calls.calls && t.calls.pending == mid.calls.pending
  }

  lemma BesideReachable(s: State, t: State)
    requires Reachable(s) && ReachesBeside(s, t)
    ensures Reachable(t)
  {
    var steps :| Leads(s, steps, t) && forall step: Step | step in steps :: !step.ReaderStep?;
    ReachableOnwards(s, steps, t);
  }

  /** The locked part: the sender of the call with that id is in hand. */
  lemma ResponseTaken(mid: State)
    requires Inv(mid) && mid.reader.GotResponse?
    ensures var t, id := ReaderApply(mid, Resolve), mid.reader.id;
            if id in mid.calls.pending then
              var n := mid.calls.pending[id];
              && t.reader.Delivering? && t.calls.hand == Some(C.InHand(n, mid.reader.outcome))
              && id == CallId(n + 1)
            else
              t.reader.Reading? && t.calls.calls == mid.calls.calls && t.calls.pending == mid.calls.pending
  {
    assert C.TableNamed(mid.calls) && C.Named(mid.calls);
    hide Inv;
  }

  /** The send: the call whose sender is in hand has nothing before it, and the
      outcome after it if somebody listens. */
  lemma ResponseSent(u: State)
    requires Inv(u) && ReaderEnabled(u, Deliver)
    ensures var calls, hand := ReaderApply(u, Deliver).calls, u.calls.hand.value;
            && hand.call < |calls.calls| && calls.calls[hand.call].id == CallId(hand.call + 1)
            && calls.calls[hand.call].slot == if C.Live(calls, hand.call) then Some(Answer(hand.outcome)) else None
  {
    var n := u.calls.hand.value.call;
    assert C.Named(u.calls) && C.OnePlace(u.calls) && C.InReadersHand(u.calls, n);
    hide Inv;
    assert C.Places(u.calls, n) <= (if C.Joined(u.calls, n) then 1 else 0);
    assert !C.Delivered(u.calls, n);
  }

  lemma ResponseIgnored(mid: State)
    requires Reachable(mid) && mid.reader.GotResponse? && !ReaderApply(mid, Resolve).reader.Delivering?
    ensures Discharged(mid, ReaderApply(mid, Resolve))
  {
    ReachableInv(mid);
    ResponseTaken(mid);
  }

  lemma ResponseHandled(mid: State, u: State)
    requires Reachable(mid) && mid.reader.GotResponse?
    requires Reachable(u) && ReaderEnabled(u, Deliver) && u.calls.hand == ReaderApply(mid, Resolve).calls.hand
    ensures Discharged(mid, ReaderApply(u, Deliver))
  {
    hide Inv, Reachable, C.Live;
    ReachableInv(mid);
    ReachableInv(u);
    ResponseTaken(mid);
    ResponseSent(u);
  }

  class Link {
    var state: State

    constructor ()
      ensures state == Initial && Reachable(state)
    {
      state := Initial;
      assert Leads(Initial, [], Initial);
    }

    /** Anything any task but the reader may do while the reader is not running. */
    method OthersRun()
      modifies this
      ensures ReachesBeside(old(state), state)
    {
      assert Leads(state, [], state);
    }

    /** The next atomic section of the reader, some time later. */
    method ReaderDoes(step: ReaderStep)
      requires Reachable(state) && ReaderEnabled(state, step) && !step.Reject? && !step.RejectFails?
      modifies this
      ensures Reachable(state) && Reaches(old(state), state)
      ensures exists mid :: ReaderUntouched(old(state), mid) && ReaderEnabled(mid, step)
                && ReachesBeside(old(state), mid) && state == ReaderApply(mid, step)
    {
      ghost var before := state;
      OthersRun();
      ghost var mid := state;
      ghost var steps :| Leads(before, steps, mid) && forall step: Step | step in steps :: !step.ReaderStep?;
      BesideTheReader(before, steps, mid);
      state := ReaderApply(state, step);
      ReachesMore(before, mid, ReaderStep(step));
      ReachableReaches(before, state);
    }

    /** A response: take the sender out of the table and use it. At the moment the
        table is locked (`mid`) its id is in the table or not; if it is, the call
        it stands for has the outcome in the end, unless its caller has gone. */
    method HandleResponse()
      requires Reachable(state) && state.reader.GotResponse?
      modifies this
      ensures Reachable(state) && Reaches(old(state), state)
      ensures state.reader.Reading? && state.log.read == old(state.log.read)
      ensures exists mid :: ReachesBeside(old(state), mid) && mid.reader == old(state.reader) && Discharged(mid, state)
    {
      hide Reachable, Reaches, ReachesBeside, Inv, Discharged;
      ghost var start := state;
      ReaderDoes(Resolve);
      ghost var mid :| ReachesBeside(start, mid) && mid.reader == start.reader && state == ReaderApply(mid, Resolve);
      BesideReachable(start, mid);
      if state.reader.Delivering? {
        ghost var taken := state;
        ReaderDoes(Deliver);
        ghost var u :| ReachesBeside(taken, u) && ReaderUntouched(taken, u) && ReaderEnabled(u, Deliver)
                       && state == ReaderApply(u, Deliver);
        BesideReachable(taken, u);
        ResponseHandled(mid, u);
        ReachesTransitive(start, taken, state);
      } else {
        ResponseIgnored(mid);
      }
      assert Discharged(mid, state);
    }

    /** A notification: the legacy log first, then the event log. */
    method HandleNotification()
      requires Reachable(state) && state.reader.GotNotification?
      modifies this
      ensures Reachable(state) && Reaches(old(state), state)
      ensures state.reader.Reading? && state.log.read == old(state.log.read)
    {
      ghost var start := state;
      ReaderDoes(Mirror);
      ghost var mid := state;
      ReaderDoes(Publish);
      ReachesTransitive(start, mid, state);
    }

    /** The reply of the reader itself: it waits while the queue is full. */
    method SendNotFound() returns (blocked: bool)
      requires Reachable(state) && state.reader.Rejecting? && state.reader.k < |state.reverse.requests|
      modifies this
      ensures Reachable(state) && Reaches(old(state), state) && state.log.read == old(state.log.read)
      ensures blocked ==> state.reader.Rejecting? && |state.channel.queue| >= OUTBOUND_QUEUE_CAP
      ensures !blocked ==> state.reader.Reading?
    {
      ghost var start := state;
      OthersRun();
      ghost var mid := state;
      ghost var steps :| Leads(start, steps, mid) && forall step: Step | step in steps :: !step.ReaderStep?;
      BesideTheReader(start, steps, mid);
      ReachableReaches(start, mid);
      blocked := false;
      if CanPush(state.channel) {
        state := ReaderApply(state, Reject);
        ReachesMore(start, mid, ReaderStep(Reject));
      } else if state.channel.closed {
        state := ReaderApply(state, RejectFails);
        ReachesMore(start, mid, ReaderStep(RejectFails));
      } else {
        blocked := true;
      }
      ReachableReaches(start, state);
    }

    /** Publishes a server request and consults the handler slot, once. */
    method PublishAndConsult()
      requires Reachable(state) && state.reader.GotRequest?
      modifies this
      ensures Reachable(state) && Reaches(old(state), state) && state.log.read == old(state.log.read)
      ensures state.reader.Spawning? || (state.reader.Rejecting? && state.reader.k < |state.reverse.requests|)
    {
      ghost var start := state;
      ReachableInv(state);
      ReaderDoes(PublishRequest);
      ghost var published := state;
      ReaderDoes(Consult);
      ReachesTransitive(start, published, state);
    }

    /** Spawns the handler and records its handle, in this order. */
    method SpawnAndRecord()
      requires Reachable(state) && state.reader.Spawning?
      modifies this
      ensures Reachable(state) && Reaches(old(state), state) && state.log.read == old(state.log.read)
      ensures state.reader.Reading?
    {
      ghost var start := state;
      ReachableInv(state);
      ReaderDoes(Spawn);
      ghost var spawned := state;
      ReaderDoes(Record);
      ReachesTransitive(start, spawned, state);
    }

    /** A server request: publish it, consult the slot once, then spawn the
        handler and record its handle, or answer. */
    method HandleServerRequest() returns (blocked: bool)
      requires Reachable(state) && state.reader.GotRequest?
      modifies this
      ensures Reachable(state) && Reaches(old(state), state) && state.log.read == old(state.log.read)
      ensures blocked ==> state.reader.Rejecting? && |state.channel.queue| >= OUTBOUND_QUEUE_CAP
      ensures !blocked ==> state.reader.Reading?
    {
      ghost var start := state;
      PublishAndConsult();
      ghost var consulted := state;
      blocked := false;
      if state.reader.Spawning? {
        SpawnAndRecord();
      } else {
        blocked := SendNotFound();
      }
      ReachesTransitive(start, consulted, state);
    }

    /** Empties the table of calls and tells every sender that was in it. */
    method DrainCalls(reason: string)
      requires Reachable(state) && state.reader == Draining(reason)
      modifies this
      ensures Reachable(state) && Reaches(old(state), state)
      ensures state.reader == AbortPending(reason) && state.log == old(state.log)
    {
      ghost var start := state;
      ReaderDoes(LockDrain);
      while state.calls.readerHeld != {}
        invariant Reachable(state) && Reaches(start, state)
        invariant state.reader == Telling(reason) && state.log == start.log
        decreases state.calls.readerHeld
      {
        ghost var mid := state;
        var n :| n in state.calls.readerHeld;
        ReaderDoes(Tell(n));
        ReachesTransitive(start, mid, state);
      }
      ghost var told := state;
      ReaderDoes(Told);
      ReachesTransitive(start, told, state);
    }

    /** Empties the table of handler tasks and aborts every one that was in it. */
    method AbortTasks(reason: string)
      requires Reachable(state) && state.reader == AbortPending(reason)
      modifies this
      ensures Reachable(state) && Reaches(old(state), state)
      ensures state.reader == Announcing(reason) && state.log == old(state.log)
    {
      ghost var start := state;
      ReaderDoes(LockAbort);
      while state.reverse.aborting != {}
        invariant Reachable(state) && Reaches(start, state)
        invariant state.reader == Aborting(reason) && state.log == start.log
        decreases state.reverse.aborting
      {
        hide Reachable, Reaches, Inv;
        ghost var mid := state;
        var k :| k in state.reverse.aborting;
        AbortingInRange(state, k);
        ReaderDoes(AbortOne(k));
        ReachesTransitive(start, mid, state);
      }
      ghost var aborted := state;
      ReaderDoes(AbortedAll);
      ReachesTransitive(start, aborted, state);
    }

    /** The ordered teardown: calls, handler tasks, terminal event, wake-up. */
    method Teardown(reason: string)
      requires Reachable(state) && state.reader == Draining(reason)
      modifies this
      ensures Reachable(state) && Reaches(old(state), state)
      ensures state.reader == ReaderExited(reason) && state.log.read == old(state.log.read)
    {
      ghost var start := state;
      DrainCalls(reason);
      ghost var drained := state;
      AbortTasks(reason);
      ghost var aborted := state;
      ReachesTransitive(start, drained, aborted);
      ReaderDoes(Announce);
      ghost var announced := state;
      ReachesTransitive(start, aborted, announced);
      ReaderDoes(Signal);
      ReachesTransitive(start, announced, state);
    }

    /** One frame: read it and do what its kind asks for. */
    method HandleFrame(frame: Inbound) returns (blocked: bool)
      requires Reachable(state) && state.reader.Reading?
      modifies this
      ensures Reachable(state) && Reaches(old(state), state)
      ensures state.log.read == old(state.log.read) + [frame]
      ensures blocked ==> state.reader.Rejecting? && |state.channel.queue| >= OUTBOUND_QUEUE_CAP
      ensures !blocked ==> state.reader.Reading?
    {
      ghost var start := state;
      ReaderDoes(Read(frame));
      ghost var read := state;
      blocked := false;
      match frame {
        case Response(_, _) => HandleResponse();
        case Notification(_) => HandleNotification();
        case Request(_, _) => blocked := HandleServerRequest();
      }
      ReachesTransitive(start, read, state);
    }

    /** The reader task, fed the frames the server sends until the stream ends
        for the given reason. Every section it executes is a step of the
        transition system; unless a full queue blocks it, it reads every frame
        and tears down. */
    method ReaderTask(frames: seq<Inbound>, reason: string) returns (blocked: bool)
      requires Reachable(state) && state.reader.Reading?
      modifies this
      ensures Reachable(state) && Reaches(old(state), state)
      ensures blocked ==> state.reader.Rejecting? && |state.channel.queue| >= OUTBOUND_QUEUE_CAP
      ensures !blocked ==>
                state.reader == ReaderExited(reason) && state.log.read == old(state.log.read) + frames
    {
      ghost var start := state;
      assert Leads(start, [], start);
      hide Leads, Reachable, Reaches;
      for i := 0 to |frames|
        invariant Reachable(state) && Reaches(start, state)
        invariant state.reader.Reading? && state.log.read == start.log.read + frames[..i]
      {
        ghost var before := state;
        blocked := HandleFrame(frames[i]);
        ReachesTransitive(start, before, state);
        if blocked {
          return;
        }
        assert frames[..i + 1] == frames[..i] + [frames[i]];
      }
      assert frames[..|frames|] == frames;
      ghost var done := state;
      ReaderDoes(Stop(reason));
      ghost var stopped := state;
      ReachesTransitive(start, done, stopped);
      Teardown(reason);
      ReachesTransitive(start, stopped, state);
      blocked := false;
    }

    /** The next atomic section of the writer, some time later. */
    method WriterDoes(step: WriterStep)
      requires Reachable(state) && WriterEnabled(state, step)
      modifies this
      ensures Reachable(state) && Reaches(old(state), state)
      ensures exists mid ::
                WriterUntouched(old(state), mid) && WriterEnabled(mid, step) && state == WriterApply(mid, step)
    {
      ghost var before := state;
      OthersThanWriterRun();
      ghost var mid := state;
      ghost var steps :| Leads(before, steps, mid) && forall step: Step | step in steps :: !step.WriterStep?;
      BesideTheWriter(before, steps, mid);
      state := WriterApply(state, step);
      ReachesMore(before, mid, WriterStep(step));
      ReachableReaches(before, state);
    }

    /** Anything any task but the writer may do while the writer is not running. */
    method OthersThanWriterRun()
      modifies this
      ensures ReachesBesideWriter(old(state), state)
    {
      assert Leads(state, [], state);
    }

    /** The writer task: it writes up to `budget` messages, is cancelled or hits
        a write error, and then empties the table of calls, tells every sender
        that was in it and only after that drops the queue. */
    method WriterTask(budget: nat) returns (idle: bool)
      requires Reachable(state) && state.writer.Receiving?
      modifies this
      ensures Reachable(state) && Reaches(old(state), state)
      ensures idle ==> state.writer.Receiving? && state.channel.queue == []
      ensures !idle ==> state.writer.WriterExited? && state.calls.writerHeld == {}
    {
      ghost var start := state;
      assert Leads(start, [], start);
      var i, failed := 0, false;
      while i < budget && !failed
        invariant Reachable(state) && Reaches(start, state)
        invariant if failed then state.writer.WriterDraining? else state.writer.Receiving?
        decreases budget - i
      {
        if state.channel.queue == [] {
          return true;
        }
        ghost var before := state;
        WriterDoes(Take);
        ghost var taken := state;
        ReachesTransitive(start, before, taken);
        if * {
          WriterDoes(Write);
        } else {
          WriterDoes(WriteFails);
          failed := true;
        }
        ReachesTransitive(start, taken, state);
        i := i + 1;
      }
      ghost var done := state;
      if !failed {
        WriterDoes(WriterStop);
        ReachesTransitive(start, done, state);
      }
      ghost var stopped := state;
      WriterTeardown();
      ReachesTransitive(start, stopped, state);
      idle := false;
    }

    method WriterTeardown()
      requires Reachable(state) && state.writer.WriterDraining?
      modifies this
      ensures Reachable(state) && Reaches(old(state), state)
      ensures state.writer.WriterExited? && state.calls.writerHeld == {}
    {
      ghost var start := state;
      WriterDoes(WriterLockDrain);
      while state.calls.writerHeld != {}
        invariant Reachable(state) && Reaches(start, state)
        invariant state.writer.WriterTelling?
        decreases state.calls.writerHeld
      {
        ghost var mid := state;
        var n :| n in state.calls.writerHeld;
        WriterDoes(WriterTell(n));
        ReachesTransitive(start, mid, state);
      }
      ghost var told := state;
      WriterDoes(WriterTold);
      ghost var closing := state;
      ReachesTransitive(start, told, closing);
      WriterDoes(DropReceiver);
      ReachesTransitive(start, closing, state);
    }

    /** Anything anybody may do while the future of call n is not polled. */
    method OthersThanCallRun(n: nat)
      requires Reachable(state)
      modifies this
      ensures Reachable(state) && Reaches(old(state), state) && CallUntouched(old(state), state, n)
    {
      ghost var before := state;
      EverythingButCallRuns(n);
      ghost var steps :| Leads(before, steps, state) && forall step: Step | step in steps :: !OfCall(step, n);
      BesideTheCall(before, steps, state, n);
      ReachableReaches(before, state);
    }

    method EverythingButCallRuns(n: nat)
      modifies this
      ensures ReachesBesideCall(old(state), state, n)
    {
      assert Leads(state, [], state);
    }

    /** Draws the next id. */
    method MintCall() returns (n: nat)
      requires Reachable(state)
      modifies this
      ensures Reachable(state) && Reaches(old(state), state)
      ensures n == |old(state.calls.calls)| && n < |state.calls.calls| && state.calls.calls[n].pc.Minted?
    {
      ghost var before := state;
      assert Leads(before, [], before);
      n := |state.calls.calls|;
      state := CallApply(state, Mint);
      ReachesMore(before, before, CallStep(Mint));
      ReachableReaches(before, state);
    }

    /** Registers the sender and queues the request. */
    method SendCall(n: nat)
      requires Reachable(state) && n < |state.calls.calls| && state.calls.calls[n].pc.Minted?
      modifies this
      ensures Reachable(state) && Reaches(old(state), state) && n < |state.calls.calls|
      ensures match state.calls.calls[n].pc
              case Registered => !state.channel.closed && |state.channel.queue| >= OUTBOUND_QUEUE_CAP
              case Waiting => true
              case Returned(result) => result == IoError && state.channel.closed
              case _ => false
    {
      ghost var start := state;
      OthersThanCallRun(n);
      ghost var mid := state;
      state := CallApply(state, Register(n));
      ReachesMore(start, mid, CallStep(Register(n)));
      ReachableReaches(start, state);
      ghost var registered := state;
      OthersThanCallRun(n);
      ReachesTransitive(start, registered, state);
      ghost var resumed := state;
      if CanPush(state.channel) {
        state := CallApply(state, Enqueue(n));
        ReachesMore(start, resumed, CallStep(Enqueue(n)));
      } else if state.channel.closed {
        state := CallApply(state, EnqueueFails(n));
        ReachesMore(start, resumed, CallStep(EnqueueFails(n)));
      }
      ReachableReaches(start, state);
    }

    /** Takes the payload, if there is one by now. */
    method AwaitCall(n: nat)
      requires Reachable(state) && n < |state.calls.calls| && state.calls.calls[n].pc.Waiting?
      modifies this
      ensures Reachable(state) && Reaches(old(state), state) && n < |state.calls.calls|
      ensures match state.calls.calls[n].pc
              case Waiting => state.calls.calls[n].slot.None?
              case Returned(_) => state.calls.calls[n].slot.Some?
              case _ => false
    {
      ghost var start := state;
      OthersThanCallRun(n);
      ghost var resumed := state;
      if state.calls.calls[n].slot.Some? {
        state := CallApply(state, Receive(n));
        ReachesMore(start, resumed, CallStep(Receive(n)));
        ReachableReaches(start, state);
      }
    }

    /** One call, with everything else going on between its sections. It is never
        told that its sender was lost, fails on the queue only when the queue is
        closed, and otherwise returns a response the server sent with its id or
        the reason it was told; `None` is a call still waiting. */
    method Call() returns (n: nat, r: Option<CallResult>)
      requires Reachable(state)
      modifies this
      ensures Reachable(state) && Reaches(old(state), state) && n < |state.calls.calls|
      ensures r.None? ==>
                || (state.calls.calls[n].pc.Waiting? && state.calls.calls[n].slot.None?)
                || (state.calls.calls[n].pc.Registered? && !state.channel.closed
                    && |state.channel.queue| >= OUTBOUND_QUEUE_CAP)
      ensures r.Some? ==> ResultExplained(state, n, r.value)
    {
      ghost var start := state;
      n := MintCall();
      ghost var minted := state;
      SendCall(n);
      ReachesTransitive(start, minted, state);
      if state.calls.calls[n].pc.Waiting? {
        ghost var sent := state;
        AwaitCall(n);
        ReachesTransitive(start, sent, state);
      }
      r := None;
      if state.calls.calls[n].pc.Returned? {
        r := Some(state.calls.calls[n].pc.result);
        ResultsExplained(state, n);
      }
    }
  }

  /** Where the result of a call comes from. */
  ghost predicate ResultExplained(s: State, n: nat, r: CallResult)
    requires n < |s.calls.calls|
  {
    var call := s.calls.calls[n];
    match r
    case Value(v) => Response(call.id, Result(v)) in s.log.read
    case ServerError(code, message) => Response(call.id, Error(code, message)) in s.log.read
    case DisconnectedError(reason) => call.slot == Some(Disconnected(reason))
    case IoError => s.channel.closed
  }

  lemma ResultsExplained(s: State, n: nat)
    requires Reachable(s) && n < |s.calls.calls| && s.calls.calls[n].pc.Returned?
    ensures ResultExplained(s, n, s.calls.calls[n].pc.result)
  {
    hide Reachable, C.FirstAnswer;
    ReturnsWhatWasDelivered(s, n);
    if s.calls.calls[n].pc.result != IoError && s.calls.calls[n].slot.value.Answer? {
      AnswerIsTheServers(s, n);
    }
  }
}
