/** What holds of a connection in every reachable state and along every run. */
module ConnectionTheorems {
  import opened Wrappers
  import opened Messages
  import opened Connection
  import opened ConnectionInvariant
  import C = Calls
  import R = Reverse

  // ----- runs -----------------------------------------------------------

  lemma Go(s: State, step: Step) returns (t: State)
    requires Reachable(s) && Enabled(s, step)
    ensures t == Apply(s, step) && Reachable(t)
  {
    t := Apply(s, step);
    var steps :| Leads(Initial, steps, s);
    var more := steps + [step];
    assert more[..|more| - 1] == steps && more[|more| - 1] == step;
    assert Leads(Initial, more, t);
  }

  lemma {:induction false} ReachableOnwards(s: State, steps: seq<Step>, t: State)
    requires Reachable(s) && Leads(s, steps, t)
    ensures Reachable(t)
    decreases |steps|
  {
    if steps != [] {
      var front, last := steps[..|steps| - 1], steps[|steps| - 1];
      var mid :| Leads(s, front, mid) && Enabled(mid, last) && t == Apply(mid, last);
      ReachableOnwards(s, front, mid);
      var u := Go(mid, last);
    }
  }

  lemma {:induction false} LeadsDeterministic(s: State, steps: seq<Step>, t: State, u: State)
    requires Leads(s, steps, t) && Leads(s, steps, u)
    ensures t == u
    decreases |steps|
  {
    if steps != [] {
      var front, last := steps[..|steps| - 1], steps[|steps| - 1];
      var m :| Leads(s, front, m) && Enabled(m, last) && t == Apply(m, last);
      var n :| Leads(s, front, n) && Enabled(n, last) && u == Apply(n, last);
      LeadsDeterministic(s, front, m, n);
    }
  }

  // ----- one sender, one payload ----------------------------------------

  /** The sender of a live call is in exactly one of: the table under the id of
      the call, what one task drained, the reader's hand, the past. */
  lemma SenderInOnePlace(s: State, n: nat)
    requires Reachable(s) && n < |s.calls.calls|
    ensures C.Live(s.calls, n) ==> C.Places(s.calls, n) == 1
    ensures C.Joined(s.calls, n) ==> C.Places(s.calls, n) <= 1
    ensures n in s.calls.pending.Values <==> C.Tabled(s.calls, n)
  {
    ReachableInv(s);
    assert C.Live(s.calls, n) ==> C.Places(s.calls, n) == 1;
  }

  /** What is in a channel in `c` is in it in `d`. */
  ghost predicate SlotsKept(c: C.Calls, d: C.Calls) {
    && |c.calls| <= |d.calls|
    && forall n | 0 <= n < |c.calls| && c.calls[n].slot.Some? :: d.calls[n].slot == c.calls[n].slot
  }

  lemma CallSlots(s: State, step: CallStep)
    requires CallEnabled(s, step)
    ensures SlotsKept(s.calls, CallApply(s, step).calls)
  {
  }

  lemma ReaderSlots(s: State, step: ReaderStep)
    requires C.TableNamed(s.calls) && C.OnePlace(s.calls) && ReaderEnabled(s, step)
    ensures SlotsKept(s.calls, ReaderApply(s, step).calls)
  {
    match step
    case Deliver => C.DeliverPlaces(s.calls);
    case Tell(n) => C.ReaderSendPlaces(s.calls, n, s.reader.reason);
    case _ =>
  }

  lemma WriterSlots(s: State, step: WriterStep)
    requires C.TableNamed(s.calls) && C.OnePlace(s.calls) && WriterEnabled(s, step)
    ensures SlotsKept(s.calls, WriterApply(s, step).calls)
  {
  }

  lemma StepSlots(s: State, step: Step)
    requires Inv(s) && Enabled(s, step)
    ensures SlotsKept(s.calls, Apply(s, step).calls)
  {
    match step
    case CallStep(call) => CallSlots(s, call);
    case ReaderStep(reader) => ReaderSlots(s, reader);
    case WriterStep(writer) => WriterSlots(s, writer);
    case _ =>
  }

  /** Along every run a channel, once used, keeps its one payload. */
  lemma {:induction false} AtMostOnePayload(s: State, steps: seq<Step>, t: State)
    requires Inv(s) && Leads(s, steps, t)
    ensures SlotsKept(s.calls, t.calls)
    decreases |steps|
  {
    if steps != [] {
      var front, last := steps[..|steps| - 1], steps[|steps| - 1];
      var mid :| Leads(s, front, mid) && Enabled(mid, last) && t == Apply(mid, last);
      AtMostOnePayload(s, front, mid);
      RunKeeps(s, front, mid);
      StepSlots(mid, last);
    }
  }

  /** A response payload is a response the server sent with the id of the call,
      and the first one the reader resolved since the call registered. */
  lemma AnswerIsTheServers(s: State, n: nat)
    requires Reachable(s) && C.Delivered(s.calls, n) && s.calls.calls[n].slot.value.Answer?
    ensures exists i: nat ::
      && C.FirstAnswer(s.calls, n, i, s.calls.calls[n].slot.value.outcome)
      && Response(s.calls.calls[n].id, s.calls.calls[n].slot.value.outcome) in s.log.read
  {
    ReachableInv(s);
    var c, o := s.calls, s.calls.calls[n].slot.value.outcome;
    var i: nat :| C.FirstAnswer(c, n, i, o);
    ResolutionRead(Handled(s), i);
  }

  lemma {:induction false} ResolutionRead(read: seq<Inbound>, i: nat)
    requires i < |ResolutionsOf(read)|
    ensures var r := ResolutionsOf(read)[i]; Response(r.id, r.outcome) in read
  {
    var front := read[..|read| - 1];
    if i < |ResolutionsOf(front)| {
      ResolutionRead(front, i);
    }
  }

  /** A response with an id nobody waits for changes no call and no entry. */
  lemma UnmatchedResponseIgnored(s: State)
    requires s.reader.GotResponse? && s.reader.id !in s.calls.pending
    ensures Enabled(s, ReaderStep(Resolve))
    ensures var t := Apply(s, ReaderStep(Resolve));
      && t.calls.calls == s.calls.calls && t.calls.pending == s.calls.pending && t.reader == Reading
      && (forall n: nat :: !C.InReadersHand(t.calls, n))
  {
  }

  /** A call whose sender has been taken out of the table. */
  predicate TakenOut(s: State, n: nat) {
    C.Joined(s.calls, n) && s.calls.calls[n].id !in s.calls.pending
  }

  /** The table holds a call under its own id or not at all. */
  lemma TabledByOwnId(c: C.Calls, n: nat)
    requires C.Named(c) && C.TableNamed(c) && n < |c.calls|
    ensures C.Tabled(c, n) <==> c.calls[n].id in c.pending
  {
    if c.calls[n].id in c.pending {
      var m := c.pending[c.calls[n].id];
      assert c.calls[m].id == CallId(m + 1) && c.calls[n].id == CallId(n + 1);
      CallIdInjective(m + 1, n + 1);
    }
  }

  /** Once a response with the id of a call has been resolved since the call
      registered, the id is no longer in the table. */
  lemma ResolvedIdTakenOut(s: State, n: nat, i: nat)
    requires Reachable(s) && C.Joined(s.calls, n)
    requires s.calls.calls[n].since.resolvedBefore <= i < |s.calls.resolved|
    requires s.calls.resolved[i].id == s.calls.calls[n].id
    ensures TakenOut(s, n)
  {
    ReachableInv(s);
    TabledByOwnId(s.calls, n);
    assert C.TableUnanswered(s.calls);
  }

  lemma CallTakenOut(s: State, step: CallStep, n: nat)
    requires C.Named(s.calls) && C.TableNamed(s.calls) && CallEnabled(s, step) && TakenOut(s, n)
    ensures TakenOut(CallApply(s, step), n)
  {
    if step.Register? && s.calls.calls[step.n].id == s.calls.calls[n].id {
      CallIdInjective(step.n + 1, n + 1);
    }
  }

  lemma TakenOutStep(s: State, step: Step, n: nat)
    requires C.Named(s.calls) && C.TableNamed(s.calls) && Enabled(s, step) && TakenOut(s, n)
    ensures TakenOut(Apply(s, step), n)
  {
    match step
    case CallStep(call) => CallTakenOut(s, call, n);
    case ReaderStep(reader) => ReaderTakenOut(s, reader, n);
    case WriterStep(writer) => WriterTakenOut(s, writer, n);
    case _ => assert Apply(s, step).calls == s.calls;
  }

  lemma ReaderTakenOut(s: State, step: ReaderStep, n: nat)
    requires ReaderEnabled(s, step) && TakenOut(s, n)
    ensures TakenOut(ReaderApply(s, step), n)
  {
  }

  lemma WriterTakenOut(s: State, step: WriterStep, n: nat)
    requires WriterEnabled(s, step) && TakenOut(s, n)
    ensures TakenOut(WriterApply(s, step), n)
  {
  }

  /** And it never is again, in any continuation. */
  lemma {:induction false} TakenOutForGood(s: State, steps: seq<Step>, t: State, n: nat)
    requires Reachable(s) && Leads(s, steps, t) && TakenOut(s, n)
    ensures TakenOut(t, n)
    decreases |steps|
  {
    if steps != [] {
      var front, last := steps[..|steps| - 1], steps[|steps| - 1];
      var mid :| Leads(s, front, mid) && Enabled(mid, last) && t == Apply(mid, last);
      TakenOutForGood(s, front, mid, n);
      ReachableOnwards(s, front, mid);
      ReachableInv(mid);
      TakenOutStep(mid, last, n);
      hide Leads, Enabled, Apply, TakenOut;
    }
  }

  /** So a second response with the id of a call, whenever it comes, changes no
      call and no entry. */
  lemma RepeatedResponseIgnored(s: State, n: nat, i: nat, steps: seq<Step>, t: State)
    requires Reachable(s) && C.Joined(s.calls, n)
    requires s.calls.calls[n].since.resolvedBefore <= i < |s.calls.resolved|
    requires s.calls.resolved[i].id == s.calls.calls[n].id
    requires Leads(s, steps, t) && t.reader.GotResponse? && t.reader.id == s.calls.calls[n].id
    ensures Enabled(t, ReaderStep(Resolve))
    ensures var u := Apply(t, ReaderStep(Resolve));
            u.calls.calls == t.calls.calls && u.calls.pending == t.calls.pending && u.reader == Reading
  {
    ResolvedIdTakenOut(s, n, i);
    TakenOutForGood(s, steps, t, n);
    ReachableOnwards(s, steps, t);
    ReachableInv(s);
    ReachableInv(t);
    assert t.calls.calls[n].id == CallId(n + 1) && s.calls.calls[n].id == CallId(n + 1);
    UnmatchedResponseIgnored(t);
    hide Leads, Inv;
  }

  /** The queue error was returned on a closed queue. */
  ghost predicate QueueErrors(s: State) {
    forall n | 0 <= n < |s.calls.calls| && s.calls.calls[n].pc == C.Returned(IoError) :: s.channel.closed
  }

  lemma CallErrors(s: State, step: CallStep)
    requires QueueErrors(s) && CallEnabled(s, step)
    ensures QueueErrors(CallApply(s, step))
  {
    hide SenderGone;
  }

  lemma ReaderErrors(s: State, step: ReaderStep)
    requires QueueErrors(s) && ReaderEnabled(s, step)
    ensures QueueErrors(ReaderApply(s, step))
  {
    hide R.Clashes, Push;
  }

  lemma WriterErrors(s: State, step: WriterStep)
    requires QueueErrors(s) && WriterEnabled(s, step)
    ensures QueueErrors(WriterApply(s, step))
  {
  }

  lemma ErrorsStep(s: State, step: Step)
    requires QueueErrors(s) && Enabled(s, step)
    ensures QueueErrors(Apply(s, step))
  {
    match step
    case CallStep(call) => CallErrors(s, call);
    case ReaderStep(reader) => ReaderErrors(s, reader);
    case WriterStep(writer) => WriterErrors(s, writer);
    case _ =>
      assert Apply(s, step).calls == s.calls;
  }

  lemma {:induction false} ErrorsRun(steps: seq<Step>, t: State)
    requires Leads(Initial, steps, t)
    ensures QueueErrors(t)
    decreases |steps|
  {
    if steps != [] {
      var front, last := steps[..|steps| - 1], steps[|steps| - 1];
      var mid :| Leads(Initial, front, mid) && Enabled(mid, last) && t == Apply(mid, last);
      hide *;
      ErrorsRun(front, mid);
      ErrorsStep(mid, last);
    }
  }

  /** A call that has returned returned the error of a closed queue, or what its
      channel delivered. */
  lemma ReturnsWhatWasDelivered(s: State, n: nat)
    requires Reachable(s) && n < |s.calls.calls| && s.calls.calls[n].pc.Returned?
    ensures var call := s.calls.calls[n];
            if call.pc.result == IoError then s.channel.closed
            else call.slot.Some? && call.pc.result == ResultOf(call.slot.value)
  {
    ReachableInv(s);
    var steps :| Leads(Initial, steps, s);
    ErrorsRun(steps, s);
  }

  // ----- both tasks have exited -----------------------------------------

  ghost predicate BothExited(s: State) {
    s.reader.ReaderExited? && s.writer.WriterExited?
  }

  /** Once both tasks have exited, a call whose future is alive has its payload
      if and only if it registered before the later of the two drains. */
  lemma AnsweredUnlessLate(s: State, n: nat)
    requires Reachable(s) && BothExited(s) && C.Live(s.calls, n)
    ensures s.calls.calls[n].slot.Some? <==> !C.Late(s.calls, n)
  {
    ReachableInv(s);
    assert C.Places(s.calls, n) == 1;
    assert C.Joined(s.calls, n);
  }

  /** What is left to a live call once both tasks have exited: it takes its
      payload, or fails on the closed queue, or can only be dropped. */
  lemma StepsLeftToACall(s: State, n: nat)
    requires Reachable(s) && BothExited(s) && C.Live(s.calls, n)
    ensures CallEnabled(s, Receive(n)) <==> s.calls.calls[n].pc.Waiting? && !C.Late(s.calls, n)
    ensures CallEnabled(s, EnqueueFails(n)) <==> s.calls.calls[n].pc.Registered?
    ensures !CallEnabled(s, Enqueue(n)) && !CallEnabled(s, SenderLost(n))
  {
    ReachableInv(s);
    assert s.channel.closed;
    hide Inv, Reachable, C.Late, SenderGone;
    AnsweredUnlessLate(s, n);
    SenderNeverLost(s, n);
  }

  /** A call waits without an answer and nothing but its own caller can end that. */
  ghost predicate Hung(s: State, n: nat) {
    BothExited(s) && C.Late(s.calls, n) && s.calls.calls[n].pc.Waiting?
  }

  lemma HungSlot(s: State, n: nat)
    requires Inv(s) && Hung(s, n)
    ensures C.Tabled(s.calls, n) && s.calls.calls[n].slot.None?
  {
  }

  /** A step of a call leaves alone a call that waits with its sender in place. */
  lemma WaitingUntouched(s: State, step: CallStep, n: nat)
    requires CallEnabled(s, step) && step != Abandon(n) && n < |s.calls.calls|
    requires s.calls.calls[n].pc.Waiting? && s.calls.calls[n].slot.None? && !SenderGone(s, n)
    ensures var t := CallApply(s, step);
            && t.reader == s.reader && t.writer == s.writer
            && n < |t.calls.calls| && t.calls.calls[n] == s.calls.calls[n]
  {
    hide SenderGone, Push;
  }

  lemma HungCallStep(s: State, step: CallStep, n: nat)
    requires Inv(s) && Hung(s, n) && CallEnabled(s, step) && step != Abandon(n)
    ensures Hung(CallApply(s, step), n)
  {
    HungSlot(s, n);
    SenderNeverLost(s, n);
    WaitingUntouched(s, step, n);
    hide Inv, SenderGone, CallApply, CallEnabled;
  }

  lemma HungStep(s: State, step: Step, n: nat)
    requires Inv(s) && Hung(s, n) && Enabled(s, step) && step != CallStep(Abandon(n))
    ensures Hung(Apply(s, step), n)
  {
    hide Inv;
    if step.CallStep? {
      hide CallApply, CallEnabled;
      HungCallStep(s, step.call, n);
    }
  }

  /** A late call that got its request into the queue waits for ever, in every
      continuation in which its caller does not give up. */
  lemma {:induction false} HungForever(s: State, steps: seq<Step>, t: State, n: nat)
    requires Inv(s) && Hung(s, n) && Leads(s, steps, t) && CallStep(Abandon(n)) !in steps
    ensures Hung(t, n) && t.calls.calls[n].slot.None?
    decreases |steps|
  {
    if steps != [] {
      var front, last := steps[..|steps| - 1], steps[|steps| - 1];
      var mid :| Leads(s, front, mid) && Enabled(mid, last) && t == Apply(mid, last);
      HungForever(s, front, mid, n);
      RunKeeps(s, front, mid);
      HungStep(mid, last, n);
      StepKeeps(mid, last);
    }
    HungSlot(t, n);
    hide Inv, Enabled, Apply;
  }

  /** The reader stops and drains a table with nobody to tell. */
  lemma QuietDrain(s: State) returns (t: State)
    requires Reachable(s) && s.reader.Reading? && s.calls.pending == map[]
    ensures Reachable(t)
    ensures t == s.(reader := AbortPending("unexpected EOF"),
                    calls := s.calls.(readerHeld := {}, readerDrained := true, drainedByReader := {}))
  {
    t := Go(s, ReaderStep(Stop("unexpected EOF")));
    t := Go(t, ReaderStep(LockDrain));
    t := Go(t, ReaderStep(Told));
    hide Reachable;
  }

  /** The reader tears down with nothing to tell and nothing to abort. */
  lemma QuietTeardown(s: State) returns (t: State)
    requires Reachable(s) && s.reader.Reading? && s.calls.pending == map[] && s.reverse.table == map[]
    ensures Reachable(t) && t.reader.ReaderExited? && t.writer == s.writer && t.channel == s.channel
    ensures t.calls == s.calls.(readerHeld := {}, readerDrained := true, drainedByReader := {})
  {
    t := QuietDrain(s);
    t := Go(t, ReaderStep(LockAbort));
    t := Go(t, ReaderStep(AbortedAll));
    t := Go(t, ReaderStep(Announce));
    t := Go(t, ReaderStep(Signal));
  }

  /** Both tasks have drained the table; the queue is still open. */
  lemma BothDrained() returns (s: State)
    ensures Reachable(s) && s.reader.ReaderExited? && s.writer.Closing? && s.channel == Initial.channel
    ensures s.calls == C.Mint(C.Initial).(readerDrained := true, writerDrained := true)
  {
    assert Leads(Initial, [], Initial);
    s := Go(Initial, CallStep(Mint));
    s := QuietTeardown(s);
    s := Go(s, WriterStep(WriterStop));
    s := Go(s, WriterStep(WriterLockDrain));
    s := Go(s, WriterStep(WriterTold));
  }

  /** The window exists: between the drain of the writer and the drop of the
      queue a call can register and enqueue, and then it hangs. */
  lemma ACallCanHang() returns (s: State)
    ensures Reachable(s) && Hung(s, 0)
  {
    s := BothDrained();
    s := Go(s, CallStep(Register(0)));
    s := Go(s, CallStep(Enqueue(0)));
    s := Go(s, WriterStep(DropReceiver));
  }

  // ----- the order of teardown ------------------------------------------

  /** When the terminal event is in the log, every call whose sender the reader
      drained has been told the same reason, unless nobody listens to it. */
  lemma ToldBeforeAnnounced(s: State, n: nat)
    requires Reachable(s) && n in s.calls.drainedByReader && C.Live(s.calls, n)
    requires exists e :: e in s.log.events && e.DisconnectedEvent?
    ensures s.log.events != [] && s.log.events[|s.log.events| - 1].DisconnectedEvent?
    ensures s.calls.calls[n].slot == Some(Disconnected(s.log.events[|s.log.events| - 1].reason))
  {
    ReachableInv(s);
    NoDisconnectRead(Handled(s));
  }

  lemma {:induction false} NoDisconnectRead(read: seq<Inbound>)
    ensures forall e | e in EventsOf(read) :: !e.DisconnectedEvent?
  {
    if read != [] {
      NoDisconnectRead(read[..|read| - 1]);
    }
  }

  /** Exactly which live calls have no payload yet when the terminal event is
      published: those the writer drained and still holds, and those that
      registered after the reader's drain. */
  lemma UnansweredWhenAnnounced(s: State, n: nat)
    requires Reachable(s) && Announced(s.reader) && C.Live(s.calls, n)
    ensures s.calls.calls[n].slot.None? <==>
            n in s.calls.writerHeld || (C.Tabled(s.calls, n) && s.calls.calls[n].since.afterReaderDrain)
  {
    ReachableInv(s);
    assert C.Places(s.calls, n) == 1 && C.Joined(s.calls, n);
  }

  /** The exception occurs: a call can see the terminal event first. */
  lemma AnnouncedBeforeToldByWriter() returns (s: State)
    ensures Reachable(s) && Announced(s.reader)
    ensures C.Live(s.calls, 0) && !s.calls.calls[0].since.afterReaderDrain && s.calls.calls[0].slot.None?
  {
    assert Leads(Initial, [], Initial);
    s := Go(Initial, CallStep(Mint));
    s := Go(s, CallStep(Register(0)));
    s := Go(s, WriterStep(WriterStop));
    s := Go(s, WriterStep(WriterLockDrain));
    s := QuietTeardown(s);
  }

  /** `shutdown` is woken last: after every drained call was told, every drained
      handle aborted and the terminal event published. */
  lemma WorkerDoneIsLast(s: State)
    requires Reachable(s) && s.log.workerDone
    ensures s.calls.readerHeld == {} && s.reverse.aborting == {} && s.reverse.table == map[]
    ensures s.log.events != [] && s.log.events[|s.log.events| - 1].DisconnectedEvent?
    ensures forall n | n in s.calls.drainedByReader && C.Live(s.calls, n) :: s.calls.calls[n].slot.Some?
  {
    ReachableInv(s);
  }

  /** The four parts of the teardown come in order: every drained call is told,
      then the handler tasks are aborted, then the terminal event is published,
      then the waiters of `shutdown` are woken. */
  lemma TeardownInOrder(s: State)
    requires Reachable(s)
    ensures s.reverse.torn ==> s.calls.readerDrained && s.calls.readerHeld == {}
    ensures (exists e :: e in s.log.events && e.DisconnectedEvent?) ==>
              s.reverse.torn && s.reverse.aborting == {} && s.reverse.table == map[]
    ensures s.log.workerDone ==> exists e :: e in s.log.events && e.DisconnectedEvent?
  {
    ReachableInv(s);
    NoDisconnectRead(Handled(s));
    if s.log.workerDone {
      assert s.log.events[|s.log.events| - 1].DisconnectedEvent?;
    }
  }

  // ----- handler tasks at teardown --------------------------------------

  /** Some unfinished handler task is out of reach of `abort_all` while the
      reader is between two messages. */
  ghost predicate Untracked(s: State) {
    s.reader.Reading? &&
    exists k :: 0 <= k < |s.reverse.requests| && R.Unfinished(s.reverse.requests[k]) && !R.InTable(s.reverse, k)
  }

  lemma TrackedWithoutClash(s: State)
    requires Reachable(s) && !s.reverse.clash
    ensures !Untracked(s)
  {
    ReachableInv(s);
    forall k | 0 <= k < |s.reverse.requests| && R.Unfinished(s.reverse.requests[k]) && s.reader.Reading?
      ensures R.InTable(s.reverse, k)
    {
      assert R.Tracked(s.reverse, k);
    }
  }

  /** Without a clash `abort_all` has aborted every unfinished task by the time the
      terminal event is announced. */
  lemma AbortReachesTracked(s: State, k: nat)
    requires Reachable(s) && !s.reverse.clash
    requires s.reader.Announcing? || Announced(s.reader)
    requires k < |s.reverse.requests| && R.Unfinished(s.reverse.requests[k])
    ensures s.reverse.requests[k].aborted
  {
    ReachableInv(s);
    assert R.Tracked(s.reverse, k);
  }

  /** Reusing an id while its handler is unfinished loses track at once. */
  lemma ClashUntracks(s: State)
    requires Reachable(s) && Enabled(s, ReaderStep(Record)) && R.Clashes(s.reverse, s.reader.k)
    ensures Untracked(Apply(s, ReaderStep(Record)))
  {
  }

  /** A clash, once recorded, stays recorded, and comes only from `Record`. */
  lemma ClashStep(s: State, step: Step)
    requires Enabled(s, step)
    ensures s.reverse.clash ==> Apply(s, step).reverse.clash
    ensures !s.reverse.clash && Apply(s, step).reverse.clash ==>
              && step == ReaderStep(Record) && s.reader.Recording?
              && s.reader.k < |s.reverse.requests| && R.Clashes(s.reverse, s.reader.k)
  {
    hide C.Remove, C.DeliverHand, C.ReaderDrain, C.ReaderSend, C.Send, R.Clashes, Push;
  }

  /** The exact condition: handler tasks are tracked between messages all along
      a run if and only if no id was reused while its handler was unfinished. */
  lemma {:induction false} TrackedIffNoClash(steps: seq<Step>, t: State)
    requires Leads(Initial, steps, t)
    ensures t.reverse.clash <==>
            exists i, mid :: 0 <= i <= |steps| && Leads(Initial, steps[..i], mid) && Untracked(mid)
    decreases |steps|
  {
    assert Reachable(t);
    assert steps[..|steps|] == steps;
    if steps == [] {
      forall i, mid | 0 <= i <= |steps| && Leads(Initial, steps[..i], mid) ensures !Untracked(mid) {
      }
    } else {
      var front, last := steps[..|steps| - 1], steps[|steps| - 1];
      var m :| Leads(Initial, front, m) && Enabled(m, last) && t == Apply(m, last);
      assert Reachable(m);
      TrackedIffNoClash(front, m);
      ClashStep(m, last);
      forall i | 0 <= i < |steps| ensures steps[..i] == front[..i] {
      }
      if t.reverse.clash {
        if !m.reverse.clash {
          ClashUntracks(m);
          assert Leads(Initial, steps[..|steps|], t) && Untracked(t);
        }
      } else {
        TrackedWithoutClash(t);
        forall i, mid | 0 <= i <= |steps| && Leads(Initial, steps[..i], mid) ensures !Untracked(mid) {
          if i == |steps| {
            LeadsDeterministic(Initial, steps, mid, t);
          }
        }
      }
    }
  }

  /** The handle of a task that has ended. */
  predicate Stale(s: State, k: nat) {
    R.InTable(s.reverse, k) && s.reverse.requests[k].phase.Ended?
  }

  /** The task has ended and the reader has not inserted its handle yet. */
  predicate EndedEarly(s: State, k: nat) {
    s.reader == Recording(k) && k < |s.reverse.requests| && s.reverse.requests[k].phase.Ended?
  }

  /** A handle is left behind only by a task that ended before it was recorded:
      the table does not keep the handle of any other ended task. */
  lemma {:induction false} StaleOnlyIfEarly(steps: seq<Step>, t: State, k: nat)
    requires Leads(Initial, steps, t) && Stale(t, k)
    ensures exists i, mid :: 0 <= i <= |steps| && Leads(Initial, steps[..i], mid) && EndedEarly(mid, k)
    decreases |steps|
  {
    if steps != [] {
      var front, last := steps[..|steps| - 1], steps[|steps| - 1];
      var m :| Leads(Initial, front, m) && Enabled(m, last) && t == Apply(m, last);
      StaleStep(m, last, k);
      forall i | 0 <= i < |steps| ensures steps[..i] == front[..i] {
      }
      hide Enabled, Apply, Stale, EndedEarly;
      if Stale(m, k) {
        StaleOnlyIfEarly(front, m, k);
      } else {
        assert steps[..|steps| - 1] == front;
      }
    }
  }

  lemma StaleStep(s: State, step: Step, k: nat)
    requires Enabled(s, step) && Stale(Apply(s, step), k)
    ensures Stale(s, k) || EndedEarly(s, k)
  {
    match step
    case ReaderStep(reader) => ReaderStale(s, reader, k);
    case TaskStep(task) => TaskStale(s, task, k);
    case _ =>
      assert Apply(s, step).reverse.table == s.reverse.table && Apply(s, step).reverse.requests == s.reverse.requests;
  }

  lemma ReaderStale(s: State, step: ReaderStep, k: nat)
    requires ReaderEnabled(s, step) && Stale(ReaderApply(s, step), k)
    ensures Stale(s, k) || EndedEarly(s, k)
  {
  }

  lemma TaskStale(s: State, step: TaskStep, k: nat)
    requires TaskEnabled(s, step) && Stale(TaskApply(s, step), k)
    ensures Stale(s, k)
  {
  }

  /** A run in which two requests with one id are in flight at once: at the end
      the first handler task is unfinished and nothing has aborted it. */
  lemma ReusedIdEscapesAbort() returns (s: State)
    ensures Reachable(s) && s.reader.Announcing? && |s.reverse.requests| == 2
    ensures s.reverse.requests[0].phase.Running? && !s.reverse.requests[0].aborted
  {
    assert Leads(Initial, [], Initial);
    var name := "fs/read_text_file";
    var handler := Some(R.Handler({name}));
    s := Go(Initial, SetHandler(handler));
    s := SpawnHandler(s, Number(1), name);
    s := SpawnHandler(s, Number(1), name);
    var q := R.ServerRequest(Number(1), name, handler, R.Running, false);
    assert s.reverse.requests == [q, q];
    s := AbortTeardown(s, Number(1), 1);
  }

  /** The reader tears down with one handle to abort. */
  lemma AbortTeardown(s: State, id: Id, k: nat) returns (t: State)
    requires Reachable(s) && s.reader.Reading? && s.calls.pending == map[]
    requires s.reverse.table == map[id := k] && k < |s.reverse.requests|
    ensures Reachable(t) && t.reader.Announcing?
    ensures t.reverse.requests == s.reverse.requests[k := s.reverse.requests[k].(aborted := true)]
  {
    t := QuietDrain(s);
    t := Go(t, ReaderStep(LockAbort));
    assert s.reverse.table[id] == k;
    t := Go(t, ReaderStep(AbortOne(k)));
    t := Go(t, ReaderStep(AbortedAll));
  }

  /** The reader reads a request and finds a handler for it. */
  lemma AcceptRequest(s: State, id: Id, name: string) returns (t: State)
    requires Reachable(s) && s.reader.Reading? && R.Handles(s.reverse.handler, name)
    ensures Reachable(t) && t.reader == Spawning(|s.reverse.requests|) && t.calls == s.calls
    ensures t.channel == s.channel && t.writer == s.writer && t.log.read == s.log.read + [Request(id, name)]
    ensures var q := R.ServerRequest(id, name, s.reverse.handler, R.Accepted, false);
            t.reverse == s.reverse.(requests := s.reverse.requests + [q])
  {
    t := Go(s, ReaderStep(Read(Request(id, name))));
    t := Go(t, ReaderStep(PublishRequest));
    t := Go(t, ReaderStep(Consult));
    hide Reachable;
  }

  /** The reader reads a request, finds a handler, spawns it and records it. */
  lemma SpawnHandler(s: State, id: Id, name: string) returns (t: State)
    requires Reachable(s) && s.reader.Reading? && R.Handles(s.reverse.handler, name)
    ensures Reachable(t) && t.reader.Reading? && t.calls == s.calls
    ensures t.channel == s.channel && t.writer == s.writer && t.log.read == s.log.read + [Request(id, name)]
    ensures t.reverse.requests == s.reverse.requests + [R.ServerRequest(id, name, s.reverse.handler, R.Running, false)]
    ensures t.reverse.table == s.reverse.table[id := |s.reverse.requests|]
    ensures t.reverse.handler == s.reverse.handler && t.reverse.aborting == s.reverse.aborting
  {
    t := AcceptRequest(s, id, name);
    t := Go(t, ReaderStep(Spawn));
    t := Go(t, ReaderStep(Record));
  }

  // ----- replies --------------------------------------------------------

  /** Nothing is left to be done about the request. */
  predicate Settled(q: R.ServerRequest) {
    q.phase.Rejected? || q.phase.Ended? || q.phase.Cancelled?
  }

  /** A server request causes at most one reply, and exactly one once it is
      settled, unless the writer has exited or teardown aborted its task. */
  lemma OneReplyPerRequest(s: State, k: nat)
    requires Reachable(s) && k < |s.reverse.requests|
    ensures R.Replies(s.channel.accepted, k) <= 1
    ensures Settled(s.reverse.requests[k]) && R.Replies(s.channel.accepted, k) == 0 ==>
              s.channel.closed || (s.reverse.requests[k].aborted && ReaderTorn(s.reader))
  {
    ReachableInv(s);
    ReachableUnsent(s);
  }

  /** A reply given up was given up on a closed queue; a task cancelled was aborted. */
  ghost predicate UnsentInv(s: State) {
    forall k | 0 <= k < |s.reverse.requests| ::
      var q := s.reverse.requests[k];
      && (q.phase == R.Rejected(false) ==> s.channel.closed)
      && (q.phase.CleaningUp? && !q.phase.sent ==> s.channel.closed)
      && (q.phase.Ended? && !q.phase.sent ==> s.channel.closed)
      && (q.phase.Cancelled? ==> q.aborted)
  }

  lemma TaskUnsent(s: State, step: TaskStep)
    requires UnsentInv(s) && TaskEnabled(s, step)
    ensures UnsentInv(TaskApply(s, step))
  {
  }

  lemma ReaderUnsent(s: State, step: ReaderStep)
    requires UnsentInv(s) && RequestPhase(s) && ReaderEnabled(s, step)
    ensures UnsentInv(ReaderApply(s, step))
  {
    hide C.Remove, C.DeliverHand, C.ReaderDrain, C.ReaderSend, R.Clashes;
  }

  lemma UnsentStep(s: State, step: Step)
    requires UnsentInv(s) && RequestPhase(s) && Enabled(s, step)
    ensures UnsentInv(Apply(s, step))
  {
    match step
    case ReaderStep(reader) => ReaderUnsent(s, reader);
    case TaskStep(task) => TaskUnsent(s, task);
    case _ =>
  }

  lemma {:induction false} UnsentRun(steps: seq<Step>, t: State)
    requires Leads(Initial, steps, t)
    ensures UnsentInv(t)
    decreases |steps|
  {
    if steps != [] {
      var front, last := steps[..|steps| - 1], steps[|steps| - 1];
      var mid :| Leads(Initial, front, mid) && Enabled(mid, last) && t == Apply(mid, last);
      UnsentRun(front, mid);
      ReachableInv(mid);
      UnsentStep(mid, last);
    }
  }

  lemma ReachableUnsent(s: State)
    requires Reachable(s)
    ensures UnsentInv(s)
  {
    var steps :| Leads(Initial, steps, s);
    UnsentRun(steps, s);
  }

  /** Every reply carries the id of its request. Without the method in the one
      snapshot consulted it is the error -32601; otherwise it is the value or the
      error object the handler returned, or the error -32603 when it panicked. So
      the code is -32601 exactly when the method was not there, leaving aside
      error objects a handler returns. */
  lemma ReplyIsTheHandlers(s: State, i: nat)
    requires Reachable(s) && i < |s.channel.accepted| && s.channel.accepted[i].Reply?
    ensures var m := s.channel.accepted[i];
      && m.request < |s.reverse.requests|
      && var q := s.reverse.requests[m.request];
      && m.id == q.id
      && var handled := q.snapshot.Some? && q.name in q.snapshot.value.methods;
      && (!handled ==>
            m.outcome == Error(-32601, "client has no handler for reverse-RPC method \"" + q.name + "\""))
      && (handled ==>
            && (q.phase.CleaningUp? || q.phase.Ended?)
            && m.outcome == match q.phase.result
                            case Completed(value) => Result(value)
                            case Failed(code, message) => Error(code, message)
                            case Panicked => Error(-32603, "reverse handler panicked"))
      && (m.outcome.Error? && m.outcome.code == -32601 <==>
            || !handled
            || (q.phase.result.Failed? && q.phase.result.code == -32601))
  {
    ReachableInv(s);
    var m := s.channel.accepted[i];
    assert R.FollowsSnapshot(s.reverse.requests[m.request]);
  }

  // ----- the logs and the wire ------------------------------------------

  /** The notifications of the unified log. */
  function LegacyOf(events: seq<Event>): seq<Json> {
    if events == [] then []
    else
      var last := events[|events| - 1];
      LegacyOf(events[..|events| - 1]) + (if last.NotificationEvent? then [last.body] else [])
  }

  lemma {:induction false} LegacyOfEvents(read: seq<Inbound>)
    ensures LegacyOf(EventsOf(read)) == NotificationsOf(read)
  {
    if read != [] {
      var front, last := read[..|read| - 1], read[|read| - 1];
      LegacyOfEvents(front);
      if last.Response? {
        assert EventsOf(read) == EventsOf(front);
      } else {
        var events := EventsOf(read);
        assert |EventOf(last)| == 1 && events == EventsOf(front) + [EventOf(last)[0]];
        assert events[..|events| - 1] == EventsOf(front) && events[|events| - 1] == EventOf(last)[0];
      }
    }
  }

  /** Between two messages the legacy log is the notification projection of the
      unified log, and both tell exactly what was read. */
  lemma LegacyIsProjection(s: State)
    requires Reachable(s) && s.reader.Reading?
    ensures s.log.legacy == LegacyOf(s.log.events)
    ensures s.log.events == EventsOf(s.log.read)
  {
    ReachableInv(s);
    LegacyOfEvents(s.log.read);
  }

  lemma LegacySnoc(events: seq<Event>, e: Event)
    ensures LegacyOf(events + [e]) == LegacyOf(events) + (if e.NotificationEvent? then [e.body] else [])
  {
    assert (events + [e])[..|events|] == events;
  }

  /** In every state the legacy log is ahead: a notification is on it before it is
      on the unified log. */
  lemma LegacyIsAhead(s: State)
    requires Reachable(s)
    ensures LegacyOf(s.log.events) <= s.log.legacy
  {
    ReachableInv(s);
    assert LogInv(s);
    LegacyOfEvents(Handled(s));
    hide Reachable, Inv, LegacyOf, EventsOf, NotificationsOf, ResolutionsOf;
    if Announced(s.reader) {
      LegacySnoc(EventsOf(Handled(s)), DisconnectedEvent(Reason(s.reader).value));
    }
    if s.reader.Mirrored? {
      Unfold(s.log.read);
    }
  }

  /** The terminal event occurs at most once, at the end, and nothing follows. */
  lemma DisconnectedIsLast(s: State, i: nat)
    requires Reachable(s) && i < |s.log.events| && s.log.events[i].DisconnectedEvent?
    ensures i == |s.log.events| - 1
    ensures forall step | Enabled(s, step) :: Apply(s, step).log.events == s.log.events
  {
    ReachableInv(s);
    NoDisconnectRead(Handled(s));
    assert forall j | 0 <= j < |EventsOf(Handled(s))| :: EventsOf(Handled(s))[j] in EventsOf(Handled(s));
    hide Inv, EventsOf;
    forall step | Enabled(s, step) ensures Apply(s, step).log.events == s.log.events {
      EventsFinal(s, step);
    }
    hide Enabled, Apply;
  }

  lemma EventsFinal(s: State, step: Step)
    requires Announced(s.reader) && Enabled(s, step)
    ensures Apply(s, step).log.events == s.log.events
  {
  }

  /** The writer writes what was queued, in order and without a gap, and loses
      nothing until it stops. */
  lemma WireIsFifo(s: State)
    requires Reachable(s)
    ensures s.channel.wire <= s.channel.accepted && |s.channel.queue| <= 64
    ensures s.writer.Receiving? ==> s.channel.accepted == s.channel.wire + s.channel.queue
  {
    ReachableInv(s);
  }
}
