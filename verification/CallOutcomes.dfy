/** How the calls of a connection end, and that the end is final. */
module CallOutcomes {
  import opened Wrappers
  import opened Messages
  import opened Connection
  import opened ConnectionInvariant
  import opened ConnectionTheorems
  import C = Calls
  import R = Reverse

  /** Every call is where it was, under its id. */
  ghost predicate CallsStay(c: seq<C.Call>, d: seq<C.Call>) {
    |d| == |c| && forall n | 0 <= n < |c| :: d[n].pc == c[n].pc && d[n].id == c[n].id
  }

  /** Only the steps of a call move it. */
  lemma ReaderMovesNoCall(s: State, step: ReaderStep)
    requires ReaderEnabled(s, step)
    ensures CallsStay(s.calls.calls, ReaderApply(s, step).calls.calls)
  {
    hide R.Clashes, Push;
  }

  lemma WriterMovesNoCall(s: State, step: WriterStep)
    requires WriterEnabled(s, step)
    ensures CallsStay(s.calls.calls, WriterApply(s, step).calls.calls)
  {
  }

  // ----- giving up ------------------------------------------------------

  predicate IsDropped(s: State, n: nat) {
    n < |s.calls.calls| && s.calls.calls[n].pc.Dropped?
  }

  lemma DroppedByCall(s: State, step: CallStep, n: nat)
    requires CallEnabled(s, step)
    ensures IsDropped(CallApply(s, step), n) <==> IsDropped(s, n) || step == Abandon(n)
  {
    hide SenderGone, Push;
  }

  lemma DroppedStep(s: State, step: Step, n: nat)
    requires Enabled(s, step)
    ensures IsDropped(Apply(s, step), n) <==> IsDropped(s, n) || step == CallStep(Abandon(n))
  {
    hide CallApply, ReaderApply, WriterApply;
    match step
    case CallStep(call) => DroppedByCall(s, call, n);
    case ReaderStep(reader) => ReaderMovesNoCall(s, reader);
    case WriterStep(writer) => WriterMovesNoCall(s, writer);
    case _ => assert Apply(s, step).calls == s.calls;
  }

  /** The caller of a call has gone if and only if it gave up at some step. */
  lemma {:induction false} DroppedIffAbandoned(steps: seq<Step>, t: State, n: nat)
    requires Leads(Initial, steps, t)
    ensures IsDropped(t, n) <==> CallStep(Abandon(n)) in steps
    decreases |steps|
  {
    if steps != [] {
      var front, last := steps[..|steps| - 1], steps[|steps| - 1];
      var mid :| Leads(Initial, front, mid) && Enabled(mid, last) && t == Apply(mid, last);
      assert steps == front + [last];
      hide *;
      DroppedIffAbandoned(front, mid, n);
      DroppedStep(mid, last, n);
    }
  }

  // ----- the end is final -----------------------------------------------

  predicate HasEnded(s: State, n: nat) {
    n < |s.calls.calls| && (s.calls.calls[n].pc.Returned? || s.calls.calls[n].pc.Dropped?)
  }

  lemma EndedByCall(s: State, step: CallStep, n: nat)
    requires CallEnabled(s, step) && HasEnded(s, n)
    ensures HasEnded(CallApply(s, step), n) && CallApply(s, step).calls.calls[n] == s.calls.calls[n]
  {
    hide SenderGone, Push;
  }

  lemma EndedByReader(s: State, step: ReaderStep, n: nat)
    requires ReaderEnabled(s, step) && HasEnded(s, n)
    ensures HasEnded(ReaderApply(s, step), n) && ReaderApply(s, step).calls.calls[n] == s.calls.calls[n]
  {
    hide R.Clashes, Push;
  }

  lemma EndedByWriter(s: State, step: WriterStep, n: nat)
    requires WriterEnabled(s, step) && HasEnded(s, n)
    ensures HasEnded(WriterApply(s, step), n) && WriterApply(s, step).calls.calls[n] == s.calls.calls[n]
  {
  }

  lemma EndedStep(s: State, step: Step, n: nat)
    requires Enabled(s, step) && HasEnded(s, n)
    ensures HasEnded(Apply(s, step), n) && Apply(s, step).calls.calls[n] == s.calls.calls[n]
  {
    hide CallApply, ReaderApply, WriterApply;
    match step
    case CallStep(call) => EndedByCall(s, call, n);
    case ReaderStep(reader) => EndedByReader(s, reader, n);
    case WriterStep(writer) => EndedByWriter(s, writer, n);
    case _ => assert Apply(s, step).calls == s.calls;
  }

  /** A call that has returned or been given up is never touched again: not its
      result, and not its channel. */
  lemma {:induction false} EndIsFinal(s: State, steps: seq<Step>, t: State, n: nat)
    requires Leads(s, steps, t) && HasEnded(s, n)
    ensures HasEnded(t, n) && t.calls.calls[n] == s.calls.calls[n]
    decreases |steps|
  {
    if steps != [] {
      var front, last := steps[..|steps| - 1], steps[|steps| - 1];
      var mid :| Leads(s, front, mid) && Enabled(mid, last) && t == Apply(mid, last);
      EndIsFinal(s, front, mid, n);
      hide Enabled, Apply;
      EndedStep(mid, last, n);
    }
  }

  // ----- the reasons callers are told ------------------------------------

  ghost predicate ReasonsInv(s: State) {
    forall n | 0 <= n < |s.calls.calls| && s.calls.calls[n].slot.Some? && s.calls.calls[n].slot.value.Disconnected? ::
      var reason := s.calls.calls[n].slot.value.reason;
      reason == "writer task exited" || Reason(s.reader) == Some(reason)
  }

  lemma ReaderReasons(s: State, step: ReaderStep)
    requires ReasonsInv(s) && ReaderEnabled(s, step)
    ensures ReasonsInv(ReaderApply(s, step))
  {
    hide R.Clashes, Push;
  }

  lemma WriterReasons(s: State, step: WriterStep)
    requires ReasonsInv(s) && WriterEnabled(s, step)
    ensures ReasonsInv(WriterApply(s, step))
  {
  }

  lemma CallReasons(s: State, step: CallStep)
    requires ReasonsInv(s) && CallEnabled(s, step)
    ensures ReasonsInv(CallApply(s, step))
  {
    hide SenderGone, Push;
  }

  lemma ReasonsStep(s: State, step: Step)
    requires ReasonsInv(s) && Enabled(s, step)
    ensures ReasonsInv(Apply(s, step))
  {
    hide CallApply, ReaderApply, WriterApply;
    match step
    case CallStep(call) => CallReasons(s, call);
    case ReaderStep(reader) => ReaderReasons(s, reader);
    case WriterStep(writer) => WriterReasons(s, writer);
    case _ => assert Apply(s, step).calls == s.calls && Apply(s, step).reader == s.reader;
  }

  lemma {:induction false} ReasonsRun(steps: seq<Step>, t: State)
    requires Leads(Initial, steps, t)
    ensures ReasonsInv(t)
    decreases |steps|
  {
    if steps != [] {
      var front, last := steps[..|steps| - 1], steps[|steps| - 1];
      var mid :| Leads(Initial, front, mid) && Enabled(mid, last) && t == Apply(mid, last);
      hide *;
      ReasonsRun(front, mid);
      ReasonsStep(mid, last);
    }
  }

  /** A call that ends as disconnected is told why: that the writer exited, or the
      reason the reader stopped for. */
  lemma DisconnectedReason(s: State, n: nat)
    requires Reachable(s) && n < |s.calls.calls| && s.calls.calls[n].pc.Returned?
    requires s.calls.calls[n].pc.result.DisconnectedError?
    ensures s.calls.calls[n].pc.result == DisconnectedError("writer task exited")
            || Reason(s.reader) == Some(s.calls.calls[n].pc.result.reason)
  {
    var steps :| Leads(Initial, steps, s);
    ReasonsRun(steps, s);
    hide Leads;
    ReturnsWhatWasDelivered(s, n);
  }
}
