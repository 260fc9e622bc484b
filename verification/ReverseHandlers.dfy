/** Which handler serves a server request. */
module ReverseHandlers {
  import opened Wrappers
  import opened Connection
  import opened ConnectionInvariant
  import C = Calls
  import R = Reverse

  /** The handler a run has set last. */
  function HandlerAfter(steps: seq<Step>): Option<R.Handler> {
    if steps == [] then None
    else
      var last := steps[|steps| - 1];
      if last.SetHandler? then last.handler else HandlerAfter(steps[..|steps| - 1])
  }

  lemma ReaderKeepsHandler(s: State, step: ReaderStep)
    requires ReaderEnabled(s, step)
    ensures ReaderApply(s, step).reverse.handler == s.reverse.handler
  {
    hide R.Clashes, Push, C.Remove, C.DeliverHand, C.ReaderDrain, C.ReaderSend;
  }

  lemma HandlerStep(s: State, step: Step)
    requires Enabled(s, step)
    ensures Apply(s, step).reverse.handler == if step.SetHandler? then step.handler else s.reverse.handler
  {
    hide ReaderApply;
    match step
    case ReaderStep(reader) => ReaderKeepsHandler(s, reader);
    case CallStep(_) => hide CallEnabled, C.Places;
    case _ =>
  }

  lemma {:induction false} HandlerIsLastSet(steps: seq<Step>, s: State)
    requires Leads(Initial, steps, s)
    ensures s.reverse.handler == HandlerAfter(steps)
    decreases |steps|
  {
    if steps != [] {
      var front, last := steps[..|steps| - 1], steps[|steps| - 1];
      var mid :| Leads(Initial, front, mid) && Enabled(mid, last) && s == Apply(mid, last);
      hide Leads, Enabled, Apply;
      HandlerIsLastSet(front, mid);
      HandlerStep(mid, last);
    }
  }

  /** The request has been looked up. */
  predicate LookedUp(s: State, k: nat) {
    k < |s.reverse.requests| && !s.reverse.requests[k].phase.Seen?
  }

  /** The snapshot of a request that is looked up stays; it is taken by the one
      consultation of the request. */
  predicate SnapshotKept(s: State, step: Step, t: State, k: nat)
    requires k < |t.reverse.requests|
  {
    if LookedUp(s, k) then t.reverse.requests[k].snapshot == s.reverse.requests[k].snapshot
    else step == ReaderStep(Consult) && s.reader == Consulting(k) && t.reverse.requests[k].snapshot == s.reverse.handler
  }

  lemma ReaderSnapshot(s: State, step: ReaderStep, k: nat)
    requires PhasesInv(s) && ReaderEnabled(s, step) && LookedUp(ReaderApply(s, step), k)
    ensures SnapshotKept(s, ReaderStep(step), ReaderApply(s, step), k)
  {
    hide R.Clashes, Push, C.Remove, C.DeliverHand, C.ReaderDrain, C.ReaderSend;
  }

  lemma TaskSnapshot(s: State, step: TaskStep, k: nat)
    requires TaskEnabled(s, step) && LookedUp(TaskApply(s, step), k)
    ensures SnapshotKept(s, TaskStep(step), TaskApply(s, step), k)
  {
    hide Push;
  }

  lemma SnapshotStep(s: State, step: Step, k: nat)
    requires PhasesInv(s) && Enabled(s, step) && LookedUp(Apply(s, step), k)
    ensures SnapshotKept(s, step, Apply(s, step), k)
  {
    hide ReaderApply, TaskApply, PhasesInv;
    match step
    case ReaderStep(reader) => ReaderSnapshot(s, reader, k);
    case TaskStep(task) => TaskSnapshot(s, task, k);
    case _ => assert Apply(s, step).reverse.requests == s.reverse.requests;
  }

  /** Step number i of the run is the consultation of the request, and finds this
      handler as the one set last. */
  ghost predicate ConsultedAt(steps: seq<Step>, i: nat, mid: State, k: nat, handler: Option<R.Handler>) {
    && i < |steps| && Leads(Initial, steps[..i], mid)
    && mid.reader == Consulting(k) && steps[i] == ReaderStep(Consult) && handler == HandlerAfter(steps[..i])
  }

  lemma ConsultedBefore(steps: seq<Step>, last: Step, i: nat, mid: State, k: nat, handler: Option<R.Handler>)
    requires ConsultedAt(steps, i, mid, k, handler)
    ensures ConsultedAt(steps + [last], i, mid, k, handler)
  {
    assert (steps + [last])[..i] == steps[..i];
  }

  lemma ConsultedNow(steps: seq<Step>, mid: State, k: nat)
    requires Leads(Initial, steps, mid) && mid.reader == Consulting(k)
    ensures ConsultedAt(steps + [ReaderStep(Consult)], |steps|, mid, k, mid.reverse.handler)
  {
    assert (steps + [ReaderStep(Consult)])[..|steps|] == steps;
    HandlerIsLastSet(steps, mid);
  }

  /** A request is served by the handler that was set last when the reader consulted
      the slot for it, whatever is set before or after. */
  lemma {:induction false} ServedByHandlerOfTheMoment(steps: seq<Step>, s: State, k: nat) returns (i: nat, at: State)
    requires Leads(Initial, steps, s) && LookedUp(s, k)
    ensures ConsultedAt(steps, i, at, k, s.reverse.requests[k].snapshot)
    decreases |steps|
  {
    assert steps != [];
    var front, last := steps[..|steps| - 1], steps[|steps| - 1];
    var mid :| Leads(Initial, front, mid) && Enabled(mid, last) && s == Apply(mid, last);
    var kept := OneStepBack(front, last, mid, k);
    hide *;
    assert steps == front + [last];
    if kept {
      i, at := ServedByHandlerOfTheMoment(front, mid, k);
      ConsultedBefore(front, last, i, at, k, mid.reverse.requests[k].snapshot);
    } else {
      i, at := |front|, mid;
      ConsultedNow(front, mid, k);
    }
  }

  lemma OneStepBack(front: seq<Step>, last: Step, mid: State, k: nat) returns (kept: bool)
    requires Leads(Initial, front, mid) && Enabled(mid, last) && LookedUp(Apply(mid, last), k)
    ensures k < |Apply(mid, last).reverse.requests|
    ensures kept ==>
              && LookedUp(mid, k) && k < |mid.reverse.requests|
              && Apply(mid, last).reverse.requests[k].snapshot == mid.reverse.requests[k].snapshot
    ensures !kept ==>
              && last == ReaderStep(Consult) && mid.reader == Consulting(k)
              && Apply(mid, last).reverse.requests[k].snapshot == mid.reverse.handler
  {
    assert Reachable(mid);
    hide Enabled, Apply, PhasesInv, Leads;
    ReachableInv(mid);
    SnapshotStep(mid, last, k);
    kept := LookedUp(mid, k);
  }

  // ----- what the handler returned ---------------------------------------

  /** The task of the request has this result to report or has reported it. */
  predicate HasResult(s: State, k: nat, result: R.HandlerResult) {
    k < |s.reverse.requests| &&
    match s.reverse.requests[k].phase
    case Sending(r) => r == result
    case CleaningUp(r, _) => r == result
    case Ended(r, _) => r == result
    case _ => false
  }

  predicate WasCancelled(s: State, k: nat) {
    k < |s.reverse.requests| && s.reverse.requests[k].phase.Cancelled?
  }

  lemma ReaderKeepsResult(s: State, step: ReaderStep, k: nat, result: R.HandlerResult)
    requires PhasesInv(s) && ReaderEnabled(s, step)
    ensures HasResult(ReaderApply(s, step), k, result) <==> HasResult(s, k, result)
    ensures WasCancelled(s, k) ==> WasCancelled(ReaderApply(s, step), k)
  {
    hide R.Clashes, Push, C.Remove, C.DeliverHand, C.ReaderDrain, C.ReaderSend;
  }

  lemma TaskResult(s: State, step: TaskStep, k: nat, result: R.HandlerResult)
    requires TaskEnabled(s, step)
    ensures HasResult(TaskApply(s, step), k, result) ==> HasResult(s, k, result) || step == HandlerReturns(k, result)
    ensures HasResult(s, k, result) || step == HandlerReturns(k, result) ==>
              HasResult(TaskApply(s, step), k, result) || WasCancelled(TaskApply(s, step), k)
    ensures WasCancelled(s, k) ==> WasCancelled(TaskApply(s, step), k)
  {
    hide Push;
  }

  lemma ResultStep(s: State, step: Step, k: nat, result: R.HandlerResult)
    requires PhasesInv(s) && Enabled(s, step)
    ensures var t, now := Apply(s, step), step == TaskStep(HandlerReturns(k, result));
            && (HasResult(t, k, result) ==> HasResult(s, k, result) || now)
            && (HasResult(s, k, result) || now ==> HasResult(t, k, result) || WasCancelled(t, k))
            && (WasCancelled(s, k) ==> WasCancelled(t, k))
  {
    hide ReaderApply, TaskApply, PhasesInv, HasResult, WasCancelled;
    match step
    case ReaderStep(reader) => ReaderKeepsResult(s, reader, k, result);
    case TaskStep(task) => TaskResult(s, task, k, result);
    case _ =>
      assert Apply(s, step).reverse.requests == s.reverse.requests;
      SameResult(s, Apply(s, step), k, result);
  }

  lemma SameResult(s: State, t: State, k: nat, result: R.HandlerResult)
    requires t.reverse.requests == s.reverse.requests
    ensures HasResult(t, k, result) == HasResult(s, k, result) && WasCancelled(t, k) == WasCancelled(s, k)
  {
  }

  /** The result a task reports is what its handler returned; and what a handler
      returned is reported unless the teardown cancels its task. */
  lemma {:induction false} ResultIsTheHandlers(steps: seq<Step>, s: State, k: nat, result: R.HandlerResult)
    requires Leads(Initial, steps, s)
    ensures HasResult(s, k, result) ==> TaskStep(HandlerReturns(k, result)) in steps
    ensures TaskStep(HandlerReturns(k, result)) in steps ==> HasResult(s, k, result) || WasCancelled(s, k)
    decreases |steps|
  {
    if steps != [] {
      var front, last := steps[..|steps| - 1], steps[|steps| - 1];
      var mid :| Leads(Initial, front, mid) && Enabled(mid, last) && s == Apply(mid, last);
      assert steps == front + [last];
      assert Reachable(mid);
      hide Leads, Enabled, Apply, PhasesInv, HasResult, WasCancelled;
      ReachableInv(mid);
      hide Inv;
      ResultIsTheHandlers(front, mid, k, result);
      ResultStep(mid, last, k, result);
    }
  }

  /** A handler that returns never leaves its task stuck on a closed queue, nor on
      one with room: two steps end the task, its reply queued or given up. */
  lemma ReturnedTaskEnds(s: State, k: nat) returns (steps: seq<Step>, t: State)
    requires k < |s.reverse.requests| && s.reverse.requests[k].phase.Sending?
    requires s.channel.closed || CanPush(s.channel)
    ensures |steps| == 2 && Leads(s, steps, t) && k < |t.reverse.requests|
    ensures t.reverse.requests[k].phase == R.Ended(s.reverse.requests[k].phase.result, !s.channel.closed)
  {
    var send := TaskStep(if s.channel.closed then SendReplyFails(k) else SendReply(k));
    var mid := Apply(s, send);
    t := Apply(mid, TaskStep(CleanUp(k)));
    steps := [send] + [TaskStep(CleanUp(k))];
    assert Leads(s, [], s) && [] + [send] == [send];
    hide Leads;
    LeadsMore(s, [], s, send);
    LeadsMore(s, [send], mid, TaskStep(CleanUp(k)));
  }

  lemma LeadsMore(s: State, steps: seq<Step>, mid: State, step: Step)
    requires Leads(s, steps, mid) && Enabled(mid, step)
    ensures Leads(s, steps + [step], Apply(mid, step))
  {
    var more := steps + [step];
    assert more[..|more| - 1] == steps && more[|more| - 1] == step;
  }
}
