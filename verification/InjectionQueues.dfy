/** The three injection buffers between producers and the agent loop. A drained
    batch is outstanding until the consumer applies it or puts it back. */
module InjectionQueues {

  datatype Item = Item(id: string, text: string)

  datatype Mode = All | OneAtATime

  datatype Target = Steer | FollowUp | NextTurn

  const U32_MAX: nat := 0xFFFF_FFFF

  datatype AbortSnapshot = AbortSnapshot(clearedSteer: seq<Item>, clearedFollowUp: seq<Item>, retained: nat)

  /** How many items one drain takes. */
  function Take(mode: Mode, queue: seq<Item>): (n: nat)
    ensures n <= |queue|
  {
    if mode.All? || queue == [] then |queue| else 1
  }

  // ----- the object -----------------------------------------------------

  class InjectionQueues {
    var steer: seq<Item>
    var steerMode: Mode
    var followUp: seq<Item>
    var followUpMode: Mode
    var nextTurn: seq<Item>

    constructor ()
      ensures forall t :: Contents(t) == []
      ensures ModeOf(Steer) == ModeOf(FollowUp) == OneAtATime
      ensures Shows(Initial)
    {
      steer, followUp, nextTurn := [], [], [];
      steerMode, followUpMode := OneAtATime, OneAtATime;
    }

    function Contents(t: Target): seq<Item>
      reads this
    {
      match t
      case Steer => steer
      case FollowUp => followUp
      case NextTurn => nextTurn
    }

    /** Next-turn always drains in one go. */
    function ModeOf(t: Target): Mode
      reads this
    {
      match t
      case Steer => steerMode
      case FollowUp => followUpMode
      case NextTurn => All
    }

    /** The books of a run show what the queues hold. */
    ghost predicate Shows(s: State)
      reads this
    {
      ShowsLane(s, Steer) && ShowsLane(s, FollowUp) && ShowsLane(s, NextTurn)
    }

    ghost predicate ShowsLane(s: State, t: Target)
      reads this
    {
      LaneOf(s, t).queue == Contents(t) && LaneOf(s, t).mode == ModeOf(t)
    }

    method SetMode(t: Target, mode: Mode, ghost s: State)
      modifies `steerMode, `followUpMode
      ensures old(Shows(s)) ==> Shows(Do(s, Step.SetMode(t, mode)))
      ensures ModeOf(t) == if t.NextTurn? then All else mode
      ensures forall u | u != t :: ModeOf(u) == old(ModeOf(u))
    {
      match t
      case Steer => steerMode := mode;
      case FollowUp => followUpMode := mode;
      case NextTurn =>
    }

    method Put(t: Target, queue: seq<Item>)
      modifies `steer, `followUp, `nextTurn
      ensures Contents(t) == queue
      ensures forall u | u != t :: Contents(u) == old(Contents(u))
    {
      match t
      case Steer => steer := queue;
      case FollowUp => followUp := queue;
      case NextTurn => nextTurn := queue;
    }

    method PushBack(t: Target, items: seq<Item>, ghost s: State)
      modifies `steer, `followUp, `nextTurn
      ensures old(Shows(s)) ==> Shows(Do(s, Push(t, items)))
      ensures Contents(t) == old(Contents(t)) + items
      ensures forall u | u != t :: Contents(u) == old(Contents(u))
    {
      for i := 0 to |items|
        invariant Contents(t) == old(Contents(t)) + items[..i]
        invariant forall u | u != t :: Contents(u) == old(Contents(u))
      {
        Put(t, Contents(t) + [items[i]]);
      }
    }

    method Drain(t: Target, ghost s: State) returns (batch: seq<Item>)
      modifies `steer, `followUp, `nextTurn
      ensures old(Shows(s)) ==>
                Shows(Do(s, Step.Drain(t))) && LaneOf(Do(s, Step.Drain(t)), t).out == LaneOf(s, t).out + [batch]
      ensures |batch| == Take(ModeOf(t), old(Contents(t))) && batch + Contents(t) == old(Contents(t))
      ensures ModeOf(t) == All ==> Contents(t) == []
      ensures ModeOf(t) == OneAtATime ==> |batch| <= 1 && (batch == [] <==> old(Contents(t)) == [])
      ensures forall u | u != t :: Contents(u) == old(Contents(u))
    {
      var queue := Contents(t);
      if ModeOf(t).All? {
        batch := queue;
        Put(t, []);
      } else if queue != [] {
        batch := [queue[0]];
        Put(t, queue[1..]);
      } else {
        batch := [];
      }
      assert old(Contents(t))[..|batch|] == batch && old(Contents(t))[|batch|..] == Contents(t);
    }

    method RestoreFront(t: Target, items: seq<Item>, ghost s: State, ghost b: nat)
      modifies `steer, `followUp, `nextTurn
      ensures old(Shows(s)) && b < |LaneOf(s, t).out| && LaneOf(s, t).out[b] == items ==> Shows(Do(s, Restore(t, b)))
      ensures Contents(t) == items + old(Contents(t))
      ensures forall u | u != t :: Contents(u) == old(Contents(u))
    {
      for i := |items| downto 0
        invariant Contents(t) == items[i..] + old(Contents(t))
        invariant forall u | u != t :: Contents(u) == old(Contents(u))
      {
        Put(t, [items[i]] + Contents(t));
      }
    }

    method Abort(ghost s: State) returns (snapshot: AbortSnapshot)
      modifies `steer, `followUp
      ensures old(Shows(s)) ==>
                && Shows(Do(s, Step.Abort))
                && Do(s, Step.Abort).steer.cleared == s.steer.cleared + snapshot.clearedSteer
                && Do(s, Step.Abort).followUp.cleared == s.followUp.cleared + snapshot.clearedFollowUp
      ensures snapshot.clearedSteer == old(steer) && snapshot.clearedFollowUp == old(followUp)
      ensures steer == followUp == []
      ensures |nextTurn| <= 4294967295 ==> snapshot.retained == |nextTurn|
      ensures |nextTurn| > 4294967295 ==> snapshot.retained == 4294967295
    {
      var clearedSteer, clearedFollowUp := steer, followUp;
      steer, followUp := [], [];
      snapshot := AbortSnapshot(clearedSteer, clearedFollowUp, if |nextTurn| <= U32_MAX then |nextTurn| else U32_MAX);
    }
  }

  // ----- runs -----------------------------------------------------------

  /** One queue with its books: what is out in drained batches, oldest first, and
      everything ever pushed, consumed and cleared. `kept` is what was pushed,
      without what aborts cleared. */
  datatype Lane = Lane(
    queue: seq<Item>,
    mode: Mode,
    out: seq<seq<Item>>,
    pushed: seq<Item>,
    consumed: seq<Item>,
    cleared: seq<Item>,
    kept: seq<Item>)

  datatype State = State(steer: Lane, followUp: Lane, nextTurn: Lane)

  function New(mode: Mode): Lane {
    Lane([], mode, [], [], [], [], [])
  }

  const Initial := State(New(OneAtATime), New(OneAtATime), New(All))

  datatype Step =
    | SetMode(target: Target, mode: Mode)
    | Push(target: Target, items: seq<Item>)
    | Drain(target: Target)
    | Restore(target: Target, batch: nat)
    | Consume(target: Target, batch: nat)
    | Abort

  function LaneOf(s: State, t: Target): Lane {
    match t
    case Steer => s.steer
    case FollowUp => s.followUp
    case NextTurn => s.nextTurn
  }

  function Pushed(l: Lane, items: seq<Item>): Lane {
    l.(queue := l.queue + items, pushed := l.pushed + items, kept := l.kept + items)
  }

  function Drained(l: Lane): Lane {
    var n := Take(l.mode, l.queue);
    l.(queue := l.queue[n..], out := l.out + [l.queue[..n]])
  }

  function Restored(l: Lane, b: nat): Lane {
    if b >= |l.out| then l
    else l.(queue := l.out[b] + l.queue, out := l.out[..b] + l.out[b + 1..])
  }

  function Consumed(l: Lane, b: nat): Lane {
    if b >= |l.out| then l
    else l.(consumed := l.consumed + l.out[b], out := l.out[..b] + l.out[b + 1..])
  }

  function Cleared(l: Lane): Lane {
    l.(queue := [], cleared := l.cleared + l.queue,
       kept := l.kept[..if |l.queue| <= |l.kept| then |l.kept| - |l.queue| else 0])
  }

  /** What a step does to the lane of one target; an abort spares next-turn. */
  function LaneDo(l: Lane, t: Target, step: Step): Lane {
    match step
    case SetMode(u, mode) => if u == t && !t.NextTurn? then l.(mode := mode) else l
    case Push(u, items) => if u == t then Pushed(l, items) else l
    case Drain(u) => if u == t then Drained(l) else l
    case Restore(u, b) => if u == t then Restored(l, b) else l
    case Consume(u, b) => if u == t then Consumed(l, b) else l
    case Abort => if t.NextTurn? then l else Cleared(l)
  }

  function Do(s: State, step: Step): State {
    State(LaneDo(s.steer, Steer, step), LaneDo(s.followUp, FollowUp, step), LaneDo(s.nextTurn, NextTurn, step))
  }

  function After(h: seq<Step>): State {
    if h == [] then Initial else Do(After(h[..|h| - 1]), h[|h| - 1])
  }

  function Flat(batches: seq<seq<Item>>): seq<Item> {
    if batches == [] then [] else batches[0] + Flat(batches[1..])
  }

  lemma {:induction false} FlatAppend(a: seq<seq<Item>>, b: seq<seq<Item>>)
    ensures Flat(a + b) == Flat(a) + Flat(b)
  {
    if a == [] {
      assert a + b == b;
    } else {
      assert (a + b)[1..] == a[1..] + b;
      FlatAppend(a[1..], b);
    }
  }

  lemma FlatCons(batch: seq<Item>, rest: seq<seq<Item>>)
    ensures Flat([batch] + rest) == batch + Flat(rest)
  {
  }

  /** One batch among others. */
  lemma FlatSplit(batches: seq<seq<Item>>, b: nat)
    requires b < |batches|
    ensures Flat(batches) == Flat(batches[..b]) + batches[b] + Flat(batches[b + 1..])
  {
    hide *;
    SplitAt(batches, b);
    FlatAround(batches[..b], batches[b], batches[b + 1..]);
  }

  lemma SplitAt(batches: seq<seq<Item>>, b: nat)
    requires b < |batches|
    ensures batches == batches[..b] + ([batches[b]] + batches[b + 1..])
  {
  }

  lemma FlatAround(before: seq<seq<Item>>, batch: seq<Item>, after: seq<seq<Item>>)
    ensures Flat(before + ([batch] + after)) == Flat(before) + batch + Flat(after)
  {
    hide *;
    FlatCons(batch, after);
    FlatAppend(before, [batch] + after);
    QueueGrows(Flat(before), batch, Flat(after));
  }

  lemma QueueGrows(out: seq<Item>, queue: seq<Item>, items: seq<Item>)
    ensures out + (queue + items) == out + queue + items
  {
  }

  // ----- conservation ---------------------------------------------------

  ghost predicate Balanced(l: Lane) {
    multiset(l.pushed) == multiset(l.consumed) + multiset(l.queue) + multiset(Flat(l.out)) + multiset(l.cleared)
  }

  lemma BalancedPush(l: Lane, items: seq<Item>)
    requires Balanced(l)
    ensures Balanced(Pushed(l, items)) && Balanced(Cleared(l))
  {
  }

  lemma BalancedDrain(l: Lane)
    requires Balanced(l)
    ensures Balanced(Drained(l))
  {
    var n := Take(l.mode, l.queue);
    FlatAppend(l.out, [l.queue[..n]]);
    assert Flat([l.queue[..n]]) == l.queue[..n];
    assert l.queue == l.queue[..n] + l.queue[n..];
    hide Flat;
  }

  lemma BalancedTake(l: Lane, b: nat)
    requires Balanced(l)
    ensures Balanced(Restored(l, b)) && Balanced(Consumed(l, b))
  {
    if b < |l.out| {
      FlatSplit(l.out, b);
      FlatAppend(l.out[..b], l.out[b + 1..]);
      hide Flat;
    }
  }

  lemma BalancedStep(l: Lane, t: Target, step: Step)
    requires Balanced(l)
    ensures Balanced(LaneDo(l, t, step))
  {
    hide Pushed, Drained, Restored, Consumed, Cleared;
    match step
    case SetMode(_, _) =>
    case Push(_, items) => BalancedPush(l, items);
    case Drain(_) => BalancedDrain(l);
    case Restore(_, b) => BalancedTake(l, b);
    case Consume(_, b) => BalancedTake(l, b);
    case Abort => BalancedPush(l, []);
  }

  /** In every run, whatever batches are restored or consumed in whatever order,
      no item is lost or doubled; nothing of the next-turn queue is ever cleared. */
  lemma {:induction false} ItemsConserved(h: seq<Step>, t: Target)
    ensures Balanced(LaneOf(After(h), t))
    ensures After(h).nextTurn.cleared == []
  {
    if h != [] {
      ItemsConserved(h[..|h| - 1], t);
      BalancedStep(LaneOf(After(h[..|h| - 1]), t), t, h[|h| - 1]);
      NextTurnKeepsItems(After(h[..|h| - 1]).nextTurn, h[|h| - 1]);
      hide Balanced, LaneDo;
    }
  }

  lemma NextTurnKeepsItems(l: Lane, step: Step)
    ensures LaneDo(l, NextTurn, step).cleared == l.cleared
  {
  }

  /** An abort leaves next-turn and everything out in batches alone. */
  lemma AbortSparesNextTurn(h: seq<Step>)
    ensures var s, z := After(h), After(h + [Abort]);
            && z.nextTurn == s.nextTurn
            && z.steer.queue == z.followUp.queue == []
            && z.steer.cleared == s.steer.cleared + s.steer.queue
            && z.followUp.cleared == s.followUp.cleared + s.followUp.queue
            && z.steer.out == s.steer.out && z.followUp.out == s.followUp.out
  {
  }

  /** An outstanding batch is settled by one step: applied, its items are consumed;
      put back, they are queued again in front. */
  lemma BatchSettled(h: seq<Step>, t: Target, b: nat)
    requires b < |LaneOf(After(h), t).out|
    ensures var l, used, back := LaneOf(After(h), t), LaneOf(After(h + [Consume(t, b)]), t),
                                 LaneOf(After(h + [Restore(t, b)]), t);
            && |used.out| == |back.out| == |l.out| - 1
            && used.consumed == l.consumed + l.out[b] && used.queue == l.queue
            && back.consumed == l.consumed && back.queue == l.out[b] + l.queue
  {
    assert (h + [Consume(t, b)])[..|h|] == h && (h + [Restore(t, b)])[..|h|] == h;
  }

  // ----- order ----------------------------------------------------------

  /** Batches are put back newest first and applied oldest first. */
  predicate Orderly(s: State, step: Step) {
    && (step.Restore? ==> step.batch + 1 == |LaneOf(s, step.target).out|)
    && (step.Consume? ==> step.batch == 0)
  }

  predicate OrderlyRun(h: seq<Step>) {
    h != [] ==> OrderlyRun(h[..|h| - 1]) && Orderly(After(h[..|h| - 1]), h[|h| - 1])
  }

  /** What is consumed, out and queued is, in this order, what was pushed and not
      cleared. */
  ghost predicate Fifo(l: Lane) {
    l.consumed + Flat(l.out) + l.queue == l.kept
  }

  lemma FifoPush(l: Lane, items: seq<Item>)
    requires Fifo(l)
    ensures Fifo(Pushed(l, items)) && Fifo(Cleared(l))
  {
  }

  lemma FifoDrain(l: Lane)
    requires Fifo(l)
    ensures Fifo(Drained(l))
  {
    var n := Take(l.mode, l.queue);
    var batch, rest := l.queue[..n], l.queue[n..];
    FlatAppend(l.out, [batch]);
    FlatCons(batch, []);
    assert [batch] + [] == [batch] && batch + Flat([]) == batch;
    hide Flat;
    Regroup(l.consumed, Flat(l.out), batch, rest);
    assert l.queue == batch + rest;
  }

  lemma Regroup(a: seq<Item>, b: seq<Item>, c: seq<Item>, d: seq<Item>)
    ensures a + (b + c) + d == a + b + (c + d)
  {
  }

  lemma FifoRestore(l: Lane)
    requires Fifo(l) && l.out != []
    ensures Fifo(Restored(l, |l.out| - 1))
  {
    var b := |l.out| - 1;
    FlatSplit(l.out, b);
    assert l.out[..b] + l.out[b + 1..] == l.out[..b];
    assert l.consumed + Flat(l.out[..b]) + (l.out[b] + l.queue) == l.consumed + (Flat(l.out[..b]) + l.out[b]) + l.queue;
  }

  lemma FifoConsume(l: Lane)
    requires Fifo(l)
    ensures Fifo(Consumed(l, 0))
  {
    if l.out != [] {
      assert l.out[..0] + l.out[1..] == l.out[1..];
      assert l.consumed + l.out[0] + Flat(l.out[1..]) + l.queue == l.consumed + (l.out[0] + Flat(l.out[1..])) + l.queue;
    }
  }

  lemma FifoStep(s: State, t: Target, step: Step)
    requires Fifo(LaneOf(s, t)) && Orderly(s, step)
    ensures Fifo(LaneOf(Do(s, step), t))
  {
    var l := LaneOf(s, t);
    match step
    case SetMode(_, mode) => assert Fifo(l.(mode := mode));
    case Push(_, items) => FifoPush(l, items);
    case Drain(_) => FifoDrain(l);
    case Restore(u, _) =>
      if u == t {
        FifoRestore(l);
      }
    case Consume(_, _) => FifoConsume(l);
    case Abort => FifoPush(l, []);
  }

  /** First in, first out: orderly runs consume items in the order of arrival. */
  lemma {:induction false} OrderlyRunsAreFifo(h: seq<Step>, t: Target)
    requires OrderlyRun(h)
    ensures Fifo(LaneOf(After(h), t))
  {
    if h != [] {
      OrderlyRunsAreFifo(h[..|h| - 1], t);
      FifoStep(After(h[..|h| - 1]), t, h[|h| - 1]);
      hide Fifo, Do;
    }
  }

  /** a is b with some items left out. */
  predicate Subsequence(a: seq<Item>, b: seq<Item>) {
    a == [] ||
    (b != [] &&
     ((a[|a| - 1] == b[|b| - 1] && Subsequence(a[..|a| - 1], b[..|b| - 1])) || Subsequence(a, b[..|b| - 1])))
  }

  lemma {:induction false} SubsequenceCut(a: seq<Item>, b: seq<Item>, k: nat)
    requires Subsequence(a, b) && k <= |a|
    ensures Subsequence(a[..k], b)
    decreases |b|
  {
    if 0 < k < |a| {
      if Subsequence(a, b[..|b| - 1]) {
        SubsequenceCut(a, b[..|b| - 1], k);
      } else {
        SubsequenceCut(a[..|a| - 1], b[..|b| - 1], k);
        assert a[..|a| - 1][..k] == a[..k];
      }
    } else if k == |a| {
      assert a[..k] == a;
    }
  }

  lemma SubsequenceSnoc(a: seq<Item>, b: seq<Item>, x: Item)
    requires Subsequence(a, b)
    ensures Subsequence(a + [x], b + [x])
  {
  }

  lemma {:induction false} SubsequencePush(a: seq<Item>, b: seq<Item>, items: seq<Item>)
    requires Subsequence(a, b)
    ensures Subsequence(a + items, b + items)
  {
    hide Subsequence;
    if items == [] {
      assert a + items == a && b + items == b;
    } else {
      var front, last := items[..|items| - 1], items[|items| - 1];
      SubsequencePush(a, b, front);
      SubsequenceSnoc(a + front, b + front, last);
      assert items == front + [last];
      assert a + items == a + front + [last] && b + items == b + front + [last];
    }
  }

  /** In an orderly run the items consumed, out and still queued, read in this
      order, are the pushed ones in their order of arrival, some left out; the
      ones left out are the cleared ones. */
  lemma {:induction false} ArrivalOrderKept(h: seq<Step>, t: Target)
    requires OrderlyRun(h)
    ensures var l := LaneOf(After(h), t);
            && Subsequence(l.consumed + Flat(l.out) + l.queue, l.pushed)
            && multiset(l.pushed) == multiset(l.consumed + Flat(l.out) + l.queue) + multiset(l.cleared)
  {
    OrderlyRunsAreFifo(h, t);
    ItemsConserved(h, t);
    KeptIsSubsequence(h, t);
    hide After, Subsequence;
  }

  lemma KeptStep(l: Lane, t: Target, step: Step)
    requires Subsequence(l.kept, l.pushed)
    ensures Subsequence(LaneDo(l, t, step).kept, LaneDo(l, t, step).pushed)
  {
    if step.Push? {
      SubsequencePush(l.kept, l.pushed, step.items);
    }
    SubsequenceCut(l.kept, l.pushed, if |l.queue| <= |l.kept| then |l.kept| - |l.queue| else 0);
    hide Subsequence;
  }

  lemma {:induction false} KeptIsSubsequence(h: seq<Step>, t: Target)
    ensures var l := LaneOf(After(h), t);
            Subsequence(l.kept, l.pushed)
  {
    if h != [] {
      KeptIsSubsequence(h[..|h| - 1], t);
      KeptStep(LaneOf(After(h[..|h| - 1]), t), t, h[|h| - 1]);
      hide Subsequence, LaneDo;
    }
  }

  // ----- putting everything back ----------------------------------------

  /** Restores every outstanding batch, newest first. */
  function RestoredAll(l: Lane): Lane
    decreases |l.out|
  {
    if l.out == [] then l else RestoredAll(Restored(l, |l.out| - 1))
  }

  lemma {:induction false} RestoredAllQueue(l: Lane)
    ensures RestoredAll(l).queue == Flat(l.out) + l.queue && RestoredAll(l).out == []
    decreases |l.out|
  {
    if l.out != [] {
      var b := |l.out| - 1;
      FlatSplit(l.out, b);
      assert l.out[..b] + l.out[b + 1..] == l.out[..b];
      RestoredAllQueue(Restored(l, b));
    }
  }

  /** Pushes, drains and mode changes of one queue, in any mix. */
  datatype Move = In(items: seq<Item>) | Out | Mode(mode: Mode)

  function Moved(l: Lane, moves: seq<Move>): Lane {
    if moves == [] then l
    else
      var before := Moved(l, moves[..|moves| - 1]);
      match moves[|moves| - 1]
      case In(items) => Pushed(before, items)
      case Out => Drained(before)
      case Mode(mode) => before.(mode := mode)
  }

  /** The same pushes with nothing drained. */
  function Undrained(queue: seq<Item>, moves: seq<Move>): seq<Item> {
    if moves == [] then queue
    else
      Undrained(queue, moves[..|moves| - 1]) +
      (if moves[|moves| - 1].In? then moves[|moves| - 1].items else [])
  }

  /** Restoring everything in reverse order of draining gives exactly the queue
      that would exist had nothing been drained, with pushes in between. */
  lemma {:induction false} RestoringUndoesDraining(l: Lane, moves: seq<Move>)
    requires l.out == []
    ensures RestoredAll(Moved(l, moves)).queue == Undrained(l.queue, moves)
  {
    RestoredAllQueue(Moved(l, moves));
    OutAndQueue(l, moves);
  }

  lemma {:induction false} OutAndQueue(l: Lane, moves: seq<Move>)
    requires l.out == []
    ensures Flat(Moved(l, moves).out) + Moved(l, moves).queue == Undrained(l.queue, moves)
  {
    if moves != [] {
      var before := Moved(l, moves[..|moves| - 1]);
      OutAndQueue(l, moves[..|moves| - 1]);
      DrainedStays(before);
      if moves[|moves| - 1].In? {
        QueueGrows(Flat(before.out), before.queue, moves[|moves| - 1].items);
      }
      hide Flat, Drained;
    }
  }

  /** A drained batch goes to the end of what is out, in front of the queue. */
  lemma DrainedStays(l: Lane)
    ensures Flat(Drained(l).out) + Drained(l).queue == Flat(l.out) + l.queue
  {
    var n := Take(l.mode, l.queue);
    FlatAppend(l.out, [l.queue[..n]]);
    assert Flat([l.queue[..n]]) == l.queue[..n];
    hide Flat;
    QueueGrows(Flat(l.out), l.queue[..n], l.queue[n..]);
    assert l.queue[..n] + l.queue[n..] == l.queue;
  }

  lemma SwapMatters(a: seq<Item>, b: seq<Item>, q: seq<Item>)
    ensures b + (a + q) == a + b + q <==> a + b == b + a
    ensures |a| == |b| ==> (a + b == b + a <==> a == b)
  {
    assert (b + (a + q))[..|a| + |b|] == b + a && (a + b + q)[..|a| + |b|] == a + b;
    assert b + (a + q) == b + a + q;
    assert (b + a)[..|b|] == b && (a + b)[..|a|] == a;
  }

  /** Two batches put back in the order they were drained come out right exactly
      when they commute; batches of one item only when they are equal. */
  lemma RestoringOldestFirst(l: Lane)
    requires |l.out| == 2
    ensures Restored(Restored(l, 0), 0).queue == Flat(l.out) + l.queue <==> l.out[0] + l.out[1] == l.out[1] + l.out[0]
    ensures |l.out[0]| == |l.out[1]| ==>
              (Restored(Restored(l, 0), 0).queue == Flat(l.out) + l.queue <==> l.out[0] == l.out[1])
  {
    var a, b := l.out[0], l.out[1];
    FlatCons(a, [b]);
    FlatCons(b, []);
    assert l.out == [a] + [b] && [b] + [] == [b] && b + Flat([]) == b;
    hide Flat;
    SwapMatters(a, b, l.queue);
    assert l.out[..0] + l.out[1..] == [b];
    assert Restored(l, 0).out == [b];
  }
}
