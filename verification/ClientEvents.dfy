/** The stream of client events, read from the broadcast log of a connection. */
module ClientEvents {
  import opened Wrappers
  import B = Broadcast
  import opened Connection
  import T = ConnectionTheorems
  import K = ConnectionTasks

  const DEFAULT_NOTIFICATION_BUFFER: nat := 256

  datatype StreamEvent = Published(event: Event) | LaggedBy(skipped: nat)

  /** The result of polling `next_event`. */
  datatype Poll = Ready(event: Option<StreamEvent>) | NotReady

  /** The terminal event, if any, is the last one of the log. */
  ghost predicate TerminalIsLast(log: seq<Event>) {
    forall i | 0 <= i < |log| - 1 :: !log[i].DisconnectedEvent?
  }

  lemma EventsKept(s: State, step: Step)
    requires Enabled(s, step)
    ensures s.log.events <= Apply(s, step).log.events
  {
  }

  /** The log of a connection only grows, and ends with its terminal event. */
  lemma {:induction false} EventLogGrows(s: State, steps: seq<Step>, t: State)
    requires Reachable(s) && Leads(s, steps, t)
    ensures s.log.events <= t.log.events && TerminalIsLast(t.log.events)
    decreases |steps|
  {
    if steps == [] {
      forall i | 0 <= i < |t.log.events| - 1 ensures !t.log.events[i].DisconnectedEvent? {
        if t.log.events[i].DisconnectedEvent? {
          T.DisconnectedIsLast(t, i);
        }
      }
    } else {
      var front, last := steps[..|steps| - 1], steps[|steps| - 1];
      var mid :| Leads(s, front, mid) && Enabled(mid, last) && t == Apply(mid, last);
      T.ReachableOnwards(s, steps, t);
      assert Leads(t, [], t);
      EventsKept(mid, last);
      hide *;
      EventLogGrows(s, front, mid);
      EventLogGrows(t, [], t);
    }
  }

  predicate Ended(log: seq<Event>) {
    log != [] && log[|log| - 1].DisconnectedEvent?
  }

  /** Read from position `from`, the events are those of the log in order, with
      each lag notice standing for exactly that many events, up to `to`. */
  ghost predicate Covers(log: seq<Event>, from: nat, events: seq<StreamEvent>, to: nat) {
    if events == [] then from == to
    else
      var last := events[|events| - 1];
      match last
      case Published(e) => 0 < to <= |log| && log[to - 1] == e && Covers(log, from, events[..|events| - 1], to - 1)
      case LaggedBy(n) => 0 < n <= to <= |log| && Covers(log, from, events[..|events| - 1], to - n)
  }

  lemma {:induction false} CoversGrows(log: seq<Event>, more: seq<Event>, from: nat, events: seq<StreamEvent>, to: nat)
    requires Covers(log, from, events, to) && log <= more
    ensures Covers(more, from, events, to)
  {
    if events != [] {
      var front, last := events[..|events| - 1], events[|events| - 1];
      CoversGrows(log, more, from, front, if last.Published? then to - 1 else to - last.skipped);
    }
  }

  lemma CoversMore(log: seq<Event>, from: nat, events: seq<StreamEvent>, to: nat, e: StreamEvent)
    requires Covers(log, from, events, to) && 0 < Weight(e) && to + Weight(e) <= |log|
    requires e.Published? ==> log[to] == e.event
    ensures Covers(log, from, events + [e], to + Weight(e))
  {
  }

  /** What a poll must yield: the missed count as soon as the window has moved
      past the cursor, else the next event, else the end or nothing; and the end
      for ever after the terminal event. */
  function PollOf(log: seq<Event>, closed: bool, cursor: nat, disconnected: bool): Poll {
    if disconnected then Ready(None)
    else if cursor + DEFAULT_NOTIFICATION_BUFFER < |log| then
      Ready(Some(LaggedBy(|log| - DEFAULT_NOTIFICATION_BUFFER - cursor)))
    else if cursor < |log| then Ready(Some(Published(log[cursor])))
    else if closed then Ready(None)
    else NotReady
  }

  /** In the window a poll yields the next event, behind it the exact number missed
      and nothing else, and at the end of an open log it waits. */
  lemma PollMeaning(log: seq<Event>, closed: bool, cursor: nat)
    ensures cursor < |log| <= cursor + 256 ==> PollOf(log, closed, cursor, false) == Ready(Some(Published(log[cursor])))
    ensures |log| > cursor + 256 ==>
              PollOf(log, closed, cursor, false) == Ready(Some(LaggedBy(|log| - 256 - cursor)))
    ensures |log| <= cursor ==> PollOf(log, closed, cursor, false) == if closed then Ready(None) else NotReady
    ensures PollOf(log, closed, cursor, true) == Ready(None)
  {
  }

  /** How many events of the log a stream event stands for. */
  function Weight(e: StreamEvent): nat {
    match e
    case Published(_) => 1
    case LaggedBy(n) => n
  }

  function TotalWeight(events: seq<StreamEvent>): nat {
    if events == [] then 0 else TotalWeight(events[..|events| - 1]) + Weight(events[|events| - 1])
  }

  /** Nothing is skipped silently: what was yielded accounts for every event
      between the subscription and the cursor. */
  lemma {:induction false} CoversCounts(log: seq<Event>, from: nat, events: seq<StreamEvent>, to: nat)
    requires Covers(log, from, events, to)
    ensures to == from + TotalWeight(events)
  {
    if events != [] {
      var front, last := events[..|events| - 1], events[|events| - 1];
      CoversCounts(log, from, front, if last.Published? then to - 1 else to - last.skipped);
    }
  }

  // ----- polling a live connection ---------------------------------------

  /** The states of one connection at some moments of one run. */
  ghost predicate Successive(states: seq<State>) {
    && states != [] && Reachable(states[0])
    && forall i | 0 <= i < |states| - 1 :: K.Reaches(states[i], states[i + 1])
  }

  /** From one moment to the next the log only grows, up to its terminal event. */
  lemma {:induction false} LogsGrow(states: seq<State>, i: nat)
    requires Successive(states) && i < |states|
    ensures Reachable(states[i]) && TerminalIsLast(states[i].log.events)
    ensures i > 0 ==> states[i - 1].log.events <= states[i].log.events
  {
    if i == 0 {
      assert Leads(states[0], [], states[0]);
      EventLogGrows(states[0], [], states[0]);
    } else {
      LogsGrow(states, i - 1);
      assert K.Reaches(states[i - 1], states[i - 1 + 1]);
      var steps :| Leads(states[i - 1], steps, states[i]);
      hide *;
      EventLogGrows(states[i - 1], steps, states[i]);
      T.ReachableOnwards(states[i - 1], steps, states[i]);
    }
  }

  /** Logs seen one after the other: each continues the one before. */
  ghost predicate Growing(logs: seq<seq<Event>>) {
    && logs != [] && (forall i | 0 <= i < |logs| :: TerminalIsLast(logs[i]))
    && (forall i | 0 <= i < |logs| - 1 :: logs[i] <= logs[i + 1])
  }

  function LogsOf(states: seq<State>): seq<seq<Event>> {
    seq(|states|, i requires 0 <= i < |states| => states[i].log.events)
  }

  lemma SuccessiveGrow(states: seq<State>)
    requires Successive(states)
    ensures Growing(LogsOf(states))
  {
    hide TerminalIsLast;
    forall i | 0 <= i < |states| ensures TerminalIsLast(LogsOf(states)[i]) {
      LogsGrow(states, i);
    }
    forall i | 0 <= i < |states| - 1 ensures LogsOf(states)[i] <= LogsOf(states)[i + 1] {
      LogsGrow(states, i + 1);
    }
  }

  predicate YieldsTerminal(p: Poll) {
    p.Ready? && p.event.Some? && p.event.value.Published? && p.event.value.event.DisconnectedEvent?
  }

  /** A poll before number j has yielded the terminal event. */
  ghost predicate Terminated(polls: seq<Poll>, j: nat) {
    exists i :: 0 <= i < j && i < |polls| && YieldsTerminal(polls[i])
  }

  /** The end is reported exactly from the terminal event on (`ended`: it was
      yielded before the first of the polls), unless the channel is closed. */
  ghost predicate EndReported(polls: seq<Poll>, closed: seq<bool>, ended: bool)
    requires |polls| <= |closed|
  {
    forall j | 0 <= j < |polls| ::
      && (ended || Terminated(polls, j) ==> polls[j] == Ready(None))
      && (polls[j] == Ready(None) ==> closed[j] || ended || Terminated(polls, j))
  }

  lemma EndReportedMore(polls: seq<Poll>, r: Poll, closed: seq<bool>, ended: bool)
    requires |polls| < |closed| && EndReported(polls, closed, ended)
    requires ended || Terminated(polls, |polls|) ==> r == Ready(None)
    requires r == Ready(None) ==> closed[|polls|] || ended || Terminated(polls, |polls|)
    ensures EndReported(polls + [r], closed, ended)
  {
    YieldsMore(polls, r);
    hide Terminated;
  }

  function Yields(polls: seq<Poll>): seq<StreamEvent> {
    if polls == [] then []
    else
      var last := polls[|polls| - 1];
      Yields(polls[..|polls| - 1]) + (if last.Ready? && last.event.Some? then [last.event.value] else [])
  }

  lemma YieldsMore(polls: seq<Poll>, r: Poll)
    ensures Yields(polls + [r]) == Yields(polls) + (if r.Ready? && r.event.Some? then [r.event.value] else [])
    ensures Terminated(polls + [r], |polls| + 1) <==> Terminated(polls, |polls|) || YieldsTerminal(r)
    ensures forall j | 0 <= j <= |polls| :: Terminated(polls + [r], j) <==> Terminated(polls, j)
  {
    var more := polls + [r];
    assert more[..|polls|] == polls && more[|polls|] == r;
    assert forall i | 0 <= i < |polls| :: more[i] == polls[i];
    if YieldsTerminal(r) {
      assert YieldsTerminal(more[|polls|]);
    }
    hide YieldsTerminal;
    forall j | 0 <= j <= |polls| ensures Terminated(more, j) <==> Terminated(polls, j) {
      if i :| 0 <= i < j && YieldsTerminal(polls[i]) {
        assert YieldsTerminal(more[i]);
      }
    }
  }

  /** How far a poll moves the cursor. */
  function Gain(p: Poll): nat {
    if p.Ready? && p.event.Some? then Weight(p.event.value) else 0
  }

  /** Where the cursor was at each poll, and that each of them did what it must. */
  ghost predicate Traced(logs: seq<seq<Event>>, closed: seq<bool>, polls: seq<Poll>, cursors: seq<nat>, ended: bool)
    requires |polls| <= |logs| == |closed|
  {
    && |cursors| == |polls| + 1
    && forall i | 0 <= i < |polls| ::
         && polls[i] == PollOf(logs[i], closed[i], cursors[i], ended || Terminated(polls, i))
         && cursors[i + 1] == cursors[i] + Gain(polls[i])
  }

  lemma TracedMore(logs: seq<seq<Event>>, closed: seq<bool>, polls: seq<Poll>, cursors: seq<nat>, ended: bool, r: Poll)
    requires |polls| < |logs| == |closed| && Traced(logs, closed, polls, cursors, ended)
    requires r == PollOf(logs[|polls|], closed[|polls|], cursors[|polls|], ended || Terminated(polls, |polls|))
    ensures Traced(logs, closed, polls + [r], cursors + [cursors[|polls|] + Gain(r)], ended)
  {
    YieldsMore(polls, r);
    hide Terminated, PollOf, Gain;
  }

  lemma CoversPoll(log: seq<Event>, from: nat, events: seq<StreamEvent>, to: nat, closed: bool, ended: bool, r: Poll)
    requires Covers(log, from, events, to) && to <= |log| && r == PollOf(log, closed, to, ended)
    ensures to + Gain(r) <= |log|
    ensures Covers(log, from, events + (if r.Ready? && r.event.Some? then [r.event.value] else []), to + Gain(r))
  {
    if r.Ready? && r.event.Some? {
      CoversMore(log, from, events, to, r.event.value);
    } else {
      assert events + [] == events;
    }
  }

  /** No poll finds the cursor behind the window. */
  ghost predicate KeepsUp(logs: seq<seq<Event>>, cursors: seq<nat>) {
    forall i | 0 <= i < |logs| && i < |cursors| :: |logs[i]| <= cursors[i] + 256
  }

  lemma {:induction false} YieldsPublished(polls: seq<Poll>)
    requires forall p | p in polls :: !(p.Ready? && p.event.Some? && p.event.value.LaggedBy?)
    ensures forall e | e in Yields(polls) :: e.Published?
  {
    if polls != [] {
      YieldsPublished(polls[..|polls| - 1]);
      assert polls[|polls| - 1] in polls;
    }
  }

  /** A reader that keeps up gets exactly the published part of the log. */
  lemma NothingMissed(logs: seq<seq<Event>>, closed: seq<bool>, polls: seq<Poll>, cursors: seq<nat>, ended: bool,
                      log: seq<Event>, from: nat, to: nat)
    requires |polls| == |logs| == |closed| && Traced(logs, closed, polls, cursors, ended)
    requires Covers(log, from, Yields(polls), to) && KeepsUp(logs, cursors) && to <= |log|
    ensures from <= to && Yields(polls) == AsPublished(log[from..to])
  {
    forall p | p in polls ensures !(p.Ready? && p.event.Some? && p.event.value.LaggedBy?) {
      var i :| 0 <= i < |polls| && polls[i] == p;
      assert |logs[i]| <= cursors[i] + 256;
    }
    YieldsPublished(polls);
    CoversWithoutLag(log, from, Yields(polls), to);
  }

  function LogBefore(logs: seq<seq<Event>>, n: nat): seq<Event>
    requires logs != [] && n <= |logs|
  {
    logs[if n == 0 then 0 else n - 1]
  }

  /** All that is kept from poll to poll. */
  ghost predicate Followed(logs: seq<seq<Event>>, closed: seq<bool>, polls: seq<Poll>, cursors: seq<nat>, ended: bool)
    requires logs != [] && |polls| <= |logs| == |closed|
  {
    && EndReported(polls, closed, ended)
    && Traced(logs, closed, polls, cursors, ended)
    && Covers(LogBefore(logs, |polls|), cursors[0], Yields(polls), cursors[|polls|])
    && cursors[|polls|] <= |LogBefore(logs, |polls|)|
  }

  lemma FollowedMore(logs: seq<seq<Event>>, closed: seq<bool>, polls: seq<Poll>, cursors: seq<nat>, ended: bool,
                     r: Poll)
    requires Growing(logs) && |polls| < |logs| == |closed| && Followed(logs, closed, polls, cursors, ended)
    requires r == PollOf(logs[|polls|], closed[|polls|], cursors[|polls|], ended || Terminated(polls, |polls|))
    ensures Followed(logs, closed, polls + [r], cursors + [cursors[|polls|] + Gain(r)], ended)
  {
    var n, log := |polls|, logs[|polls|];
    LogSteps(logs, n);
    assert |cursors| == n + 1 by {
      hide Growing, Covers, EndReported, PollOf, Terminated, Yields, Gain;
    }
    hide Growing, Covers, Traced, EndReported, PollOf, Terminated, Yields, Gain, LogBefore;
    PollMeaning(log, closed[n], cursors[n]);
    EndReportedMore(polls, r, closed, ended);
    TracedMore(logs, closed, polls, cursors, ended, r);
    CoversGrows(LogBefore(logs, n), log, cursors[0], Yields(polls), cursors[n]);
    CoversPoll(log, cursors[0], Yields(polls), cursors[n], closed[n], ended || Terminated(polls, n), r);
    YieldsMore(polls, r);
    LogAfter(logs, n);
  }

  lemma LogAfter(logs: seq<seq<Event>>, n: nat)
    requires n < |logs|
    ensures LogBefore(logs, n + 1) == logs[n]
  {
  }

  lemma NothingPolled(logs: seq<seq<Event>>, closed: seq<bool>, cursor: nat, ended: bool)
    requires logs != [] && |logs| == |closed| && cursor <= |logs[0]|
    ensures Followed(logs, closed, [], [cursor], ended) && Yields([]) == [] && !Terminated([], 0)
    ensures LogBefore(logs, 0) == logs[0]
  {
  }

  lemma LogSteps(logs: seq<seq<Event>>, i: nat)
    requires Growing(logs) && i < |logs|
    ensures LogBefore(logs, i + 1) == logs[i] && LogBefore(logs, i) <= logs[i] && TerminalIsLast(logs[i])
  {
  }

  lemma FollowedToEnd(logs: seq<seq<Event>>, closed: seq<bool>, polls: seq<Poll>, cursors: seq<nat>, ended: bool)
    requires logs != [] && |polls| == |logs| == |closed| && Followed(logs, closed, polls, cursors, ended)
    ensures EndReported(polls, closed, ended) && Traced(logs, closed, polls, cursors, ended)
    ensures |cursors| == |logs| + 1
    ensures var log, from, to := logs[|logs| - 1], cursors[0], cursors[|logs|];
            && to <= |log|
            && (KeepsUp(logs, cursors) ==> from <= to && Yields(polls) == AsPublished(log[from..to]))
  {
    var log := LogBefore(logs, |logs|);
    if KeepsUp(logs, cursors) {
      NothingMissed(logs, closed, polls, cursors, ended, log, cursors[0], cursors[|logs|]);
    }
    hide KeepsUp, Covers, Yields, Traced, EndReported;
  }

  /** What a stream yields, event by event, when it misses nothing. */
  function AsPublished(events: seq<Event>): seq<StreamEvent> {
    seq(|events|, i requires 0 <= i < |events| => Published(events[i]))
  }

  /** Without a lag notice, what was yielded is the published part of the log. */
  lemma {:induction false} CoversWithoutLag(log: seq<Event>, from: nat, events: seq<StreamEvent>, to: nat)
    requires Covers(log, from, events, to) && forall e | e in events :: e.Published?
    ensures from <= to && (events != [] ==> to <= |log|)
    ensures to <= |log| ==> events == AsPublished(log[from..to])
  {
    if events != [] {
      var front, last := events[..|events| - 1], events[|events| - 1];
      CoversWithoutLag(log, from, front, to - 1);
      assert events == front + [last] && last in events;
      assert AsPublished(log[from..to]) == AsPublished(log[from..to - 1]) + [Published(log[to - 1])];
    }
  }

  class ClientEventStream {
    var cursor: nat
    var disconnected: bool
    ghost const start: nat
    ghost var yielded: seq<StreamEvent>

    /** The stream has read a part of the log without silent gaps, and it is
        marked terminal exactly when it has yielded the terminal event. */
    ghost predicate Valid(log: seq<Event>)
      reads this
    {
      && start <= cursor <= |log|
      && TerminalIsLast(log)
      && Covers(log, start, yielded, cursor)
      && (disconnected <==> start < cursor && cursor == |log| && Ended(log))
    }

    /** Subscribing: the receiver starts at the end of the log. */
    constructor (log: seq<Event>)
      requires TerminalIsLast(log)
      ensures Valid(log) && yielded == [] && start == |log| && !disconnected
    {
      cursor, disconnected := |log|, false;
      start, yielded := |log|, [];
    }

    method NextEvent(log: seq<Event>, closed: bool) returns (r: Poll)
      requires Valid(log)
      modifies this
      ensures Valid(log)
      ensures r == PollOf(log, closed, old(cursor), old(disconnected))
      ensures r.Ready? && r.event.Some? ==>
                yielded == old(yielded) + [r.event.value] && cursor == old(cursor) + Weight(r.event.value)
      ensures disconnected <==> old(disconnected) || YieldsTerminal(r)
      ensures r.NotReady? || r.event.None? ==>
                yielded == old(yielded) && cursor == old(cursor) && disconnected == old(disconnected)
    {
      if disconnected {
        return Ready(None);
      }
      var received := B.Receive(log, DEFAULT_NOTIFICATION_BUFFER, closed, cursor);
      match received {
        case Item(e) =>
          disconnected := e.DisconnectedEvent?;
          r := Ready(Some(Published(e)));
        case Lagged(n) =>
          r := Ready(Some(LaggedBy(n)));
        case Closed =>
          r := Ready(None);
        case NothingYet =>
          r := NotReady;
      }
      cursor := B.Advance(cursor, received);
      if r.Ready? && r.event.Some? {
        CoversMore(log, start, yielded, old(cursor), r.event.value);
        yielded := yielded + [r.event.value];
      }
    }

    /** More events do not invalidate what was read. */
    lemma ValidGrows(log: seq<Event>, more: seq<Event>)
      requires Valid(log) && log <= more && TerminalIsLast(more)
      ensures Valid(more)
    {
      CoversGrows(log, more, start, yielded, cursor);
    }

    /** One poll at each of some successive moments of a connection. What was
        yielded accounts for the log, without a silent gap, up to the cursor; and
        the end is reported exactly from the terminal event on, if the channel is
        not closed by other means. A reader that keeps up misses nothing: what it
        gets is exactly the published part of the log. */
    method Follow(states: seq<State>, closed: seq<bool>) returns (polls: seq<Poll>, ghost cursors: seq<nat>)
      requires Successive(states) && |closed| == |states| && Valid(states[0].log.events)
      modifies this
      ensures |polls| == |states| && Valid(states[|states| - 1].log.events)
      ensures yielded == old(yielded) + Yields(polls)
      ensures Covers(states[|states| - 1].log.events, start, yielded, cursor)
      ensures EndReported(polls, closed, old(disconnected))
      ensures Traced(LogsOf(states), closed, polls, cursors, old(disconnected))
      ensures cursors[0] == old(cursor) && cursors[|states|] == cursor
      ensures KeepsUp(LogsOf(states), cursors) ==>
                && old(cursor) <= cursor <= |states[|states| - 1].log.events|
                && Yields(polls) == AsPublished(states[|states| - 1].log.events[old(cursor)..cursor])
    {
      SuccessiveGrow(states);
      var logs := LogsOf(states);
      assert logs[0] == states[0].log.events && logs[|logs| - 1] == states[|states| - 1].log.events;
      hide *;
      polls, cursors := PollEach(logs, closed);
    }

    /** The same over the logs alone. */
    method PollEach(logs: seq<seq<Event>>, closed: seq<bool>) returns (polls: seq<Poll>, ghost cursors: seq<nat>)
      requires Growing(logs) && |closed| == |logs| && Valid(logs[0])
      modifies this
      ensures |polls| == |logs| && Valid(logs[|logs| - 1])
      ensures yielded == old(yielded) + Yields(polls)
      ensures EndReported(polls, closed, old(disconnected))
      ensures Traced(logs, closed, polls, cursors, old(disconnected)) && |cursors| == |logs| + 1
      ensures cursors[0] == old(cursor) && cursors[|logs|] == cursor
      ensures KeepsUp(logs, cursors) ==>
                && old(cursor) <= cursor <= |logs[|logs| - 1]|
                && Yields(polls) == AsPublished(logs[|logs| - 1][old(cursor)..cursor])
    {
      polls, cursors := [], [cursor];
      NothingPolled(logs, closed, cursor, disconnected);
      LogSteps(logs, |logs| - 1);
      hide Growing, Followed, Traced, Terminated, EndReported, LogBefore, Yields, KeepsUp, Covers, Ended;
      hide TerminalIsLast, Gain, AsPublished, Valid;
      for i := 0 to |logs|
        invariant |polls| == i && |cursors| == i + 1 && cursors[0] == old(cursor) && cursors[i] == cursor
        invariant Valid(LogBefore(logs, i)) && Followed(logs, closed, polls, cursors, old(disconnected))
        invariant yielded == old(yielded) + Yields(polls)
        invariant disconnected <==> old(disconnected) || Terminated(polls, i)
      {
        var r := PollNext(logs, closed, polls, cursors, old(disconnected), old(yielded));
        cursors := cursors + [cursor];
        polls := polls + [r];
      }
      FollowedToEnd(logs, closed, polls, cursors, old(disconnected));
    }

    /** One of the polls: the next of the logs has been reached. */
    method PollNext(logs: seq<seq<Event>>, closed: seq<bool>, polls: seq<Poll>, ghost cursors: seq<nat>,
                    ghost ended: bool, ghost before: seq<StreamEvent>)
      returns (r: Poll)
      requires Growing(logs) && |polls| < |logs| == |closed| && |cursors| == |polls| + 1
      requires cursors[|polls|] == cursor && Valid(LogBefore(logs, |polls|))
      requires yielded == before + Yields(polls)
      requires Followed(logs, closed, polls, cursors, ended) && (disconnected <==> ended || Terminated(polls, |polls|))
      modifies this
      ensures Valid(LogBefore(logs, |polls| + 1)) && cursor == cursors[|polls|] + Gain(r)
      ensures Followed(logs, closed, polls + [r], cursors + [cursor], ended)
      ensures yielded == before + Yields(polls + [r])
      ensures disconnected <==> ended || Terminated(polls + [r], |polls| + 1)
    {
      var n := |polls|;
      hide Growing, Followed, Terminated, LogBefore, Covers, TerminalIsLast, Ended, PollOf, YieldsTerminal;
      LogSteps(logs, n);
      ValidGrows(LogBefore(logs, n), logs[n]);
      r := NextEvent(logs[n], closed[n]);
      FollowedMore(logs, closed, polls, cursors, ended, r);
      YieldsMore(polls, r);
      hide Yields;
      if r.Ready? && r.event.Some? {
        assert before + Yields(polls) + [r.event.value] == before + (Yields(polls) + [r.event.value]);
      } else {
        assert Yields(polls) + [] == Yields(polls);
      }
    }

    /** However far behind, a stream subscribed before the end reaches the
        terminal event by reading on, and no lag skips it. */
    method ReadToEnd(log: seq<Event>, closed: bool)
      requires Valid(log) && Ended(log) && !disconnected && cursor < |log|
      modifies this
      ensures Valid(log) && disconnected && cursor == |log|
      ensures yielded != [] && yielded[|yielded| - 1] == Published(log[|log| - 1])
    {
      hide Covers, TerminalIsLast;
      while !disconnected
        invariant Valid(log)
        invariant !disconnected ==> cursor < |log|
        invariant disconnected ==> yielded != [] && yielded[|yielded| - 1] == Published(log[|log| - 1])
        decreases |log| - cursor
      {
        var r := NextEvent(log, closed);
      }
    }
  }
}
