/** The per-turn event loop of the ACP bridge: it filters a lossy stream of
    engine events to one thread and turn and turns them into session updates. */
module StreamTurn {
  import opened Wrappers

  datatype DeltaKind = TextDelta | ReasoningDelta | OtherDelta

  /** A tool call carries its provider id, when it has one, and a body (title,
      status, content, raw input and output) that is passed through. */
  datatype Item =
    | AgentMessage(text: string)
    | AgentThought(text: string)
    | Reasoning(text: string)
    | ToolCall(id: string, providerId: Option<string>, body: string)
    | Plan(steps: string)
    | SystemNotice(message: string)
    | OtherItem

  datatype Event =
    | ItemDelta(thread: string, turn: string, delta: string, kind: DeltaKind)
    | ItemAppended(thread: string, turn: string, item: Item)
    | PermissionRequested(thread: string, request: nat)
    | TurnCompleted(thread: string, turn: string)
    | TurnFailed(thread: string, turn: string, message: string)
    | SessionAborted(thread: string)
    | OtherEvent

  datatype Received = Got(event: Event) | Lagged(skipped: nat)

  datatype Update =
    | MessageChunk(text: string)
    | ThoughtChunk(text: string)
    | ToolCallStart(id: string, body: string)
    | ToolCallUpdate(id: string, body: string)
    | PlanUpdate(steps: string)

  datatype StopReason = EndTurn | Cancelled

  /** What the permission round trip comes back with. */
  datatype Flow = Resumed | FlowCancelled

  /** The turn being streamed, and how each of its permission requests ends. */
  datatype Turn = Turn(thread: string, turn: string, flow: nat -> Flow)

  datatype Output = Output(updates: seq<Update>, stop: StopReason, sessionRemoved: bool)

  // ----- conversions ----------------------------------------------------

  /** The provider's id when there is one, else the item id. */
  function ToolCallId(item: Item): string
    requires item.ToolCall?
  {
    if item.providerId.Some? then item.providerId.value else item.id
  }

  function DeltaUpdate(delta: string, kind: DeltaKind): Update {
    if kind.ReasoningDelta? then ThoughtChunk(delta) else MessageChunk(delta)
  }

  /** Everything but a tool call; agent text and reasoning are suppressed because
      they have been streamed as deltas. */
  function ItemUpdate(item: Item): Option<Update> {
    match item
    case AgentThought(text) => Some(ThoughtChunk(text))
    case Plan(steps) => Some(PlanUpdate(steps))
    case SystemNotice(message) => Some(MessageChunk(message))
    case ToolCall(_, _, body) => Some(ToolCallStart(ToolCallId(item), body))
    case _ => None
  }

  /** The first sighting of an id announces the call, later ones update it. */
  function ToolUpdate(item: Item, seen: set<string>): (Update, set<string>)
    requires item.ToolCall?
  {
    var id := ToolCallId(item);
    if id in seen then (ToolCallUpdate(id, item.body), seen) else (ToolCallStart(id, item.body), seen + {id})
  }

  // ----- one event ------------------------------------------------------

  datatype Outcome = Continue | Stop(reason: StopReason, removed: bool)

  /** The effect of one received event: updates sent, ids seen, whether to stop. */
  datatype Effect = Effect(updates: seq<Update>, seen: set<string>, next: Outcome)

  predicate Own(t: Turn, thread: string, turn: string) {
    thread == t.thread && turn == t.turn
  }

  function Handle(t: Turn, e: Event, seen: set<string>): Effect {
    match e
    case ItemDelta(thread, turn, delta, kind) =>
      Effect(if Own(t, thread, turn) then [DeltaUpdate(delta, kind)] else [], seen, Continue)
    case ItemAppended(thread, turn, item) =>
      if !Own(t, thread, turn) then Effect([], seen, Continue)
      else if item.ToolCall? then
        var (update, more) := ToolUpdate(item, seen);
        Effect([update], more, Continue)
      else
        Effect(if ItemUpdate(item).Some? then [ItemUpdate(item).value] else [], seen, Continue)
    case PermissionRequested(thread, request) =>
      var cancelled := thread == t.thread && t.flow(request) == FlowCancelled;
      Effect([], seen, if cancelled then Stop(Cancelled, true) else Continue)
    case TurnCompleted(thread, turn) =>
      Effect([], seen, if Own(t, thread, turn) then Stop(EndTurn, false) else Continue)
    case TurnFailed(thread, turn, message) =>
      if Own(t, thread, turn)
      then Effect([DeltaUpdate("turn failed: " + message, TextDelta)], seen, Stop(EndTurn, false))
      else Effect([], seen, Continue)
    case SessionAborted(thread) =>
      Effect([], seen, if thread == t.thread then Stop(Cancelled, true) else Continue)
    case OtherEvent => Effect([], seen, Continue)
  }

  // ----- the loop -------------------------------------------------------

  /** What streaming the rest of the input adds; a stream that closes before a
      terminal event ends the turn. */
  function Stream(t: Turn, input: seq<Received>, seen: set<string>): Output {
    if input == [] then Output([], EndTurn, false)
    else
      match input[0]
      case Lagged(_) => Stream(t, input[1..], seen)
      case Got(e) =>
        var effect := Handle(t, e, seen);
        match effect.next
        case Stop(reason, removed) => Output(effect.updates, reason, removed)
        case Continue =>
          var rest := Stream(t, input[1..], effect.seen);
          rest.(updates := effect.updates + rest.updates)
  }

  /** One received event or gap. */
  function Receive(t: Turn, r: Received, seen: set<string>): Effect {
    match r
    case Lagged(_) => Effect([], seen, Continue)
    case Got(e) => Handle(t, e, seen)
  }

  lemma StreamStep(t: Turn, input: seq<Received>, seen: set<string>)
    requires input != []
    ensures var effect, out := Receive(t, input[0], seen), Stream(t, input, seen);
            && |effect.updates| <= 1
            && (effect.next.Stop? ==>
                  && out.updates == effect.updates
                  && out.stop == effect.next.reason && out.sessionRemoved == effect.next.removed)
            && (effect.next.Continue? ==>
                  var rest := Stream(t, input[1..], effect.seen);
                  && out.updates == effect.updates + rest.updates
                  && out.stop == rest.stop && out.sessionRemoved == rest.sessionRemoved)
  {
  }

  method StreamEvents(t: Turn, input: seq<Received>) returns (out: Output)
    ensures out == Stream(t, input, {})
  {
    var seen: set<string> := {};
    var updates := [];
    for i := 0 to |input|
      invariant Stream(t, input, {}) ==
                var rest := Stream(t, input[i..], seen);
                rest.(updates := updates + rest.updates)
    {
      assert input[i..][1..] == input[i + 1..];
      match input[i]
      case Lagged(_) =>
      case Got(e) =>
        var effect := Handle(t, e, seen);
        updates := updates + effect.updates;
        seen := effect.seen;
        if effect.next.Stop? {
          return Output(updates, effect.next.reason, effect.next.removed);
        }
    }
    assert input[|input|..] == [];
    out := Output(updates, EndTurn, false);
  }

  // ----- tool calls -----------------------------------------------------

  /** The tool-call id an update is about. */
  function ToolIdOf(u: Update): Option<string> {
    match u
    case ToolCallStart(id, _) => Some(id)
    case ToolCallUpdate(id, _) => Some(id)
    case _ => None
  }

  /** Per id one start comes first and only updates follow; ids in `seen` have
      had their start. */
  ghost predicate WellFormed(updates: seq<Update>, seen: set<string>) {
    && (forall i | 0 <= i < |updates| && updates[i].ToolCallStart? ::
          updates[i].id !in seen && forall j | 0 <= j < i :: ToolIdOf(updates[j]) != Some(updates[i].id))
    && (forall i | 0 <= i < |updates| && updates[i].ToolCallUpdate? ::
          || updates[i].id in seen
          || exists j :: 0 <= j < i && updates[j].ToolCallStart? && updates[j].id == updates[i].id)
  }

  /** The stream of updates is well formed whatever was lost, since nothing is
      assumed of the input. */
  lemma {:induction false} ToolCallsWellFormed(t: Turn, input: seq<Received>, seen: set<string>)
    ensures WellFormed(Stream(t, input, seen).updates, seen)
    decreases |input|
  {
    if input != [] {
      if input[0].Got? {
        var effect := Handle(t, input[0].event, seen);
        if effect.next.Continue? {
          ToolCallsWellFormed(t, input[1..], effect.seen);
          WellFormedPrepend(effect, seen, Stream(t, input[1..], effect.seen).updates);
        }
      } else {
        ToolCallsWellFormed(t, input[1..], seen);
      }
    }
  }

  lemma WellFormedPrepend(effect: Effect, seen: set<string>, rest: seq<Update>)
    requires WellFormed(rest, effect.seen) && |effect.updates| <= 1
    requires effect.updates == [] || ToolIdOf(effect.updates[0]).None? ==> effect.seen == seen
    requires effect.updates != [] && effect.updates[0].ToolCallStart? ==>
               effect.updates[0].id !in seen && effect.seen == seen + {effect.updates[0].id}
    requires effect.updates != [] && effect.updates[0].ToolCallUpdate? ==>
               effect.updates[0].id in seen && effect.seen == seen
    ensures WellFormed(effect.updates + rest, seen)
  {
    var all, n := effect.updates + rest, |effect.updates|;
    forall i | 0 <= i < |all| && all[i].ToolCallUpdate?
      ensures all[i].id in seen || exists j :: 0 <= j < i && all[j].ToolCallStart? && all[j].id == all[i].id
    {
      if i >= n && all[i].id !in effect.seen {
        var j :| 0 <= j < i - n && rest[j].ToolCallStart? && rest[j].id == rest[i - n].id;
        assert all[j + n] == rest[j];
      } else if i >= n && all[i].id !in seen {
        assert all[0] == effect.updates[0];
      }
    }
  }

  // ----- which event makes which update ---------------------------------

  predicate OwnToolCall(t: Turn, r: Received) {
    r.Got? && r.event.ItemAppended? && Own(t, r.event.thread, r.event.turn) && r.event.item.ToolCall?
  }

  /** Some tool call of this turn with this id was received before position i. */
  ghost predicate Earlier(t: Turn, input: seq<Received>, i: nat, id: string)
    requires i <= |input|
  {
    exists j :: 0 <= j < i && OwnToolCall(t, input[j]) && ToolCallId(input[j].event.item) == id
  }

  /** What a receipt other than a tool call shows, on its own: deltas, thoughts,
      notices, plans and the failure of this turn; everything else is silent. */
  function ShownAlone(t: Turn, r: Received): seq<Update> {
    match r
    case Got(ItemDelta(thread, turn, delta, kind)) =>
      if thread != t.thread || turn != t.turn then []
      else if kind == ReasoningDelta then [ThoughtChunk(delta)]
      else [MessageChunk(delta)]
    case Got(ItemAppended(thread, turn, item)) =>
      if thread != t.thread || turn != t.turn then []
      else
        (match item
         case AgentThought(text) => [ThoughtChunk(text)]
         case SystemNotice(message) => [MessageChunk(message)]
         case Plan(steps) => [PlanUpdate(steps)]
         case _ => [])
    case Got(TurnFailed(thread, turn, message)) =>
      if thread == t.thread && turn == t.turn then [MessageChunk("turn failed: " + message)] else []
    case _ => []
  }

  /** What the i-th received event shows the client, read off the input alone. */
  ghost function Shown(t: Turn, input: seq<Received>, i: nat): seq<Update>
    requires i < |input|
  {
    if OwnToolCall(t, input[i]) then
      var item := input[i].event.item;
      if Earlier(t, input, i, ToolCallId(item)) then [ToolCallUpdate(ToolCallId(item), item.body)]
      else [ToolCallStart(ToolCallId(item), item.body)]
    else ShownAlone(t, input[i])
  }

  ghost function ShownUpTo(t: Turn, input: seq<Received>, n: nat): seq<Update>
    requires n <= |input|
  {
    if n == 0 then [] else ShownUpTo(t, input, n - 1) + Shown(t, input, n - 1)
  }

  /** The events that end the turn: its own completion or failure, an abort of its
      thread, and a permission request of its thread that comes back cancelled. */
  predicate Ends(t: Turn, r: Received) {
    match r
    case Got(TurnCompleted(thread, turn)) => thread == t.thread && turn == t.turn
    case Got(TurnFailed(thread, turn, _)) => thread == t.thread && turn == t.turn
    case _ => Aborts(t, r)
  }

  /** Those that end it as cancelled. */
  predicate Aborts(t: Turn, r: Received) {
    match r
    case Got(SessionAborted(thread)) => thread == t.thread
    case Got(PermissionRequested(thread, request)) => thread == t.thread && t.flow(request) == FlowCancelled
    case _ => false
  }

  /** How much of the input from position i on is consumed. */
  function Consumed(t: Turn, input: seq<Received>, i: nat): (n: nat)
    requires i <= |input|
    ensures i <= n <= |input|
    ensures forall j | i <= j < n - 1 :: !Ends(t, input[j])
    ensures n < |input| ==> i < n && Ends(t, input[n - 1])
    decreases |input| - i
  {
    if i == |input| then i else if Ends(t, input[i]) then i + 1 else Consumed(t, input, i + 1)
  }

  ghost function Announced(t: Turn, input: seq<Received>, i: nat): set<string>
    requires i <= |input|
  {
    set j | 0 <= j < i && OwnToolCall(t, input[j]) :: ToolCallId(input[j].event.item)
  }

  /** The whole stream, event by event, with no state carried along: in particular
      every tool item reached makes exactly one update, with its own body. */
  lemma UpdatesAreEventwise(t: Turn, input: seq<Received>)
    ensures Stream(t, input, {}).updates == ShownUpTo(t, input, Consumed(t, input, 0))
  {
    assert input[0..] == input;
    EventwiseFrom(t, input, 0);
    assert Announced(t, input, 0) == {};
  }

  /** One event, with the ids announced before it as the ids seen. */
  lemma ShownIsReceived(t: Turn, input: seq<Received>, i: nat)
    requires i < |input|
    ensures var effect := Receive(t, input[i], Announced(t, input, i));
            && Shown(t, input, i) == effect.updates
            && Announced(t, input, i + 1) == effect.seen
            && (Ends(t, input[i]) <==> effect.next.Stop?)
  {
  }

  lemma {:induction false} EventwiseFrom(t: Turn, input: seq<Received>, i: nat)
    requires i <= |input|
    ensures ShownUpTo(t, input, Consumed(t, input, i)) ==
            ShownUpTo(t, input, i) + Stream(t, input[i..], Announced(t, input, i)).updates
    decreases |input| - i
  {
    hide Receive, Announced, Shown, Ends;
    if i < |input| {
      assert input[i..][0] == input[i] && input[i..][1..] == input[i + 1..];
      ShownIsReceived(t, input, i);
      StreamStep(t, input[i..], Announced(t, input, i));
      hide Stream;
      EventwiseFrom(t, input, i + 1);
      assert ShownUpTo(t, input, i + 1) == ShownUpTo(t, input, i) + Shown(t, input, i);
      if !Ends(t, input[i]) {
        assert Consumed(t, input, i) == Consumed(t, input, i + 1);
      }
    }
  }

  /** A tool item that is reached always appears: as the announcement when no
      earlier item with its id survived, as an update otherwise. */
  lemma {:induction false} EveryToolItemAppears(t: Turn, input: seq<Received>, i: nat)
    requires i < Consumed(t, input, 0) && OwnToolCall(t, input[i])
    ensures var item := input[i].event.item;
            var id := match item.providerId case Some(provider) => provider case None => item.id;
            (if Earlier(t, input, i, id) then ToolCallUpdate(id, item.body) else ToolCallStart(id, item.body))
              in Stream(t, input, {}).updates
  {
    UpdatesAreEventwise(t, input);
    var n := Consumed(t, input, 0);
    ShownGrows(t, input, i + 1, n);
    assert Shown(t, input, i)[0] in ShownUpTo(t, input, i + 1);
  }

  /** Items with the same provider id are one call to the client, whatever their
      own ids: every later one is an update of it. */
  lemma SameProviderIdIsOneCall(t: Turn, input: seq<Received>, i: nat, j: nat, provider: string)
    requires i < j < Consumed(t, input, 0) && OwnToolCall(t, input[i]) && OwnToolCall(t, input[j])
    requires input[i].event.item.providerId == input[j].event.item.providerId == Some(provider)
    ensures ToolCallUpdate(provider, input[j].event.item.body) in Stream(t, input, {}).updates
  {
    EveryToolItemAppears(t, input, j);
    assert Earlier(t, input, j, provider);
  }

  /** Items without a provider id are one call exactly when their own ids agree:
      the later of two that differ is an update only of a third one before it. */
  lemma SameItemIdIsOneCall(t: Turn, input: seq<Received>, i: nat, j: nat)
    requires i < j < Consumed(t, input, 0) && OwnToolCall(t, input[i]) && OwnToolCall(t, input[j])
    requires input[i].event.item.providerId.None? && input[j].event.item.providerId.None?
    ensures ToolCallId(input[i].event.item) == ToolCallId(input[j].event.item) <==>
            input[i].event.item.id == input[j].event.item.id
    ensures input[i].event.item.id == input[j].event.item.id ==>
              ToolCallUpdate(input[j].event.item.id, input[j].event.item.body) in Stream(t, input, {}).updates
    ensures input[i].event.item.id != input[j].event.item.id && !Earlier(t, input, j, input[j].event.item.id) ==>
              ToolCallStart(input[j].event.item.id, input[j].event.item.body) in Stream(t, input, {}).updates
  {
    EveryToolItemAppears(t, input, j);
    if input[i].event.item.id == input[j].event.item.id {
      assert Earlier(t, input, j, input[j].event.item.id);
    }
  }

  /** The general conversion agrees with the announcement of a tool call. */
  lemma ConversionsAgree(item: Item)
    requires item.ToolCall?
    ensures ItemUpdate(item) == Some(ToolUpdate(item, {}).0)
  {
  }

  /** A plan of the turn that is reached always appears. */
  lemma EveryPlanAppears(t: Turn, input: seq<Received>, i: nat)
    requires i < Consumed(t, input, 0) && input[i].Got? && input[i].event.ItemAppended?
    requires Own(t, input[i].event.thread, input[i].event.turn) && input[i].event.item.Plan?
    ensures PlanUpdate(input[i].event.item.steps) in Stream(t, input, {}).updates
  {
    UpdatesAreEventwise(t, input);
    ShownGrows(t, input, i + 1, Consumed(t, input, 0));
    assert Shown(t, input, i)[0] in ShownUpTo(t, input, i + 1);
  }

  lemma {:induction false} ShownGrows(t: Turn, input: seq<Received>, m: nat, n: nat)
    requires m <= n <= |input|
    ensures ShownUpTo(t, input, m) <= ShownUpTo(t, input, n)
  {
    if m < n {
      assert ShownUpTo(t, input, n) == ShownUpTo(t, input, n - 1) + Shown(t, input, n - 1);
      hide *;
      ShownGrows(t, input, m, n - 1);
    }
  }

  /** The event that ended the turn, if one did. */
  function Ending(t: Turn, input: seq<Received>): Option<Event> {
    var n := Consumed(t, input, 0);
    if n > 0 && Ends(t, input[n - 1]) then Some(input[n - 1].event) else None
  }

  /** The turn ends at the first event that ends it, as cancelled, and with the
      session removed, exactly if that event aborts it. A stream that closes first
      ends the turn normally. */
  lemma TurnEnds(t: Turn, input: seq<Received>)
    ensures forall i | 0 <= i < |input| && Ends(t, input[i]) && (forall j | 0 <= j < i :: !Ends(t, input[j])) ::
              && Stream(t, input, {}).stop == (if Aborts(t, input[i]) then Cancelled else EndTurn)
              && (Stream(t, input, {}).sessionRemoved <==> Aborts(t, input[i]))
              && Consumed(t, input, 0) == i + 1
    ensures (forall i | 0 <= i < |input| :: !Ends(t, input[i])) ==>
              Stream(t, input, {}).stop == EndTurn && !Stream(t, input, {}).sessionRemoved
  {
    hide Stream, Consumed, Receive, Ends, Aborts;
    assert input[0..] == input;
    EndingFrom(t, input, 0, {});
    var n := Consumed(t, input, 0);
    if n > 0 && Ends(t, input[n - 1]) {
      EndingReason(t, input[n - 1]);
    }
  }

  lemma EndingReason(t: Turn, r: Received)
    requires Ends(t, r)
    ensures var next := Receive(t, r, {}).next;
            next.Stop? && next.reason == (if Aborts(t, r) then Cancelled else EndTurn) && next.removed == Aborts(t, r)
  {
  }

  /** A failure of the turn is the last thing shown. */
  lemma FailureIsShownLast(t: Turn, input: seq<Received>)
    requires Ending(t, input).Some? && Ending(t, input).value.TurnFailed?
    ensures var updates := Stream(t, input, {}).updates;
            updates != [] && updates[|updates| - 1] == MessageChunk("turn failed: " + Ending(t, input).value.message)
  {
    hide Stream, Consumed, ShownUpTo, Shown, Ends;
    UpdatesAreEventwise(t, input);
    FailureShown(t, input, Consumed(t, input, 0) - 1);
  }

  lemma FailureShown(t: Turn, input: seq<Received>, i: nat)
    requires i < |input| && Ends(t, input[i]) && input[i].event.TurnFailed?
    ensures ShownUpTo(t, input, i + 1) ==
            ShownUpTo(t, input, i) + [MessageChunk("turn failed: " + input[i].event.message)]
  {
  }

  /** What ends the turn from position i on is the same whatever has been seen. */
  lemma {:induction false} EndingFrom(t: Turn, input: seq<Received>, i: nat, seen: set<string>)
    requires i <= |input|
    ensures var out, n := Stream(t, input[i..], seen), Consumed(t, input, i);
            if n > i && Ends(t, input[n - 1])
            then var next := Receive(t, input[n - 1], {}).next;
                 out.stop == next.reason && out.sessionRemoved == next.removed
            else out.stop == EndTurn && !out.sessionRemoved
    decreases |input| - i
  {
    hide *;
    if i == |input| {
      NothingLeft(t, input, seen);
    } else {
      ConsumedStep(t, input, i);
      StopStep(t, input, i, seen);
      if !Ends(t, input[i]) {
        EndingFrom(t, input, i + 1, Receive(t, input[i], seen).seen);
      }
    }
  }

  lemma NothingLeft(t: Turn, input: seq<Received>, seen: set<string>)
    ensures var out := Stream(t, input[|input|..], seen);
            out.stop == EndTurn && !out.sessionRemoved && Consumed(t, input, |input|) == |input|
  {
  }

  lemma StopStep(t: Turn, input: seq<Received>, i: nat, seen: set<string>)
    requires i < |input|
    ensures var out, effect := Stream(t, input[i..], seen), Receive(t, input[i], seen);
            if Ends(t, input[i])
            then var next := Receive(t, input[i], {}).next;
                 out.stop == next.reason && out.sessionRemoved == next.removed
            else var rest := Stream(t, input[i + 1..], effect.seen);
                 out.stop == rest.stop && out.sessionRemoved == rest.sessionRemoved
  {
    assert input[i..][0] == input[i] && input[i..][1..] == input[i + 1..];
    StreamStep(t, input[i..], seen);
    SameEnding(t, input[i], seen);
    hide *;
  }

  lemma ConsumedStep(t: Turn, input: seq<Received>, i: nat)
    requires i < |input|
    ensures Consumed(t, input, i) == if Ends(t, input[i]) then i + 1 else Consumed(t, input, i + 1)
  {
  }

  lemma SameEnding(t: Turn, r: Received, seen: set<string>)
    ensures Receive(t, r, seen).next == Receive(t, r, {}).next
    ensures Ends(t, r) <==> Receive(t, r, seen).next.Stop?
  {
  }

  // ----- other turns do not matter --------------------------------------

  /** Events of other threads, item and turn events of other turns, kinds the
      loop does not know, and gaps. */
  predicate Foreign(t: Turn, r: Received) {
    match r
    case Lagged(_) => true
    case Got(ItemDelta(thread, turn, _, _)) => !Own(t, thread, turn)
    case Got(ItemAppended(thread, turn, _)) => !Own(t, thread, turn)
    case Got(PermissionRequested(thread, _)) => thread != t.thread
    case Got(TurnCompleted(thread, turn)) => !Own(t, thread, turn)
    case Got(TurnFailed(thread, turn, _)) => !Own(t, thread, turn)
    case Got(SessionAborted(thread)) => thread != t.thread
    case Got(OtherEvent) => true
  }

  function Without(t: Turn, input: seq<Received>): seq<Received> {
    if input == [] then []
    else (if Foreign(t, input[0]) then [] else [input[0]]) + Without(t, input[1..])
  }

  /** The output is a function of the turn's own events. */
  lemma {:induction false} OnlyOwnEventsMatter(t: Turn, input: seq<Received>, seen: set<string>)
    ensures Stream(t, Without(t, input), seen) == Stream(t, input, seen)
    decreases |input|
  {
    if input != [] {
      OnlyOwnEventsMatter(t, input[1..], seen);
      if Foreign(t, input[0]) {
        assert Without(t, input) == Without(t, input[1..]);
        ForeignIsSkipped(t, input, seen);
      } else {
        assert Without(t, input)[1..] == Without(t, input[1..]);
        OnlyOwnEventsMatter(t, input[1..], Handle(t, input[0].event, seen).seen);
      }
    }
  }

  lemma ForeignIsSkipped(t: Turn, input: seq<Received>, seen: set<string>)
    requires input != [] && Foreign(t, input[0])
    ensures Stream(t, input, seen) == Stream(t, input[1..], seen)
  {
  }

  lemma SameOwnEventsSameOutput(t: Turn, a: seq<Received>, b: seq<Received>)
    requires Without(t, a) == Without(t, b)
    ensures Stream(t, a, {}) == Stream(t, b, {})
  {
    OnlyOwnEventsMatter(t, a, {});
    OnlyOwnEventsMatter(t, b, {});
  }

  /** Removing one receipt of r from anywhere never changes the output. */
  ghost predicate Ignorable(t: Turn, r: Received) {
    forall a, b, seen :: Stream(t, a + [r] + b, seen) == Stream(t, a + b, seen)
  }

  predicate Silent(t: Turn, r: Received) {
    !OwnToolCall(t, r) && ShownAlone(t, r) == [] && !Ends(t, r)
  }

  lemma {:induction false} SilentAnywhere(t: Turn, a: seq<Received>, r: Received, b: seq<Received>, seen: set<string>)
    requires Silent(t, r)
    ensures Stream(t, a + [r] + b, seen) == Stream(t, a + b, seen)
    decreases |a|
  {
    if a == [] {
      assert a + [r] + b == [r] + b && a + b == b && ([r] + b)[1..] == b;
    } else {
      assert (a + [r] + b)[1..] == a[1..] + [r] + b && (a + b)[1..] == a[1..] + b;
      SilentAnywhere(t, a[1..], r, b, if a[0].Got? then Handle(t, a[0].event, seen).seen else seen);
    }
  }

  /** A receipt that is not silent shows when one own delta follows it. */
  lemma NotSilentShows(t: Turn, r: Received)
    requires !Silent(t, r)
    ensures !Ignorable(t, r)
  {
    var delta := Got(ItemDelta(t.thread, t.turn, "", TextDelta));
    assert [delta][1..] == [] && ([r] + [delta])[1..] == [delta];
    StreamStep(t, [r] + [delta], {});
    StreamStep(t, [delta], {});
    assert Stream(t, [delta], {}).updates == [MessageChunk("")];
    assert [] + [r] + [delta] == [r] + [delta] && [] + [delta] == [delta];
    var both, effect := Stream(t, [] + [r] + [delta], {}).updates, Receive(t, r, {});
    hide Stream;
    if effect.next.Continue? {
      StreamStep(t, [delta], effect.seen);
      assert |both| == |effect.updates| + |Stream(t, [delta], effect.seen).updates|;
      assert Receive(t, delta, effect.seen).updates != [];
    }
    assert Stream(t, [] + [r] + [delta], {}) != Stream(t, [] + [delta], {});
  }

  /** Exactly the silent receipts can come and go unnoticed; foreign ones are silent. */
  lemma IgnorableExactlyWhenSilent(t: Turn, r: Received)
    ensures Ignorable(t, r) <==> Silent(t, r)
    ensures Foreign(t, r) ==> Silent(t, r)
  {
    if Silent(t, r) {
      forall a, b, seen ensures Stream(t, a + [r] + b, seen) == Stream(t, a + b, seen) {
        SilentAnywhere(t, a, r, b, seen);
      }
    } else {
      NotSilentShows(t, r);
    }
  }

  // ----- what the reader of the chat sees -------------------------------

  /** The two texts a client shows: the agent's message and its thoughts. */
  datatype Pane = Messages | Thoughts

  function PaneOf(kind: DeltaKind): Pane {
    if kind.ReasoningDelta? then Thoughts else Messages
  }

  /** The text an item has in a pane. */
  function Spoken(item: Item, pane: Pane): Option<string> {
    match item
    case AgentMessage(text) => if pane.Messages? then Some(text) else None
    case SystemNotice(text) => if pane.Messages? then Some(text) else None
    case Reasoning(text) => if pane.Thoughts? then Some(text) else None
    case AgentThought(text) => if pane.Thoughts? then Some(text) else None
    case _ => None
  }

  /** Items whose text is streamed as deltas before they arrive. */
  predicate Streamed(item: Item) {
    item.AgentMessage? || item.Reasoning?
  }

  /** A loss-free turn as the engine documents it: `pending` holds the text
      streamed in the pane since its last item; the final item of a streamed text
      repeats it, other items come with nothing pending. */
  predicate Documented(t: Turn, input: seq<Received>, pane: Pane, pending: string) {
    input != [] && input[0].Got? &&
    if Foreign(t, input[0]) then Documented(t, input[1..], pane, pending)
    else
      match input[0].event
      case ItemDelta(_, _, delta, kind) =>
        Documented(t, input[1..], pane, if PaneOf(kind) == pane then pending + delta else pending)
      case ItemAppended(_, _, item) =>
        if Spoken(item, pane).None? then Documented(t, input[1..], pane, pending)
        else pending == (if Streamed(item) then Spoken(item, pane).value else "") && Documented(t, input[1..], pane, "")
      case PermissionRequested(_, request) => t.flow(request).Resumed? && Documented(t, input[1..], pane, pending)
      case TurnCompleted(_, _) => pending == ""
      case TurnFailed(_, _, _) => pending == ""
      case _ => false
  }

  /** The text an item of the turn brings to a pane. */
  function Brought(t: Turn, r: Received, pane: Pane): string {
    match r
    case Got(ItemAppended(thread, turn, item)) =>
      if Own(t, thread, turn) && Spoken(item, pane).Some? then Spoken(item, pane).value else ""
    case _ => ""
  }

  /** The texts of the turn's own items in a pane, in order, and the failure that
      ended it. */
  function Texts(t: Turn, input: seq<Received>, pane: Pane): string {
    if input == [] then ""
    else if Ends(t, input[0]) then
      if input[0].event.TurnFailed? && pane.Messages? then "turn failed: " + input[0].event.message else ""
    else Brought(t, input[0], pane) + Texts(t, input[1..], pane)
  }

  function ShownIn(u: Update, pane: Pane): string {
    match u
    case MessageChunk(text) => if pane.Messages? then text else ""
    case ThoughtChunk(text) => if pane.Thoughts? then text else ""
    case _ => ""
  }

  /** What a pane reads at the end. */
  function Transcript(updates: seq<Update>, pane: Pane): string {
    if updates == [] then "" else ShownIn(updates[0], pane) + Transcript(updates[1..], pane)
  }

  /** The client reads every agent message, notice, reasoning and thought exactly
      once, in order. */
  lemma TextsShownOnce(t: Turn, input: seq<Received>, pane: Pane)
    requires Documented(t, input, pane, "")
    ensures Transcript(Stream(t, input, {}).updates, pane) == Texts(t, input, pane)
    ensures Stream(t, input, {}).stop == EndTurn
  {
    TextsFrom(t, input, {}, pane, "");
  }

  /** What is streamed and not yet repeated by a final item, after one event. */
  function PendingAfter(t: Turn, r: Received, pane: Pane, pending: string): string {
    if Foreign(t, r) || r.Lagged? then pending
    else
      match r.event
      case ItemDelta(_, _, delta, kind) => if PaneOf(kind) == pane then pending + delta else pending
      case ItemAppended(_, _, item) => if Spoken(item, pane).Some? then "" else pending
      case _ => pending
  }

  lemma {:induction false} TextsFrom(t: Turn, input: seq<Received>, seen: set<string>, pane: Pane, pending: string)
    requires Documented(t, input, pane, pending)
    ensures pending + Transcript(Stream(t, input, seen).updates, pane) == Texts(t, input, pane)
    ensures Stream(t, input, seen).stop == EndTurn
    decreases |input|
  {
    DocumentedStep(t, input, pane, pending);
    SameEnding(t, input[0], seen);
    ReceiptText(t, input[0], seen, pane);
    StreamStep(t, input, seen);
    hide Receive, Documented, PendingAfter, Ends, Stream, ShownIn, TextOf, Brought;
    var effect := Receive(t, input[0], seen);
    if effect.next.Continue? {
      var after := PendingAfter(t, input[0], pane, pending);
      TextsFrom(t, input[1..], effect.seen, pane, after);
      var rest := Stream(t, input[1..], effect.seen).updates;
      TranscriptPrepend(effect.updates, rest, pane);
      hide Transcript;
      StringsAssociate(pending, TextOf(t, input[0], pane), Transcript(rest, pane));
      StringsAssociate(Brought(t, input[0], pane), after, Transcript(rest, pane));
    }
  }

  lemma StringsAssociate(a: string, b: string, c: string)
    ensures a + b + c == a + (b + c)
  {
  }

  lemma TranscriptPrepend(first: seq<Update>, rest: seq<Update>, pane: Pane)
    requires |first| <= 1
    ensures Transcript(first + rest, pane) == Transcript(first, pane) + Transcript(rest, pane)
  {
    hide ShownIn;
    if first == [] {
      assert first + rest == rest;
    } else {
      assert (first + rest)[0] == first[0] && (first + rest)[1..] == rest && first[1..] == [];
    }
  }

  /** The text one receipt puts in a pane. */
  function TextOf(t: Turn, r: Received, pane: Pane): string {
    if r.Lagged? || Foreign(t, r) then ""
    else
      match r.event
      case ItemDelta(_, _, delta, kind) => if PaneOf(kind) == pane then delta else ""
      case ItemAppended(_, _, item) =>
        if !Streamed(item) && Spoken(item, pane).Some? then Spoken(item, pane).value else ""
      case TurnFailed(_, _, message) => if pane.Messages? then "turn failed: " + message else ""
      case _ => ""
  }

  lemma ReceiptText(t: Turn, r: Received, seen: set<string>, pane: Pane)
    ensures Transcript(Receive(t, r, seen).updates, pane) == TextOf(t, r, pane)
  {
    var updates := Receive(t, r, seen).updates;
    if updates != [] {
      assert updates == [updates[0]] && updates[1..] == [];
    }
  }

  /** One event of a documented turn: what was pending and what it shows is the
      text it brings and what is pending after it. */
  lemma DocumentedStep(t: Turn, input: seq<Received>, pane: Pane, pending: string)
    requires Documented(t, input, pane, pending)
    ensures Ends(t, input[0]) ==>
              && Receive(t, input[0], {}).next.reason == EndTurn
              && pending + TextOf(t, input[0], pane) == Texts(t, input, pane)
    ensures !Ends(t, input[0]) ==>
              && Documented(t, input[1..], pane, PendingAfter(t, input[0], pane, pending))
              && pending + TextOf(t, input[0], pane) ==
                 Brought(t, input[0], pane) + PendingAfter(t, input[0], pane, pending)
  {
  }
}
