# Verified model of zhive's client connection, permission round trip and ACP bridge

Dafny models of the parts of zhive whose correctness rests on interleavings, on
lossy event streams, or on two data structures that must agree. Everything is
proved for all inputs, all runs or all reachable states.

| files | what they model |
|---|---|
| `Messages`, `Decimal` | JSON-RPC messages as the connection sees them; ids are a prefix and a decimal number |
| `Tables` | the lock-protected tables of a connection, as the objects they are; each method is shown to do to the shared state what the sections of `Calls` and `Reverse` do |
| `Calls`, `Reverse` | the caller-facing and the server-facing half of the shared state, with what every atomic section keeps |
| `Connection` | one connection as a transition system: any number of calls, the reader, the writer, the handler tasks, an arbitrary server |
| `ConnectionInvariant`, `ConnectionTheorems` | the invariant of all runs and what follows from it |
| `CallOutcomes`, `ConnectionQueue` | how calls end, and what is on the outbound queue |
| `ReverseHandlers` | which handler serves a server request |
| `HandlerTeardown` | which handler tasks the teardown reaches, exactly and in terms of what the server sent |
| `ConnectionTasks` | `call`, the reader task and the writer task as the straight-line code and loops they are, executed section by section on the transition system while all other tasks interfere; what is proved is where each of them gets |
| `Broadcast`, `ClientEvents` | bounded broadcast channels and the stream of client events |
| `PermissionRegistry` | the pending-permission store over arbitrary histories of its sections |
| `PermissionReducer` | the store as the object it is, whose methods run their sections while other tasks run theirs |
| `PermissionRoundTrip`, `PermissionComposition` | a permission request from the engine through the ACP bridge and back, and the proof that its runs are histories of the store |
| `StreamTurn` | the per-turn event loop of the bridge over a lossy stream |
| `AgentState` | session map, eviction queue and id minting with concurrent callers |
| `InjectionQueues` | steer, follow-up and next-turn queues with drained batches outstanding |
| `Utf8Truncation`, `Newlines`, `Slash` | byte-budget truncation, line-ending normalisation, slash-command routing |

## How the model is built

What one lock or one atomic operation protects is one step. The sends after a
drain, spawning a handler and inserting its handle, the two broadcasts of a
notification, registering a call and queueing its request, drawing a number and
inserting an entry under it, taking a sender out and using it are separate steps,
so every other task can act in between. Timeouts, cancellation, end of stream and write errors are steps that
may happen at any time. Shared objects are classes whose methods state their
whole effect; the loops are methods proved against specification functions.

Assumptions about the environment: an mpsc queue is first-in first-out and a
send fails exactly when the receiver has been dropped; a one-shot channel
delivers at most one value; a broadcast channel is an append-only log of which
each receiver sees a bounded window; the 64-bit call counter does not wrap (the
permission counter's wrap and saturation are modelled).

## What the code does not keep

Each of these is a theorem: a concrete run of the model, the exact condition, or both.

- A `call` can wait for ever. It happens to a call that registers after both
  drains and queues its request before the writer drops the queue
  (`ACallCanHang`, `HungForever`). The channel of one that registers in time
  gets a payload as long as its caller is there, and the call returns it unless it finds the queue dropped
  before it has queued its request. A call that finds the queue dropped, late or
  not, ends with the queue error (`AnsweredUnlessLate`, `StepsLeftToACall`,
  `ReturnsWhatWasDelivered`).
- The teardown order promised at `crates/zhive-client-native/src/transport.rs:24-25`
  does not cover a call whose sender the writer drained first, nor one that
  registered after the reader's drain (`AnnouncedBeforeToldByWriter`,
  `UnansweredWhenAnnounced`).
- `abort_all` misses an unfinished handler task if and only if, between the
  insertion of its own handle and the lock of `abort_all`, the handle of another
  task with the same request id was inserted or such a task cleaned up
  (`EscapesAbortIff`). It happens to a server that reuses the id of a request
  still in flight (`ReusedIdEscapesAbort`), and also to one that waits for the
  reply before it reuses the id, since a task removes its handle only after its
  reply is queued (`ReuseAfterReplyEscapes`). It never happens to a server that
  does not reuse ids (`AbortReachesEveryTask`).
- An abort can be missed by a permission request: the statement at
  `crates/zhive-bridge-acp/src/lib.rs:901-905` fails when the abort is broadcast
  after the request but before the bridge subscribes, or falls out of the
  broadcast window; the bridge then waits for the client
  (`AnAbortCanBeMissed`, `BlindUntilAnswered`).
- A key that has been resolved can be resolved again without a reinstatement in
  between: its number was drawn by an enrolment that had not inserted its entry
  yet when the key was reinstated (`KeyResolvesTwice`). Exactly when a resolved key
  becomes pending again is `ResolvedAgainIff`; a key never reinstated does not
  (`ResolvedStaysUnknown`).
- In the same window the late insertion silently drops the sender of the
  reinstated request (`EnrolmentDropsReinstated`), although
  `crates/zhive-core/src/permission/pending.rs:169-170` says that later
  insertions never collide with a reinstated key. This is the only way an
  enrolment overwrites a pending request while the counter does not wrap
  (`OverwritesOnlyReinstated`).
- Reinstating the key of a request that is pending drops that request's sender;
  keys persisted by one process and drawn by the next both start at 0
  (`ReinstatementDropsLive`). A waiter is abandoned exactly when a later insertion
  took its key while it was pending (`AbandonedIff`).
- Reinstating the largest 64-bit permission key does not keep later keys apart
  from it (`ReinstatedKeyReused`).
- `perm:+5` and `perm:007` are accepted as wire ids although they are not what
  the encoder writes (`CanonicalIff`).
- A truncated instruction file is longer than its budget, because the marker is
  appended after the cut; the comment at
  `crates/zhive-cli/src/system_prompt.rs:183` says "at most" the budget
  (`TruncationMeaning`).
- Normalising line endings twice differs from once on texts with CR CR LF
  (`SecondNormalization`).
- A skill whose name starts with `skill:` cannot be run as `/name`, although it
  is advertised under that name (`MenuEntryRuns`).

The comment at `crates/zhive-client-native/src/transport.rs:158` says dropping
the reader's sender closes the event channel; the client holds another sender
(`crates/zhive-client-native/src/connect.rs:212`), so the end of a
`ClientEventStream` rests on its own flag, which is what the model follows.

## Model

| member | source | states |
|---|---|---|
| Decimal.ParseRender | crates/zhive-core/src/permission/pending.rs:80-99 | parsing a rendered number gives it back |
| Decimal.RenderParse | crates/zhive-core/src/permission/pending.rs:90-99 | rendering undoes parsing on digit strings without a superfluous leading zero |
| Decimal.PrefixedInjective | crates/zhive-client-native/src/lib.rs:969-972 | a prefix followed by a number is a different string for every number |
| Messages.CallIdInjective | crates/zhive-client-native/src/lib.rs:969-972 | different calls of a connection have different wire ids |
| Tables.OneShot.Send | crates/zhive-client-native/src/pending.rs:73-77 | a one-shot send succeeds exactly when the receiver is alive, and only then fills the channel |
| Tables.PendingRequests.Register | crates/zhive-client-native/src/pending.rs:57-62 | adds a fresh sender under the id of a call that has drawn it, which is never in the table yet, and does to the shared state exactly what the registration step does |
| Tables.PendingRequests.CloseReceiver | crates/zhive-client-native/src/lib.rs:973-986 | a call that returns or is dropped takes its receiver with it and leaves its entry in the table |
| Tables.PendingRequests.Resolve | crates/zhive-client-native/src/pending.rs:65-78 | removes the sender and then uses it: the shared state after it is that of the removal step followed by the delivery step; no entry, a dropped awaiter and a delivery are told apart |
| Tables.RegisterThenResolve | crates/zhive-client-native/src/pending.rs:57-78 | whatever else is in the table: the first response with the id of a new call is delivered, or reports a dropped awaiter when the receiver is gone; a second one finds nothing and the channel keeps the first |
| Tables.PendingRequests.DrainWithDisconnected | crates/zhive-client-native/src/pending.rs:85-95 | is the locked drain followed by one send step per drained sender, in some order, after which nothing drained is left untold |
| Tables.PendingReverse.Insert | crates/zhive-client-native/src/reverse.rs:156-162 | is the recording step: the handle goes under the id of its task, replacing whatever handle was there |
| Tables.PendingReverse.Remove | crates/zhive-client-native/src/reverse.rs:165-171 | is the clean-up step of the task, and returns the handle of whichever task was under its id |
| Tables.PendingReverse.AbortAll | crates/zhive-client-native/src/reverse.rs:177-188 | is the locked drain followed by one abort step per drained handle, in some order, after which nothing drained is left running |
| Calls.MintKeeps | crates/zhive-client-native/src/lib.rs:969-972 | drawing an id keeps: every live sender is in exactly one place, the table is keyed by call ids, every answer is the first response since registration |
| Calls.RegisterKeeps | crates/zhive-client-native/src/pending.rs:57-62 | registering keeps the same, and notes which drains came before |
| Calls.RemoveKeeps | crates/zhive-client-native/src/pending.rs:66-69 | moving a sender from the table to the reader's hand keeps the same |
| Calls.DeliverKeeps | crates/zhive-client-native/src/pending.rs:73-77 | using the sender in hand keeps the same |
| Calls.ReaderDrainKeeps | crates/zhive-client-native/src/pending.rs:86-89 | the reader's drain of the table keeps the same |
| Calls.WriterDrainKeeps | crates/zhive-client-native/src/pending.rs:86-89 | the writer's drain, possibly while the reader still tells what it drained, keeps the same |
| Calls.ReaderSendKeeps | crates/zhive-client-native/src/pending.rs:90-94 | telling one drained call keeps the same |
| Calls.WriterSendKeeps | crates/zhive-client-native/src/pending.rs:90-94 | telling one drained call keeps the same |
| Reverse.RecordTracks | crates/zhive-client-native/src/transport.rs:309 | inserting the handle of a task that may be finished already keeps every unfinished task within reach of `abort_all`, unless an id in flight was reused |
| Reverse.CleanUpTracks | crates/zhive-client-native/src/transport.rs:304-306 | a task that removes its own entry takes no other task out of reach |
| Reverse.LockAbortTracks | crates/zhive-client-native/src/reverse.rs:178-184 | the drain of `abort_all` hands every tracked task to the aborting loop |
| Reverse.RepliesCarry | crates/zhive-client-native/src/transport.rs:236-309 | steps that answer nothing keep the count of replies per request |
| Reverse.ReplySent | crates/zhive-client-native/src/transport.rs:298-303 | queueing a reply keeps: one reply per answered request, with its id and its outcome |
| ConnectionInvariant.SenderNeverLost | crates/zhive-client-native/src/lib.rs:979-981 | the branch of `call` for a sender dropped unused is dead |
| ConnectionInvariant.ReaderKeeps | crates/zhive-client-native/src/transport.rs:98-166 | every step of the reader keeps the whole invariant |
| ConnectionInvariant.WriterKeeps | crates/zhive-client-native/src/transport.rs:185-209 | every step of the writer keeps the whole invariant |
| ConnectionInvariant.TaskKeeps | crates/zhive-client-native/src/transport.rs:275-307 | every step of a handler task keeps the whole invariant |
| ConnectionInvariant.CallKeeps | crates/zhive-client-native/src/lib.rs:964-1004 | every step of a call or a notification keeps the whole invariant |
| ConnectionInvariant.RunKeeps | crates/zhive-client-native/src/transport.rs:82-210 | the invariant holds along every run |
| ConnectionTheorems.SenderInOnePlace | crates/zhive-client-native/src/pending.rs:57-95 | in every reachable state the sender of a live call is in exactly one of: the table under its own id, one drainer's list, the reader's hand, the past |
| ConnectionTheorems.AtMostOnePayload | crates/zhive-client-native/src/pending.rs:57-95 | along every run a channel, once used, keeps its one payload |
| ConnectionTheorems.AnswerIsTheServers | crates/zhive-client-native/src/pending.rs:65-78 | a response payload is a response the server sent with the id of the call, the first one resolved since the call registered |
| ConnectionTheorems.UnmatchedResponseIgnored | crates/zhive-client-native/src/pending.rs:70-72 | a response whose id is not in the table changes no call and no entry |
| ConnectionTheorems.ResolvedIdTakenOut | crates/zhive-client-native/src/pending.rs:65-69 | once a response with the id of a call has been resolved since the call registered, the id is out of the table |
| ConnectionTheorems.TakenOutForGood | crates/zhive-client-native/src/pending.rs:57-69 | an id taken out of the table is never in it again, along every run |
| ConnectionTheorems.RepeatedResponseIgnored | crates/zhive-client-native/src/pending.rs:70-72 | a second response with the id of a call, whenever it comes, changes no call and no entry |
| ConnectionTheorems.ReturnsWhatWasDelivered | crates/zhive-client-native/src/lib.rs:975-986 | a call that has returned returned the queue error, and then the queue is closed, or exactly what its channel delivered |
| CallOutcomes.DroppedIffAbandoned | crates/zhive-client-native/src/lib.rs:964-987 | along every run a caller has gone if and only if it gave up at some step |
| CallOutcomes.EndIsFinal | crates/zhive-client-native/src/lib.rs:964-987 | a call that has returned or been given up is never touched again, neither its result nor its channel |
| CallOutcomes.DisconnectedReason | crates/zhive-client-native/src/transport.rs:147-208 | a call that ends as disconnected is told that the writer task exited or the reason the reader stopped for |
| ConnectionTheorems.AnsweredUnlessLate | crates/zhive-client-native/src/transport.rs:147-209 | once both tasks have exited, a live call has its payload if and only if it registered before the later of the two drains |
| ConnectionTheorems.StepsLeftToACall | crates/zhive-client-native/src/lib.rs:974-981 | what a live call can still do then: take its payload iff it is not late, fail with the queue error iff it has not queued its request |
| ConnectionTheorems.HungForever | crates/zhive-client-native/src/lib.rs:979-981 | a late call that queued its request stays without an answer in every continuation in which its caller does not give up |
| ConnectionTheorems.ACallCanHang | crates/zhive-client-native/src/transport.rs:208-209 | a concrete run through the window between the writer's drain and the drop of the queue |
| ConnectionTheorems.ToldBeforeAnnounced | crates/zhive-client-native/src/transport.rs:147-157 | when the terminal event is in the log, every live call the reader drained has the payload with the same reason |
| ConnectionTheorems.UnansweredWhenAnnounced | crates/zhive-client-native/src/transport.rs:147-157 | exactly which live calls have no payload when the terminal event is published |
| ConnectionTheorems.AnnouncedBeforeToldByWriter | crates/zhive-client-native/src/transport.rs:206-208 | a concrete run in which a call registered before both drains sees the terminal event first |
| ConnectionTheorems.WorkerDoneIsLast | crates/zhive-client-native/src/transport.rs:161-165 | `worker_done` comes after every drained call was told, every drained handle aborted and the terminal event published |
| ConnectionTheorems.TeardownInOrder | crates/zhive-client-native/src/transport.rs:147-165 | in every reachable state the parts of the teardown have happened in order |
| ConnectionTheorems.TrackedWithoutClash | crates/zhive-client-native/src/transport.rs:275-309 | without a reused id, every unfinished handler task is in the table whenever the reader is between messages |
| ConnectionTheorems.AbortReachesTracked | crates/zhive-client-native/src/reverse.rs:177-188 | without a reuse of an id in flight, teardown has aborted every unfinished handler task before the terminal event |
| ConnectionTheorems.TrackedIffNoClash | crates/zhive-client-native/src/transport.rs:275-309 | handler tasks stay in reach along a run if and only if no id was reused while its handler was unfinished |
| ConnectionTheorems.StaleOnlyIfEarly | crates/zhive-client-native/src/transport.rs:304-309 | the table keeps the handle of an ended task only if the task ended before the reader inserted it |
| ConnectionTheorems.ReusedIdEscapesAbort | crates/zhive-client-native/src/reverse.rs:156-162 | a concrete run in which a reused id hides a running task from `abort_all` |
| HandlerTeardown.TrackedIff | crates/zhive-client-native/src/transport.rs:275-309 | a recorded unfinished task is in reach of `abort_all` if and only if no step displaced it: the insertion of a namesake's handle, or a namesake's clean-up |
| HandlerTeardown.EscapesAbortIff | crates/zhive-client-native/src/reverse.rs:177-188 | at the terminal event an unfinished task has not been aborted if and only if it was displaced before `abort_all` took the lock |
| HandlerTeardown.NoReuseNoClash | crates/zhive-client-native/src/transport.rs:236-309 | if the request ids read are pairwise distinct, no handle is inserted over that of an unfinished task |
| HandlerTeardown.AbortReachesEveryTask | crates/zhive-client-native/src/reverse.rs:173-188 | if the request ids read are pairwise distinct, every unfinished handler task has been aborted by the terminal event |
| HandlerTeardown.ReuseAfterReplyEscapes | crates/zhive-client-native/src/transport.rs:298-309 | a concrete run in which the server reuses an id only after it has the reply, and the second task escapes |
| ConnectionTheorems.OneReplyPerRequest | crates/zhive-client-native/src/transport.rs:236-309 | at most one reply per server request; exactly one once it is settled, unless the writer exited or teardown aborted its task |
| ConnectionTheorems.ReplyIsTheHandlers | crates/zhive-client-native/src/transport.rs:236-297 | a reply has the id of its request; without the method in the one snapshot read it is the error -32601 that names the method, otherwise the handler's own result or error, or -32603 after a panic; -32601 exactly when the method was not there, error objects of a handler aside |
| ReverseHandlers.HandlerIsLastSet | crates/zhive-client-native/src/reverse.rs:129-134 | the slot holds what was set last |
| ReverseHandlers.ServedByHandlerOfTheMoment | crates/zhive-client-native/src/transport.rs:236-262 | along every run a request is served with the handler that was set last when the reader consulted the slot for it, whatever is set before or after |
| ReverseHandlers.ResultIsTheHandlers | crates/zhive-client-native/src/transport.rs:275-297 | along every run the result a task reports is what its handler returned, and what a handler returned is reported unless teardown cancels the task |
| ReverseHandlers.ReturnedTaskEnds | crates/zhive-client-native/src/transport.rs:298-307 | a task whose handler has returned ends in two steps on a closed queue or one with room, its reply given up or queued |
| ConnectionTheorems.LegacyIsProjection | crates/zhive-client-native/src/transport.rs:120-126 | between messages the legacy log is the notification projection of the unified log, and both tell exactly what was read |
| ConnectionTheorems.LegacyIsAhead | crates/zhive-client-native/src/transport.rs:124-125 | in every state a notification is on the legacy log no later than on the unified log |
| ConnectionTheorems.DisconnectedIsLast | crates/zhive-client-native/src/transport.rs:154-157 | the terminal event is the last one, and no step adds another event after it |
| ConnectionTheorems.WireIsFifo | crates/zhive-client-native/src/transport.rs:187-205 | what reached the wire is a prefix of what was accepted, the queue is bounded by 64, and nothing is lost while the writer lives |
| ConnectionQueue.EachRequestQueuedOnce | crates/zhive-client-native/src/lib.rs:969-978 | in every reachable state the request of a call has been queued exactly once if the call waits or has returned anything but the queue error, never if it has not got that far or returned that error, at most once if it was given up; and it carries the id `c:<number>` of its call |
| ConnectionQueue.SendCompletesIff | crates/zhive-client-native/src/lib.rs:974-978 | a send completes exactly while the queue is open and holds fewer than 64 messages and fails exactly when it is closed |
| ConnectionQueue.NotificationsInOrder | crates/zhive-client-native/src/lib.rs:994-1004 | along every run the notifications queued are, in order, the bodies sent |
| ConnectionQueue.ClosedForGood | crates/zhive-client-native/src/transport.rs:208-209 | once the writer has dropped its end the queue is empty and nothing more is accepted or written |
| ConnectionTasks.Link.HandleResponse | crates/zhive-client-native/src/transport.rs:107-109 | under interference: if the id is in the table when it is locked, the call it stands for ends with the outcome in its channel unless its caller has gone; otherwise no call and no entry changes |
| ConnectionTasks.Link.HandleNotification | crates/zhive-client-native/src/transport.rs:120-126 | two broadcasts, legacy first, are two steps of the system |
| ConnectionTasks.Link.HandleServerRequest | crates/zhive-client-native/src/transport.rs:218-310 | publish, consult once, then spawn and record or answer; it only ever waits on a full queue |
| ConnectionTasks.Link.DrainCalls | crates/zhive-client-native/src/pending.rs:85-95 | the drain loop ends with everything drained told |
| ConnectionTasks.Link.AbortTasks | crates/zhive-client-native/src/reverse.rs:177-188 | the abort loop ends with every drained handle aborted |
| ConnectionTasks.Link.Teardown | crates/zhive-client-native/src/transport.rs:147-165 | the ordered teardown runs to its end for the reason the loop stopped |
| ConnectionTasks.Link.ReaderTask | crates/zhive-client-native/src/transport.rs:98-166 | the reader loop takes only steps of the system, reads every frame in order and tears down, unless a full queue blocks it |
| ConnectionTasks.Link.WriterTask | crates/zhive-client-native/src/transport.rs:185-209 | the writer loop takes only steps of the system and drops the queue only after telling what it drained |
| ConnectionTasks.Link.Call | crates/zhive-client-native/src/lib.rs:964-987 | one call under interference: a value or server error it returns is a response the server sent with its id, a disconnect carries the reason it was told, and the queue error means the queue is closed |
| ClientEvents.EventLogGrows | crates/zhive-client-native/src/transport.rs:120-157 | along every run the event log only grows, and its terminal event is its last |
| ClientEvents.CoversCounts | crates/zhive-client-native/src/events.rs:154-161 | what a stream yielded accounts for every event between subscription and cursor, lag notices counting exactly what they skip |
| ClientEvents.PollMeaning | crates/zhive-client-native/src/events.rs:150-164 | of 256 buffered events: inside the window a poll yields the very next event, behind it the exact number missed, at the end it waits, and the end for ever after the terminal event |
| ClientEvents.ClientEventStream.constructor | crates/zhive-client-native/src/events.rs:116-121 | a subscriber starts at the end of the log, not terminal |
| ClientEvents.ClientEventStream.NextEvent | crates/zhive-client-native/src/events.rs:150-164 | yields the next event or the exact lag, keeps the cover of the log, and yields the end for ever after the terminal event |
| ClientEvents.ClientEventStream.Follow | crates/zhive-client-native/src/events.rs:13-26 | one poll at each of any successive moments of a connection: each yields what it must at its cursor; what was yielded covers the log up to the cursor; a reader that keeps within the window gets exactly the published part of the log, in order; and the end is reported by every poll after the terminal event and by no other unless the channel is closed |
| ClientEvents.ClientEventStream.ReadToEnd | crates/zhive-client-native/src/events.rs:13-26 | reading on reaches the terminal event however far behind, and no lag skips it |
| PermissionRegistry.ResolveByHistory | crates/zhive-core/src/permission.rs:334-346 | the result of a resolve is determined by the history, whatever other tasks do between the removal and the send: unknown, abandoned, or success with the very context recorded |
| PermissionRegistry.AfterEntry | crates/zhive-core/src/permission/pending.rs:141-160 | an entry is in the store exactly when the history inserted it and has not removed or drained it since; drawing the number and inserting under it are apart |
| PermissionRegistry.AfterFlight | crates/zhive-core/src/permission/pending.rs:146-149 | which numbers are drawn and not inserted yet is determined by the history |
| PermissionRegistry.AfterWaiter | crates/zhive-core/src/permission.rs:278-287 | a waiter has gone exactly when the history says so, and its entry stays |
| PermissionRegistry.OutcomeStays | crates/zhive-core/src/permission.rs:339-345 | no section replaces what a channel holds, once it is used: a waiter gets at most one outcome |
| PermissionRegistry.CancelAllReachesEveryWaiter | crates/zhive-core/src/permission.rs:414-418 | the drain of `cancel_all` leaves nothing pending, and whatever comes after it, each sender drained is still to be used, or its waiter holds the cancellation, or has gone |
| PermissionRegistry.NobodyForgotten | crates/zhive-core/src/permission/pending.rs:141-219 | in every history a waiter that listens and has nothing has its sender in the table, in the hand of a resolve or in the list of a cancellation |
| PermissionRegistry.AbandonedIff | crates/zhive-core/src/permission/pending.rs:198-213 | a sender is dropped unused if and only if a later insertion took its key while its entry was pending |
| PermissionRegistry.DrawnKeyIsNew | crates/zhive-core/src/permission/pending.rs:146-147 | while the counter does not wrap, an enrolment draws a key that nobody has drawn or reinstated before |
| PermissionRegistry.OverwritesOnlyReinstated | crates/zhive-core/src/permission/pending.rs:146-149 | an enrolment that finds its key pending had drawn it before a reinstatement of that key |
| PermissionRegistry.ReinstatedKeyReused | crates/zhive-core/src/permission/pending.rs:198-213 | no later enrolment draws a reinstated key unless it is the largest 64-bit value, which the very next one draws |
| PermissionRegistry.ResolvedAgainIff | crates/zhive-core/src/permission.rs:334-346 | a key that has been resolved becomes pending again, while the counter does not wrap, if and only if it is reinstated afterwards, or somebody who had obtained it before inserts it afterwards |
| PermissionRegistry.ResolvedStaysUnknown | crates/zhive-core/src/permission.rs:334-346 | a resolved key that is never reinstated, before or after, is not pending again |
| PermissionRegistry.KeyResolvesTwice | crates/zhive-core/src/permission/pending.rs:146-149 | a concrete history in which a key resolves twice with no reinstatement in between |
| PermissionRegistry.EnrolmentDropsReinstated | crates/zhive-core/src/permission/pending.rs:198-213 | a concrete history in which an enrolment drops the sender of a reinstated request |
| PermissionRegistry.ReinstatementDropsLive | crates/zhive-core/src/permission/pending.rs:198-213 | a concrete history in which a reinstatement drops the sender of a live request |
| PermissionRegistry.WireRoundTrip | crates/zhive-core/src/permission/pending.rs:80-99 | decoding an encoded key gives it back |
| PermissionRegistry.AcceptedIff | crates/zhive-core/src/permission/pending.rs:90-99 | a wire id is accepted if and only if it is `perm:`, perhaps a plus sign, and digits of a number of 64 bits, and stands for that number |
| PermissionRegistry.CanonicalIff | crates/zhive-core/src/permission/pending.rs:90-99 | an accepted wire id is the canonical one if and only if it has no plus sign and no superfluous zero |
| PermissionReducer.PermissionReducer.EnrollWithContext | crates/zhive-core/src/permission/pending.rs:141-151 | under interference: enrols under a key drawn before the lock, with the context; nothing was pending under it unless somebody reinstated it in between |
| PermissionReducer.PermissionReducer.ResolveWithContext | crates/zhive-core/src/permission.rs:334-346 | under interference between the removal and the send: unknown exactly when nothing was pending, abandoned exactly when the waiter has gone by the time of the send, else the recorded context and the outcome delivered |
| PermissionReducer.PermissionReducer.ReinstateForResume | crates/zhive-core/src/permission.rs:402-410 | under interference between the counter and the table: the request is pending under its old key, on a fresh channel |
| PermissionReducer.PermissionReducer.CancelAll | crates/zhive-core/src/permission.rs:414-418 | under interference between the sends: everything pending at the drain ends cancelled or without a waiter |
| PermissionReducer.PermissionReducer.Wait | crates/zhive-core/src/permission.rs:278-307 | a wait returns the outcome, abandonment or, only when bounded, a timeout, which leaves the entry |
| PermissionRoundTrip.ReturnedReleasesTheRequest | crates/zhive-bridge-acp/src/lib.rs:906-952 | when `handle_permission` returns, its key is gone; the waiter got the outcome submitted or a cancellation, a cancellation if the abort arm won, and otherwise only what the client answered |
| PermissionRoundTrip.CancelledIffAbortWon | crates/zhive-bridge-acp/src/lib.rs:914-942 | `handle_permission` comes back as cancelled if and only if an abort was visible to its subscription when the race was decided, however the client answered; otherwise the reply had come and its outcome was submitted, a failed request counting as a cancellation |
| PermissionRoundTrip.HeardFromTheClient | crates/zhive-bridge-acp/src/lib.rs:931-940 | the bridge takes for the client's reply exactly what the client replied |
| PermissionRoundTrip.EventsOfRun | crates/zhive-bridge-acp/src/lib.rs:901-914 | every request and cancellation is broadcast once and in order, and a bridge subscribes only after its request has been |
| PermissionRoundTrip.SubmissionsInOrder | crates/zhive-core/src/engine/inner.rs:540-612 | submissions to the actor are taken one at a time and in order |
| PermissionRoundTrip.CancellationIsFinishedFirst | crates/zhive-core/src/engine/inner.rs:540-602 | the actor is done with a cancellation before it takes the next submission |
| PermissionRoundTrip.NobodyIsLeftWaiting | crates/zhive-bridge-acp/src/lib.rs:944-951 | then no waiter is still waiting, unless the actor is inside a cancellation |
| PermissionRoundTrip.OutcomeIsFinal | crates/zhive-core/src/permission.rs:334-346 | along every run the outcome a waiter got stays |
| PermissionRoundTrip.WaitForSessionAbort | crates/zhive-bridge-acp/src/lib.rs:961-972 | the loop returns if and only if an abort is ahead of the subscription and inside its window |
| PermissionRoundTrip.VisibleAbortWins | crates/zhive-bridge-acp/src/lib.rs:919-930 | an abort the bridge can see wins by polling alone, and submits a cancellation |
| PermissionRoundTrip.BlindUntilAnswered | crates/zhive-bridge-acp/src/lib.rs:919-942 | a bridge with no visible abort and no answer waits, whatever happens, until the client answers or the thread is aborted again |
| PermissionRoundTrip.AnAbortCanBeMissed | crates/zhive-bridge-acp/src/lib.rs:914-923 | a concrete run in which the abort precedes the subscription |
| PermissionComposition.EnrolSimulated | crates/zhive-core/src/permission/pending.rs:148-149 | an enrolment in the round trip is the insertion of a key drawn before |
| PermissionComposition.ResumeSimulated | crates/zhive-core/src/permission.rs:334-346 | the actor's resolve in the round trip is the store's removal followed by its send |
| PermissionComposition.CancelSimulated | crates/zhive-core/src/permission/pending.rs:216-219 | the actor's cancellation is the store's drain |
| PermissionComposition.TellSimulated | crates/zhive-core/src/permission.rs:414-418 | telling one drained request is the store's send to it |
| PermissionComposition.LeaveSimulated | crates/zhive-core/src/permission.rs:278-287 | a waiter that leaves is a lost receiver of the store |
| PermissionComposition.RunsAreHistories | crates/zhive-core/src/permission/pending.rs:141-219 | every run of the round trip, with its keys drawn at any earlier moments and inserted in any order, is a history of the store, with the same table, drained senders and channels |
| PermissionComposition.EveryRunIsAHistory | crates/zhive-core/src/permission/pending.rs:141-219 | no run of the round trip with 64-bit keys is left out |
| PermissionComposition.RemovalCommutesIff | crates/zhive-core/src/permission.rs:339-345 | a drawing, an insertion or a leaving waiter between the removal and the send of a resolve might as well have come before, if and only if it does not insert under the key removed |
| PermissionComposition.ResolveAsOneStep | crates/zhive-core/src/permission.rs:339-345 | so with any number of such sections in between the resolve can be taken as one step at the time of its send |
| StreamTurn.StreamEvents | crates/zhive-bridge-acp/src/lib.rs:741-869 | the loop computes the specification function of the received events and gaps |
| StreamTurn.ToolCallsWellFormed | crates/zhive-bridge-acp/src/lib.rs:785-803 | for every loss pattern, per tool-call id one announcement comes first and only updates follow |
| StreamTurn.UpdatesAreEventwise | crates/zhive-bridge-acp/src/lib.rs:750-869 | the output is the concatenation of what each event shows, read off the input without any state |
| StreamTurn.EveryToolItemAppears | crates/zhive-bridge-acp/src/convert.rs:639-652 | every tool item reached makes an update with its own body, the announcement when no earlier item with its id survived |
| StreamTurn.SameProviderIdIsOneCall | crates/zhive-bridge-acp/src/convert.rs:316-330 | items with one provider id are one call to the client: every later one is an update of it |
| StreamTurn.SameItemIdIsOneCall | crates/zhive-bridge-acp/src/convert.rs:316-330 | items without provider id are one call if and only if their own ids agree |
| StreamTurn.ConversionsAgree | crates/zhive-bridge-acp/src/convert.rs:578-652 | the general conversion of a tool item is its announcement |
| StreamTurn.EveryPlanAppears | crates/zhive-bridge-acp/src/convert.rs:579 | a plan of the turn that is reached always appears |
| StreamTurn.TurnEnds | crates/zhive-bridge-acp/src/lib.rs:804-865 | the turn ends at the first of: its own completion or failure, an abort of its thread, a permission request of its thread that comes back cancelled; it is cancelled, and the session removed, exactly for the last two; a stream that closes first ends it normally |
| StreamTurn.FailureIsShownLast | crates/zhive-bridge-acp/src/lib.rs:834-853 | a failure of the turn is the last message shown |
| StreamTurn.OnlyOwnEventsMatter | crates/zhive-bridge-acp/src/lib.rs:752-867 | the output is a function of the turn's own events |
| StreamTurn.SameOwnEventsSameOutput | crates/zhive-bridge-acp/src/lib.rs:752-866 | inserting or deleting foreign events anywhere leaves updates and stop reason unchanged |
| StreamTurn.IgnorableExactlyWhenSilent | crates/zhive-bridge-acp/src/lib.rs:752-866 | a receipt can be removed anywhere unnoticed if and only if it shows nothing and ends nothing; foreign ones are such |
| StreamTurn.TextsShownOnce | crates/zhive-bridge-acp/src/convert.rs:554-588 | in a loss-free turn streamed as documented, message chunks concatenate to the agent messages and notices, thought chunks to the reasoning and thoughts, once each and in order |
| AgentState.NothingIssuedTwice | crates/zhive-bridge-acp/src/state.rs:156-187 | however callers interleave, no session id is handed out twice, no thread is bound twice, live sessions differ in id and thread, at most 1024 are live |
| AgentState.EvictionTakesTheOldest | crates/zhive-bridge-acp/src/state.rs:162-187 | an insert evicts only at the cap, and then the live session handed out first; the rest stay |
| AgentState.RebindIsFresh | crates/zhive-bridge-acp/src/state.rs:285-293 | a rebind gives a thread never bound before, clears the effort and leaves other sessions alone |
| AgentState.StepKeeps | crates/zhive-bridge-acp/src/state.rs:156-293 | every operation keeps the run invariant |
| AgentState.RemovedIsUnknown | crates/zhive-bridge-acp/src/state.rs:209-218 | in every run a removed session is unknown afterwards and every other is as it was |
| AgentState.EffortReadBack | crates/zhive-bridge-acp/src/state.rs:244-258 | in every run the effort set is the effort read back, and every other session is as it was |
| AgentState.RemoveInView | crates/zhive-bridge-acp/src/state.rs:209-218 | removing from map and queue is removing from the list, and they stay in step |
| AgentState.AgentState.NextId | crates/zhive-bridge-acp/src/state.rs:310-314 | draws a number nobody else has |
| AgentState.AgentState.Insert | crates/zhive-bridge-acp/src/state.rs:160-187 | the locked part of creating a session refines the bounded list and hands out a new id |
| AgentState.AgentState.NewSession | crates/zhive-bridge-acp/src/state.rs:156-187 | minting outside the lock and inserting |
| AgentState.AgentState.RemoveSession | crates/zhive-bridge-acp/src/state.rs:209-218 | refines removal from the list; unknown ids change nothing |
| AgentState.AgentState.ThreadForSession | crates/zhive-bridge-acp/src/state.rs:222-227 | agrees with the list |
| AgentState.AgentState.SessionEffort | crates/zhive-bridge-acp/src/state.rs:256-258 | agrees with the list |
| AgentState.AgentState.SetSessionEffort | crates/zhive-bridge-acp/src/state.rs:244-249 | refines the change in the list; unknown ids change nothing |
| AgentState.AgentState.RebindSession | crates/zhive-bridge-acp/src/state.rs:285-293 | refines the change in the list; the thread returned was never bound |
| InjectionQueues.ItemsConserved | crates/zhive-core/src/queues.rs:101-161 | in every run, pushed equals consumed plus queued plus outstanding plus cleared, per queue; next-turn is never cleared |
| InjectionQueues.BatchSettled | crates/zhive-core/src/queues.rs:110-130 | an outstanding batch is settled by one step: applied, its items are consumed; put back, they are in front of the queue again |
| InjectionQueues.OrderlyRunsAreFifo | crates/zhive-core/src/queues.rs:101-130 | with batches put back newest first and applied oldest first, consumed, outstanding and queued items together are the kept ones in order |
| InjectionQueues.ArrivalOrderKept | crates/zhive-core/src/queues.rs:101-161 | they are a subsequence of the pushed items in order of arrival, and what is left out is what aborts cleared |
| InjectionQueues.RestoringUndoesDraining | crates/zhive-core/src/queues.rs:110-130 | restoring outstanding batches in reverse order gives exactly the queue that would exist had nothing been drained, with pushes in between |
| InjectionQueues.RestoringOldestFirst | crates/zhive-core/src/queues.rs:125-130 | in the other order it does so if and only if the two batches commute |
| InjectionQueues.AbortSparesNextTurn | crates/zhive-core/src/queues.rs:153-161 | an abort clears the two queues into the snapshot and leaves next-turn and outstanding batches alone |
| InjectionQueues.InjectionQueues.SetMode | crates/zhive-core/src/queues.rs:92-98 | sets one queue's mode; next-turn stays "all" |
| InjectionQueues.InjectionQueues.PushBack | crates/zhive-core/src/queues.rs:101-106 | appends in order, other queues untouched |
| InjectionQueues.InjectionQueues.Drain | crates/zhive-core/src/queues.rs:110-121 | takes everything or exactly one item from the front, by mode |
| InjectionQueues.InjectionQueues.RestoreFront | crates/zhive-core/src/queues.rs:125-130 | puts the batch back in its original order |
| InjectionQueues.InjectionQueues.Abort | crates/zhive-core/src/queues.rs:153-161 | reports and clears two queues, keeps the third, saturates its count at 32 bits |
| Utf8Truncation.EncodedIsValid | crates/zhive-cli/src/system_prompt.rs:187-198 | encoded text is well formed (section 4 of RFC 3629) and decodes to itself |
| Utf8Truncation.ValidIsEncoded | crates/zhive-cli/src/system_prompt.rs:187-198 | every well-formed byte string is the encoding of its decoded text |
| Utf8Truncation.BoundaryIsValidPrefix | crates/zhive-cli/src/system_prompt.rs:192 | the byte-level boundary test is true exactly where a prefix is well formed |
| Utf8Truncation.BoundaryIsBetweenChars | crates/zhive-cli/src/system_prompt.rs:192 | it coincides with the character boundaries of the decoded text |
| Utf8Truncation.TruncateOnBoundary | crates/zhive-cli/src/system_prompt.rs:187-198 | the loop keeps a text that fits, and otherwise whole characters within the budget, and the marker |
| Utf8Truncation.TruncationMeaning | crates/zhive-cli/src/system_prompt.rs:187-198 | what is kept is the longest well-formed prefix that fits, at most three bytes are lost, and the result fits the budget if and only if nothing was cut |
| Utf8Truncation.MarkerBytes | crates/zhive-cli/src/system_prompt.rs:41 | the marker is well formed and 43 bytes long |
| Utf8Truncation.FindInstructions | crates/zhive-cli/src/system_prompt.rs:169-181 | the first readable candidate, nearest directory first, cut to 32 KiB, flagged exactly when it was longer |
| Newlines.NormalizeIsReplacement | crates/zhive-cli/src/prompt_template.rs:233-239 | both paths drop exactly the CRs that stand before an LF |
| Newlines.NormalizeIdentity | crates/zhive-cli/src/prompt_template.rs:233-239 | a text is left alone if and only if it holds no CR LF |
| Newlines.SecondNormalization | crates/zhive-cli/src/prompt_template.rs:233-239 | a second normalisation changes nothing if and only if there is no CR CR LF |
| Newlines.NormalizeUndoesCheckout | crates/zhive-cli/src/prompt_template.rs:215-223 | normalising a checkout with CRLF endings gives the original, for every text |
| Newlines.NormalizeUndoesSparingCheckout | crates/zhive-cli/src/prompt_template.rs:215-223 | under a checkout that spares existing CR LF, if and only if the text had none |
| Newlines.CheckoutUndoesNormalize | crates/zhive-cli/src/prompt_template.rs:233-239 | checking out again gives the input if and only if every LF had its CR |
| Slash.MenuEntryRuns | crates/zhive-bridge-acp/src/slash.rs:146-183 | an advertised entry typed as `/name` runs its own skill if and only if its name has no whitespace, is no built-in, has no `skill:` prefix and is the first of that name; arguments arrive trimmed |
| Slash.ExplicitEntryRuns | crates/zhive-bridge-acp/src/slash.rs:166-169 | `/skill:name` runs it if and only if its name has no whitespace and is the first of that name, whatever the built-ins |
| Slash.InvocationCarriesArguments | crates/zhive-bridge-acp/src/slash.rs:169-176 | the prompt becomes the skill's block and, if there are any, a blank line and exactly the trimmed arguments; further blocks do not matter |
| Slash.CommandsIff | crates/zhive-bridge-acp/src/slash.rs:146-153 | a prompt is a command if and only if its first block is text that starts, after whitespace, with a slash |
| Slash.BuiltinPrompt | crates/zhive-bridge-acp/src/slash.rs:160-165 | the prompt of a built-in does what that built-in does, whatever the catalogue and further blocks |
| Slash.UnknownPrompt | crates/zhive-bridge-acp/src/slash.rs:166-181 | a name that is no built-in and, without the explicit prefix, no skill is reported as typed |
| Slash.BuiltinsComeFirst | crates/zhive-bridge-acp/src/slash.rs:161-166 | a built-in runs whatever the catalogue holds, and nothing else is one |
| Slash.TrimMeaning | crates/zhive-bridge-acp/src/slash.rs:153-159 | trimming takes whitespace off both ends and nothing else |
| Slash.WhitespaceListed | crates/zhive-bridge-acp/src/slash.rs:153-159 | whitespace is the twenty-five characters of the Unicode property |
| Slash.FindIsFirst | crates/zhive-bridge-acp/src/slash.rs:169 | the lookup returns the first entry of that name |

## Left out

- Sockets, pipes, `Content-Length` framing and serde: a frame is an atomic message and JSON bodies are opaque.
- Tokio's scheduler, real time and the five-second wait of `shutdown`: a timeout is a step that may or may not happen, and no liveness of `shutdown` across clones is claimed.
- Builder setters, version decoding and the handshake: two calls and notifications like any other on the queue.
- The text of the "method not found" message quotes the method name without the escapes of Rust's debug format.
- Parameters of requests and notifications, and the data field of error objects.
- The engine's turn loop, compaction, persistence and storage: only the steps of its actor that touch permissions are modelled, with the actor running. A closed event stream in `handle_permission` (engine gone) and the race of two engines' actors are not.
- The decision fold `reduce` and the set of tools that are always allowed.
- The handler slot as an object: it is set and read once per request by two steps of the transition system.
- Working directories and client capabilities of a session: stored and never read by the modelled operations.
- Tool-call titles, kinds, statuses, content and locations: one opaque body per item, passed through.
- How `handle_permission` ends inside `stream_turn`: an arbitrary function of the request, since `PermissionRoundTrip` treats the race itself.
- Skill descriptions and input hints of the menu beyond the name a client types back.
- The path of the instruction file found, and reading it.
- The allocation behaviour of `normalize_newlines` and `truncate_on_boundary`.
- CLI, TUI, configuration, providers, MCP, tracing and schema emission.
- ConnectionTasks.Link.Call: a call that finds the queue full, or no answer yet, is returned to as still waiting rather than polled again, because what happens next is a matter of scheduling.
- ConnectionTasks.Link.ReaderTask: a reply that finds the queue full ends the method at that point, for the same reason.
- ConnectionTasks.Link.WriterTask: the loop is bounded by a number of messages, and stops where the queue is empty; both are places where the real task is suspended.
