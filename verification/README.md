# Verified model of the runtime

This project models the parts of the runtime whose guarantees hold over whole runs rather than in one
branch, and proves those guarantees in Dafny. `dafny verify dfyconfig.toml` checks everything.

**Team delivery queue.** `TeamState` holds the nine maps of the team service and each locked section as a
function on them; `TeamHydration` and `TeamRestart` cover startup from stored rows, `TeamSends`
idempotent sends and `TeamPaging` message pages. `DeliveryMachine` interleaves all sections freely, with any
number of injection attempts that hold a recipient's guard; `DeliveryRuns`, `DeliveryOrder` and
`DeliveryOnce` prove what every interleaving keeps; where retries or cancels break a guarantee,
`DeliveryRaces` and `DeliveryJumps` give the exact condition, with continuations built from
`AttemptSchedules` and `DeliveryReady`. `DeliveryCalls`, `Completion` and `ResumePass` take calls one at a
time, and `AtomicAttempts` shows that such a call is one schedule of the machine. `TeamService` is the
service as an object, with the loops and in-place updates of the source, tied to the same functions.

**Sessions, turns, approvals and startup recovery.** `TurnMachine` takes each manager call as one step with
arbitrary provider answers; `Recovery` takes arbitrary persisted records to recovered ones and compares them
with the separate anomaly checker; `RuntimeManager` is the manager as an object.

**Event log and streams.** `EventLog` is the table with idempotent append, numbering by scope and paged
queries; `BroadcastStream` and `PollingStream` interleave appends with the two ways a stream goes live.

**Smaller machines.** `BridgeLanes` and `BridgeOvertaking` (worker lanes of the Claude bridge), `AcpTurns`
(turn table and waiters of the ACP provider), `OutputPump` (bounded copy of process output) and `TomlString`
(string printer).

How the model reads the source:

- A section under a lock is one atomic step, and a store transaction is one atomic step that succeeds. Ids
  handed out by counters are parameters that have not been used before. Clocks, session lookups and provider
  answers are parameters, arbitrary unless a result says otherwise.
- Payload fields that no decision inspects are left out of the records. Error texts are left out; error
  kinds are kept.
- A delivery's recorded status is the one in memory; a write to the store follows it.
- Runs start from records that satisfy the invariant, with no call in flight. Results that name a continuation
  also take the stored policies to be known ones, as validation admits no others.
- A delivery is in hand of an attempt from its look at the queue until its claim. An attempt that has yet to
  look and would find a blocker stops there, unless the blocker goes first; the conditions on retries and
  cancels are stated for the other states.

What the code does where one might expect otherwise:

- A recipient whose session is missing or closed does not fail a delivery: there is no such edge, so the
  call returns an error and the status stays (`DeliveryCalls.MissingRecipientChangesNothing`).
- An attempt whose claim loses its compare-and-set still sends the turn, so a cancel or a retry between its
  look and its claim does harm. That is exactly when they do (`DeliveryRaces.CancelIsSafeExactlyWhen`,
  `DeliveryRaces.RetryIsSafeExactlyWhen`).
- A retry can put a delivery back ahead of one that is on its way, which breaks first in, first out; exactly
  such retries do (`DeliveryJumps.OrderIsSafeExactlyWhen`).
- A restart orders a recipient's queue by creation time and then by id as text, which is the old order exactly
  when the old one was sorted so (`TeamRestart.RestartKeepsQueueExactlyWhen`).
- A second startup recovery can change records: the first one reopens a shut session that still holds a
  turn with a pending approval, and the second one fails it if it has no provider reference. The exact
  condition is proved (`Recovery.RecoveryIsIdempotentExactlyWhen`).
- An empty key prints as nothing, which is no TOML key (`TomlString.KeyRoundTrip`); the one caller never
  passes an empty one.
- Events with a blank session id are hashed by turn or name, so a later one can overtake an earlier one and
  the bridge fails; the exact condition, a full queue holding the reader back included, is
  `BridgeOvertaking.SafeExactlyWhen`.
- A turn whose approval was accepted can lose the session's slot to another send and then never gets a
  result; exactly when is `AcpTurns.AcceptedTurnIsLostExactlyWhen`.

## Model

| member | source | states |
|---|---|---|
| DeliveryOrder.FirstInFirstOut | crates/runtime-core/src/team_comms/delivery.rs:27-71 | In every interleaving in which no retry puts a delivery back ahead of one that is injecting or can still be claimed, everything ahead of an injecting delivery in its recipient's queue is terminal, and no other delivery of that recipient is injecting |
| DeliveryJumps.OrderIsSafeExactlyWhen | crates/runtime-core/src/team_comms/service_impl.rs:658-686 | In every state reached without such a retry, and for every next step: no continuation in which nothing else jumps a queue puts an injecting delivery out of turn, exactly when the step is not a retry of a delivery ahead of one that is injecting or can still be claimed |
| DeliveryOrder.OneAtATime | crates/runtime-core/src/team_comms/delivery.rs:27-41 | In any interleaving, retries and all, no two deliveries of one recipient are injecting together, if nothing is injecting at the start |
| DeliveryOrder.EntersInTurn | crates/runtime-core/src/team_comms/delivery.rs:175-184 | While no retry jumps a queue so, a delivery enters injecting only from pending or deferred, and only when everything ahead of it was terminal already before that step |
| DeliveryRuns.EveryRunKeepsTheMaps | crates/runtime-core/src/team_comms/mod.rs:526-532 | After every interleaving the nine maps agree and records are clean, and no two injection attempts past the guard work for one recipient |
| DeliveryRuns.StatusGraph | crates/runtime-core/src/team_comms/helpers.rs:129-144 | Whatever runs and whatever step follows, each in-memory status change is an edge of the transition table, a cancel from an open status, or that delivery's own retry; failed is entered only from injecting and left only by retry |
| DeliveryRuns.FinalStatusesStay | crates/runtime-core/src/team_comms/delivery.rs:290-315 | Injected and cancelled are absorbing over whole runs for as long as the delivery exists |
| DeliveryRuns.MarksFollowStatus | crates/runtime-core/src/team_comms/delivery.rs:299-314 | In every reachable state a turn id implies injected and an error code implies failed |
| DeliveryOnce.AcceptedAtMostOnce | crates/runtime-core/src/team_comms/delivery.rs:62-214 | In every interleaving in which no retry of the delivery succeeds while an attempt has it in hand, between its look and its claim, the delivery's turn is accepted at most once; retries of others, and of this one at any other time, are allowed |
| DeliveryRaces.RetryIsSafeExactlyWhen | crates/runtime-core/src/team_comms/service_impl.rs:658-686 | In every state reached without such a retry, in which no attempt still has to look past a blocker of the delivery, a retry that succeeds is safe exactly when no attempt has the delivery in hand: no continuation without another such retry has it accepted twice |
| DeliveryOnce.WithoutRetriesNothingTwice | crates/runtime-core/src/team_comms/delivery.rs:186-214 | In a run without retries no delivery is accepted twice |
| DeliveryOnce.AcceptedIsNotCancelled | crates/runtime-core/src/team_comms/delivery.rs:296-298 | In every interleaving in which neither a retry of the delivery nor a cancel of its message succeeds while an attempt has it in hand, an accepted delivery that exists is not cancelled |
| DeliveryRaces.CancelIsSafeExactlyWhen | crates/runtime-core/src/team_comms/service_impl.rs:710-753 | In every state reached without such a retry or cancel, in which no attempt still has to look past a blocker of the delivery, a cancel of its message that succeeds is safe exactly when no attempt has the delivery in hand: no continuation without another such cancel or retry leaves it accepted and cancelled |
| DeliveryRaces.CancelledYetSent | crates/runtime-core/src/team_comms/delivery.rs:296-298 | From every reachable state in which an attempt has a delivery in hand that nothing blocks, a cancel does not stop it: some continuation without further cancels or retries has the turn of the cancelled delivery accepted |
| DeliveryRaces.RetriedYetSentTwice | crates/runtime-core/src/team_comms/service_impl.rs:658-686 | From every reachable state in which an attempt has a delivery in hand that nothing blocks, a retry of it has a continuation without further retries or cancels in which its turn is accepted twice |
| DeliveryReady.QueueClears | crates/runtime-core/src/team_comms/delivery.rs:27-71 | From every reachable state a queue whose guard is free can be cleared up to any place before which everything is open or terminal, by attempts the provider refuses, touching nothing else |
| AtomicAttempts.CallsAreSchedules | crates/runtime-core/src/team_comms/delivery.rs:13-240 | The call computed in one go and the sections of an attempt run without interruption end in the same state, with guards and attempts in flight as before |
| DeliveryCalls.FreeRecipientIsSent | crates/runtime-core/src/team_comms/delivery.rs:175-239 | When nothing stops an attempt the delivery ends injected with the accepted turn id, deferred without marks, or failed as provider_rejected, by the answer, and nothing else changes |
| DeliveryCalls.MissingRecipientChangesNothing | crates/runtime-core/src/team_comms/delivery.rs:80-110 | A missing, closed or failed recipient session makes the call an error that changes no status, because there is no edge from pending or deferred to failed |
| Completion.CompletionIsAnnouncedOnce | crates/runtime-core/src/team_comms/delivery.rs:340-373 | With calls taken one at a time and no retries, a message that has deliveries is announced complete exactly when all are terminal, and at most once over the whole run, deletion of its team included |
| Completion.CancelIsAllOrNothing | crates/runtime-core/src/team_comms/service_impl.rs:729-751 | A cancel succeeds exactly when every delivery of the message is pending or deferred, and then cancels all of them |
| Completion.EmptyMessagesRepeat | crates/runtime-core/src/team_comms/service_impl.rs:767-774 | A message without deliveries is announced again by every cancel, so messages without deliveries are excluded above |
| Completion.NoMessagesIsFaithful | crates/runtime-core/src/team_comms/mod.rs:140-147 | A service that has no messages starts in the state the announcement results require |
| ResumePass.ResumeStartsOneTurn | crates/runtime-core/src/team_comms/delivery.rs:399-422 | A resume pass with policies that interrupt nothing and no turn ending meanwhile leaves the formerly deferred deliveries, in queue order, as failed ones, then at most one injected, then deferred ones, and touches no other record |
| Injection.NoBlockerMeansFirst | crates/runtime-core/src/team_comms/delivery.rs:375-397 | If the queue search finds no blocker then everything ahead in the recipient's queue is terminal |
| Injection.BlockerIsAhead | crates/runtime-core/src/team_comms/delivery.rs:383-395 | A blocker that is found is a known, non-terminal delivery that stands ahead in the queue |
| TeamHydration.HydrationEstablishes | crates/runtime-core/src/team_comms/mod.rs:62-134 | Well-formed rows hydrate to a state that satisfies the nine-map invariant |
| TeamHydration.QueuesFollowRows | crates/runtime-core/src/team_comms/mod.rs:110-134 | After hydration each recipient's queue is exactly its kept rows in row order |
| TeamRestart.StoredRowsAreWellFormed | crates/runtime-core/src/team_comms/mod.rs:62-134 | Rows that hold the records of a state that keeps the invariant, each once, are well formed |
| TeamRestart.RestartRestores | crates/runtime-core/src/team_comms/mod.rs:62-134 | Rows that hold the records of any reachable state hydrate to that state, up to the order inside its lists |
| TeamRestart.RestartKeepsQueueExactlyWhen | crates/runtime-store-sqlite/src/repository_hydration.rs:202 | Rows sorted by creation time and id restore a recipient's queue exactly when the queue was sorted so |
| TeamState.CreateTeamKeeps | crates/runtime-core/src/team_comms/service_impl.rs:42-89 | Creating a team keeps the nine-map invariant |
| TeamState.JoinKeeps | crates/runtime-core/src/team_comms/service_impl.rs:149-182 | Joining a team keeps the nine-map invariant |
| TeamState.RemoveMemberKeeps | crates/runtime-core/src/team_comms/service_impl.rs:207-256 | Removing a member keeps the nine-map invariant, in particular that the lead is a member |
| TeamState.OldestIsUnique | crates/runtime-core/src/team_comms/service_impl.rs:233-240 | The heir of a removed lead is determined: only one member can be the oldest by join time, then id |
| TeamState.SetLeadKeeps | crates/runtime-core/src/team_comms/service_impl.rs:285-303 | Changing the lead keeps the nine-map invariant |
| TeamState.CreateMessageKeeps | crates/runtime-core/src/team_comms/mod.rs:355-492 | Creating a message with its deliveries, or finding an earlier one, keeps the nine-map invariant |
| TeamState.AdmittedIsNormal | crates/runtime-core/src/team_comms/mod.rs:329-353 | What validation lets through is normal already: the key trimmed and not empty, the scope one of the two there are, the policy one of the known ones |
| TeamState.TransitionKeeps | crates/runtime-core/src/team_comms/delivery.rs:290-315 | A compare-and-set of a status keeps the nine-map invariant |
| TeamState.StampKeeps | crates/runtime-core/src/team_comms/delivery.rs:247-255 | Recording a turn id keeps the nine-map invariant |
| TeamState.RetryKeeps | crates/runtime-core/src/team_comms/service_impl.rs:658-686 | A retry keeps the nine-map invariant |
| TeamState.CancelKeeps | crates/runtime-core/src/team_comms/service_impl.rs:710-753 | A cancel keeps the nine-map invariant |
| TeamState.DeleteTeamKeeps | crates/runtime-core/src/team_comms/service_impl.rs:327-392 | Deleting a team keeps the nine-map invariant |
| TeamState.DoomedAreTheTeams | crates/runtime-core/src/team_comms/service_impl.rs:354-366 | The deliveries a delete collects from two indexes are exactly those of the team, and so are its messages |
| TeamState.PurgeIsExact | crates/runtime-core/src/team_comms/service_impl.rs:386-388 | The purge by key prefix leaves exactly the index entries of other teams' messages |
| TeamState.IdempotencyKeyIsInjective | crates/runtime-core/src/team_comms/helpers.rs:111-113 | The joined key determines team, sender, scope and key when the first three hold no bar |
| TeamState.SessionIdHasNoBar | crates/runtime-core/src/runtime/mod.rs:133-136 | A session id as it is allocated, from provider name, time and counter, holds no bar |
| TeamSends.OneMessagePerSend | crates/runtime-core/src/team_comms/mod.rs:458-468 | At most one live message exists per team, sender, scope and key |
| TeamSends.ResendReturnsTheMessage | crates/runtime-core/src/team_comms/mod.rs:372-395 | An accepted resend changes nothing and returns the live message with its current deliveries, each once |
| TeamSends.FoundMessageCarries | crates/runtime-core/src/team_comms/mod.rs:379-393 | While the invariant holds, what an admitted send of a member finds in the index was sent under its own team, sender, scope and key |
| TeamSends.SendsFindTheirOwn | crates/runtime-core/src/team_comms/mod.rs:379-393 | After any interleaving, what an admitted send of a team member finds in the index was sent under its own team, sender, scope and key |
| TeamSends.DeleteForgetsOnlyTheTeam | crates/runtime-core/src/team_comms/service_impl.rs:338-351 | After a delete a keyed message is still found exactly when it belongs to another team |
| TeamIndex.RetainTwice | crates/runtime-core/src/team_comms/helpers.rs:31-44 | Taking ids out of a queue in two goes is taking out their union |
| TeamPaging.PagesCoverTheTeam | crates/runtime-core/src/team_comms/service_impl.rs:549-604 | Following the cursors of pages of any size gives every message of the team once, in order, and ends |
| TeamPaging.PageAt | crates/runtime-core/src/team_comms/service_impl.rs:584-597 | A page holds the next messages in order, and its cursor stands for where it ended |
| TeamService.RuntimeTeamCommsService.constructor | crates/runtime-core/src/team_comms/mod.rs:56-134 | Startup fills the maps, row by row, to the hydrated state |
| TeamService.RuntimeTeamCommsService.CreateTeam | crates/runtime-core/src/team_comms/service_impl.rs:27-89 | Tied to the specified state change and error, first unavailable session included |
| TeamService.RuntimeTeamCommsService.JoinTeam | crates/runtime-core/src/team_comms/service_impl.rs:142-182 | Tied to the specified state change and error |
| TeamService.RuntimeTeamCommsService.RemoveTeamMember | crates/runtime-core/src/team_comms/service_impl.rs:199-256 | Tied to the specified state change and error; the heir is the oldest member left |
| TeamService.RuntimeTeamCommsService.Oldest | crates/runtime-core/src/team_comms/service_impl.rs:233-240 | The search finds the member who joined first, the smaller id among equals |
| TeamService.RuntimeTeamCommsService.SetTeamLead | crates/runtime-core/src/team_comms/service_impl.rs:277-303 | Tied to the specified state change and error |
| TeamService.RequireActive | crates/runtime-core/src/team_comms/service_impl.rs:37-40 | The checks stop at the first unavailable session and return its error |
| TeamService.ResolveRecipients | crates/runtime-core/src/team_comms/mod.rs:342-353 | The recipients are trimmed, each kept the first time it is named, and the first fault is the error |
| TeamService.RuntimeTeamCommsService.CreateMessage | crates/runtime-core/src/team_comms/mod.rs:355-492 | Tied to the specified state change and acknowledgement, for new and for repeated sends |
| TeamService.RuntimeTeamCommsService.TransitionDeliveryStatus | crates/runtime-core/src/team_comms/delivery.rs:271-356 | Tied to the specified compare-and-set, result and announcement |
| TeamService.RuntimeTeamCommsService.MessageTerminalState | crates/runtime-core/src/team_comms/delivery.rs:358-373 | The scan answers whether all listed deliveries are terminal, and yes for none |
| TeamService.RuntimeTeamCommsService.FindRecipientQueueBlocker | crates/runtime-core/src/team_comms/delivery.rs:375-397 | The search returns the first open delivery ahead in the queue |
| TeamService.RuntimeTeamCommsService.InjectDelivery | crates/runtime-core/src/team_comms/delivery.rs:13-240 | Tied to the call the results above are about: state, announcements and returned record |
| TeamService.RuntimeTeamCommsService.ResumeDeferredForRecipient | crates/runtime-core/src/team_comms/delivery.rs:399-422 | The loop over the deferred ids is the specified pass |
| TeamService.RuntimeTeamCommsService.RetryDelivery | crates/runtime-core/src/team_comms/service_impl.rs:650-700 | Tied to the retry section followed by an attempt |
| TeamService.RuntimeTeamCommsService.CancelMessage | crates/runtime-core/src/team_comms/service_impl.rs:702-777 | Tied to the specified all-or-nothing change and its announcement |
| TeamService.RuntimeTeamCommsService.DeleteTeam | crates/runtime-core/src/team_comms/service_impl.rs:323-392 | The loops over messages, lists and queues leave the specified state, and the cancelled deliveries are the open ones among those removed |
| TeamService.RuntimeTeamCommsService.ListMessages | crates/runtime-core/src/team_comms/service_impl.rs:549-604 | Tied to the specified page: clamped limit, position after the cursor, next cursor only when more is left |
| EventLog.AppendRefinesList | crates/runtime-store-sqlite/src/repository.rs:27-91 | For any appends, repeats included, the table is the list of first occurrences and is well formed |
| EventLog.WellFormedIds | crates/runtime-store-sqlite/src/repository.rs:41-60 | In a well-formed table event ids are unique and row ids count from 1 |
| EventLog.ScopedSeqs | crates/runtime-store-sqlite/src/repository.rs:62-90 | The rows of each scope carry exactly the numbers 1 to n in row order |
| EventLog.RepeatYieldsStoredRow | crates/runtime-store-sqlite/src/repository.rs:41-60 | However much later, appending a stored id changes nothing and yields the stored row |
| EventLog.FilterAscends | crates/runtime-store-sqlite/src/repository.rs:104-140 | What a query selects is strictly ascending in its order column |
| EventLog.Restart | crates/runtime-server/src/http/events.rs:41-60 | Asking again from the last position returned yields exactly what follows |
| EventLog.AbsentCursorIsZero | crates/runtime-store-sqlite/src/repository.rs:118-140 | No cursor and the cursor 0 select the same rows |
| EventLog.EventStore.AppendRuntimeEvent | crates/runtime-store-sqlite/src/repository.rs:27-91 | Tied to the append function: stored row of a repeat, next number of the scope otherwise |
| EventLog.EventStore.ListRuntimeEvents | crates/runtime-store-sqlite/src/repository.rs:93-140 | The scan with a limit is the specified query, and a limit beyond i64 is an error |
| EventLog.EventStore.Replay | crates/runtime-server/src/http/events.rs:41-60 | Over a fixed log the page loop with any limit of at least 1 ends and collects exactly the rows beyond the cursor |
| BroadcastStream.HandoffExactlyOnce | crates/runtime-server/src/http/events.rs:38-99 | In every interleaving of appends, broadcasts, subscription and page reads nothing is emitted twice, the replayed part ascends to the watermark and all later rows are above it, and a drained stream has emitted every wanted broadcast row once; process streams are the second instance |
| BroadcastStream.EventPublisher.AppendEvent | crates/runtime-core/src/runtime/events.rs:11-38 | The publisher stores the event and then broadcasts the stored row |
| PollingStream.PollingIsGapFree | crates/runtime-server/src/http/events.rs:129-188 | In every interleaving with appends, what a polling stream has emitted is an ascending initial run of the rows beyond the client's cursor |
| PollingStream.ShortPollCatchesUp | crates/runtime-server/src/http/teams.rs:422-487 | A poll that returns less than a full page has fetched everything there was |
| TurnMachine.TerminalIsFinal | crates/runtime-core/src/runtime/turns.rs:495-596 | Once a turn has ended its status never changes, over all runs, restarts and recoveries, those that fail half way included |
| TurnMachine.EndsAtMostOnce | crates/runtime-core/src/runtime/turns.rs:286-394 | Over whole runs each turn is announced as completed, interrupted or failed at most once, in agreement with its stored status, and a pending approval's turn waits for approval |
| RuntimeManager.RuntimeSessionManager.CreateSession | crates/runtime-core/src/runtime/sessions.rs:123-186 | Tied to the specified manager step; an error changes nothing |
| RuntimeManager.RuntimeSessionManager.ResumeSession | crates/runtime-core/src/runtime/sessions.rs:227-293 | Tied to the specified manager step, status overwrite included |
| RuntimeManager.RuntimeSessionManager.FinalizeSessionClose | crates/runtime-core/src/runtime/sessions.rs:295-324 | Tied to the specified manager step |
| RuntimeManager.RuntimeSessionManager.SendTurn | crates/runtime-core/src/runtime/turns.rs:19-222 | Tied to the specified manager step: rejected, held for approval or started |
| RuntimeManager.RuntimeSessionManager.RespondApproval | crates/runtime-core/src/runtime/turns.rs:261-397 | Tied to the specified manager step; a refused call changes nothing |
| RuntimeManager.RuntimeSessionManager.ApplyTerminalResult | crates/runtime-core/src/runtime/turns.rs:491-597 | Tied to the specified manager step; success means the stored status is the result |
| RuntimeManager.RuntimeSessionManager.ApplyTerminalFailure | crates/runtime-core/src/runtime/turns.rs:599-641 | Tied to the specified manager step |
| RuntimeManager.RuntimeSessionManager.RecoverStartup | crates/runtime-core/src/runtime/recovery.rs:12-256 | The two loops succeed exactly when every session can be recovered, and then leave the recovered records; otherwise they leave exactly the sessions reached so far recovered, with their turns and waits |
| Recovery.RecoveryMeetsChecker | crates/runtime-core/src/runtime/recovery.rs:54-252 | From arbitrary records whose approvals name their turn's session, a successful recovery leaves nothing for the checker to report |
| Recovery.CleanExactlyWhen | crates/runtime-core/src/runtime/recovery.rs:163-187 | Without that assumption the checker is silent exactly when no pending approval's turn is repaired as an orphan |
| Recovery.RecoveryIsIdempotentExactlyWhen | crates/runtime-core/src/runtime/recovery.rs:54-252 | A second recovery with echoing providers changes no record exactly when no shut session without a provider reference still held a turn with a pending approval |
| Recovery.ReopeningIsPossible | crates/runtime-core/src/runtime/recovery.rs:163-168 | The exception exists: a closed session can hold such a turn |
| Recovery.CollectAnomalies | crates/runtime-server/src/http/diagnostics.rs:223-281 | The checker reports exactly the anomalies of some session or approval |
| BridgeLanes.LanesKeepSessionOrder | crates/runtime-provider-claude/src/bridge.rs:64-137 | With sessions named in every event and any schedule, each session's handled events are a prefix of its emitted ones, all of them when drained, and the sequence failure is never reached |
| BridgeOvertaking.SafeExactlyWhen | crates/runtime-provider-claude/src/bridge.rs:64-137 | For any emitted events, no schedule of emission, reader and lanes fails the bridge exactly when every event carries a session id and, of two events with the same id in different lanes, more than a queue's capacity of events for the earlier one's lane lie between them |
| BridgeOvertaking.SharedLanesAreSafe | crates/runtime-provider-claude/src/bridge.rs:24-53 | It is enough that every event carries a session id and events with the same id share a lane; up to a queue's capacity of events that is also needed |
| BridgeLanes.SequenceTable.Admit | crates/runtime-provider-claude/src/bridge.rs:437-461 | An event is admitted exactly when it names a session and its number exceeds the session's last one |
| AcpTurns.SlotIsExclusive | crates/runtime-provider-acp/src/provider.rs:413-429 | The active turn and the pending approvals together number at most one |
| AcpTurns.ResultsAreFinal | crates/runtime-provider-acp/src/provider.rs:598-627 | A stored result is never overwritten |
| AcpTurns.NoLostWakeUp | crates/runtime-provider-acp/src/runtime_provider.rs:377-436 | No turn is both completed and waited for; a call on a completed turn is about to register, being sent, returned or gone; and what it is sent is exactly the stored result |
| AcpTurns.ParkedCallsWait | crates/runtime-provider-acp/src/runtime_provider.rs:405-421 | A parked call's turn holds the slot, is starting, is being declined, or lost its slot |
| AcpTurns.LostTurnsStayLost | crates/runtime-provider-acp/src/runtime_provider.rs:311-375 | A turn that lost its slot never gets a result |
| AcpTurns.AcceptedTurnIsLostExactlyWhen | crates/runtime-provider-acp/src/runtime_provider.rs:311-375 | For every reachable state, every accepted response and whatever runs until the turn starts: the turn is lost exactly when another turn took the slot meanwhile and still holds it |
| AcpTurns.NoOverlapKeepsTheSlot | crates/runtime-provider-acp/src/provider.rs:413-429 | A turn whose accepted response no other send overlaps is not lost |
| AcpTurns.OverlappingSendTakesTheSlot | crates/runtime-provider-acp/src/runtime_provider.rs:340-375 | In every reachable state a send between the removal of an accepted approval and the start of its turn makes that turn lose the slot |
| AcpTurns.AcpSessionState.CompleteTurn | crates/runtime-provider-acp/src/provider.rs:592-630 | Tied to the completion function: first result kept, slot and approvals freed, waiters drained |
| AcpTurns.AcpSessionState.Register | crates/runtime-provider-acp/src/runtime_provider.rs:405-421 | A call either gets the stored result or is parked under its turn |
| OutputPump.ManagedStream.Pump | crates/runtime-tools/src/process.rs:441-483 | However the stream is split into reads, the file is its first max bytes, the counter is the file's length and the flag says whether anything was dropped |
| OutputPump.SplitsAgree | crates/runtime-tools/src/process.rs:441-483 | Two splits of the same bytes leave the same file and flag |
| TomlString.StringRoundTrip | crates/runtime-provider-codex/src/mcp_config.rs:74-90 | Reading a printed string by the basic-string rules of TOML v1.0.0 gives it back, whatever follows |
| TomlString.PrintIsInjective | crates/runtime-provider-codex/src/mcp_config.rs:74-90 | Two strings that print alike are equal |
| TomlString.BodyIsClean | crates/runtime-provider-codex/src/mcp_config.rs:74-90 | A printed body holds no raw control character and no unescaped quote |
| TomlString.KeyRoundTrip | crates/runtime-provider-codex/src/mcp_config.rs:64-72 | A printed key segment reads back exactly when the key is not empty |
| TomlString.ArrayRoundTrip | crates/runtime-provider-codex/src/mcp_config.rs:3-62 | A printed array of strings reads back |
| TomlString.Print | crates/runtime-provider-codex/src/mcp_config.rs:74-90 | The printing loop produces the quoted form that the results are about |
| TomlString.PrintArray | crates/runtime-provider-codex/src/mcp_config.rs:3-62 | The loop with separators produces the array form that the results are about |

## Left out

- Process spawning, pipes, HTTP routing, SSE framing, authentication files, configuration, path lookup and the MCP sidecar: input and output without a provable core.
- SQLite errors and failed store writes: every write is taken to succeed, so memory and table never part.
- Serialisation, transcripts, usage and metadata payloads: no decision modelled here inspects them.
- Integer widths: sequence numbers and timestamps are unbounded; only the i64 limit of a query's page size is modelled.
- The values the id counters produce: new ids are taken to be unused, and `parse_counter` is not modelled.
- `recover_startup_deferred_deliveries`: it runs resume passes over the recipients in hash order and counts them; a single pass is modelled.
- `send_direct` and `broadcast` as calls: they normalise their request and then do `CreateMessage` and one `InjectDelivery` per new delivery, both of which are modelled.
- `interrupt_all_team_turns`, `get_deliveries` and `get_view_snapshot`: reads and a loop over another component.
- The worktree and process loops of `collect_recovery_anomalies`: the session and approval loops are modelled.
- Overlapping calls of the session manager: `send_turn` and `resume_session` write back session snapshots taken before they await the provider, so the manager is modelled with one call at a time.
- Liveness of deliveries: an entry left injecting by a crash or pending after an error is not tried again by the code.
- A lagging broadcast receiver: it misses events by design of the channel, so the handoff is stated for one that never lags.
- `read_process_logs`: its head and tail ranges may overlap and repeat lines.
- Session capacity and connection handling of the ACP provider, and the turn maps of the Claude bridge: bookkeeping that the results do not touch.
- Model catalogues, OpenAPI generation, stub services, the documentation site and field-by-field upserts: mechanical or text only.
