# A verified model of the frp-plus control plane

frp-plus is a controller that manages the configuration of remote nodes through
Agents. Between an administrator and a node lie a websocket link that loses
replies, a controller that may stop waiting at any moment, a service that can be
restored under a new identity, and a ledger that has to stay right through all of
it. This project models that control plane in Dafny and proves what it keeps over
every run and every interleaving. It also covers the offline restore tool, the
reconciliation of FRP clients, the session and publication rules of the monitor,
and the packet filter renderer of sing-box-plus-deploy.

Code that changes state is written as classes and methods; each method is proved
against a function on the old state, or against a relation that says what it may
do. What the system promises is then proved about those functions, as invariants
of all runs.

## Modules

- `OperationState`, `ResultCodes`: the fourteen states of an operation, their
  transitions, the Agent's journal view, the closed vocabulary of codes.
- `OperationStore`: the durable ledger. A row is changed by compare-and-swap and
  gains one event; a node has one lease; a takeover supersedes. Every transaction
  is atomic, and a caller that stops waiting does not learn whether its
  transaction was committed.
- `LedgerRules`: when each transaction of the ledger commits and what it leaves, said
  of the fields of the rows and of the request.
- `OperationLogs`: exactly when the event log of an operation is a path of the state
  graph.
- `OperationCoordinator`: turning a journal view into ledger transitions.
- `OperationWarrants`: the grounds on which a handler may submit a transition, and
  the theorem that an operation loses its lease only on one of them.
- `OperationDelivery`: what "not sent" means from the link up to the ledger.
- `OperationHandlers`, `OperationAdmin`, `OperationTakeover`: the handlers. Each
  accounts for its effect on the ledger as a run of warranted acts, citing the
  replies it rests on, and its contract says where it must lead.
- `HandlerRules`: what the handlers decide by, said of the fields of the operation and
  of the Agent's answer.
- `Links`, `LinkRuns`, `LinkMemory`, `Dispatch`, `TokenBuckets`: one link with two
  lanes, every interleaving of callers, writer, reader, time-outs and reconnections on
  it, how long it remembers a finished request, the retry rule and the gate above it,
  and the rate bounds.
- `Reconciliation`: three-way reconciliation in place, against its meaning.
- `RestoreLineage`, `RestoreConfirmation`, `ServerRestore`, `ServerConfirmation`:
  descent of service identities, receipt chains, the interruptible restoration, the
  removal of the write gate.
- `Sessions`, `Publication`, `Caches`: connection ownership, publishing of database
  reads, and the two snapshot caches.
- `JsonTokens`, `NatForwarding`, `TunnelSampling`, `OAuthPending`: the JSON checker,
  the forwarding rules, rotating batches, two-cap eviction.

## What the model found

- The event log of an operation is not always a path of the state graph. A restore
  takeover cancels the leaseholder, and the graph has no edge to cancelled from
  applying, verifying, rolling_back and rollback_failed; from the other four active
  states it has. `OperationLogs.CutLogExists` is such a run. Over every run a log is a
  path exactly if no claim superseded its operation in one of the four states
  (`OperationLogs.PathExactlyUnlessCut`).
- Silence does release a lease in one case. A new operation whose secret upload times
  out or loses its reply is rejected, though the Agent may have stored the secret; no
  prepare is sent (`OperationAdmin.CreateUnheard`, `OperationAdmin.CreateTimedOut`). An
  operation can lose its lease on silence exactly while it is a fresh draft
  (`OperationWarrants.SilenceReleasesExactlyFreshDrafts`), and never is one again
  later; in every other state silence leads to outcome_unknown.
- A draft whose candidate is unknown cannot follow a journal that already shows it
  rejected, in conflict, failed or cancelled: the ledger assigns a candidate only on
  the way to prepared or from outcome_unknown. Nothing is written, and the draft keeps
  its lease until an administrator cancels it or a restore takeover supersedes it
  (`OperationCoordinator.StuckDraft`).
  `OperationCoordinator.RecordedExactlyWhen` is the exact condition for recording.
- The limit of five recording rounds is reached only by a view in the state draft for
  an operation that is not a draft; every other view needs at most two rounds
  (`OperationCoordinator.ExhaustedOnlyByDraft`); `OperationCoordinator.ExhaustedExactlyWhen`
  says for which operations that happens.
- `rollback_failed` is the one active state that cannot be marked unknown
  (`OperationHandlers.MarkUnknown`).
- A command that gives up during its pause between attempts was not sent, but its
  error does not say so (`Dispatch.PacedCommand`).
- A link can be busy although nothing is pending: the queue may still hold the
  request of a caller that gave up before the writer looked
  (`LinkRuns.FullQueueWithoutPending`).
- An identity that descends from another by exactly 128 restores is reported as a
  conflict although as many rows are admitted (`RestoreLineage.SuccessionConflictsAtLimit`).
- A late reply is absorbed until sixteen other requests were remembered since its own
  was first remembered, by its reply or by its caller's departure, whichever came first
  (`LinkMemory.LateReplyAbsorbed`). Being finished again does not renew it:
  `LinkMemory.NotRenewed` is a run in which a request whose caller left a moment ago is
  forgotten with the very next one.
- A file that a kill left under a temporary name stops every later run of the
  restoration exactly if it lies in the installation or the history
  (`ServerRestore.LeftoverStopsExactlyWhenStray`).

## Model

| member | source | states |
|---|---|---|
| OperationState.LeaseReacquiredOnlyByRollback | frp-plus/shared/configmanage.go:48-78 | the only edge that takes a lease for an operation that had none is the rollback of a confirmed one; every other inactive state is final |
| OperationState.NoShortcut | frp-plus/shared/configmanage.go:52-78 | on every path from draft, confirmed is entered only from verifying or unknown, and both ends of a rollback only from rolling back or unknown |
| LedgerRules.ComesFrom | frp-plus/shared/configmanage.go:52-78 | the whole graph, read from where an edge arrives: for each state, the states that it is entered from |
| OperationStore.MovedEvolves | frp-plus/monitor/control/config_operations.go:319-359 | an accepted transition keeps the row consistent, keeps identity, digests, context and journal creation time, moves the materials only onward, follows the state graph and enters timed states only before the deadline |
| OperationStore.LoggedLawful | frp-plus/monitor/control/config_operations.go:159-175 | appending the event of a lawful step keeps the log a lawful path with consecutive versions that ends in the row's state |
| OperationStore.TransitionLawful | frp-plus/monitor/control/config_operations.go:288-391 | a transition, accepted or refused, keeps every ledger invariant (one lease per node, one operation per key, lawful logs) and only extends logs and rows |
| OperationStore.CreateLawful | frp-plus/monitor/control/config_operations.go:177-237 | so does a creation or its idempotent replay |
| OperationStore.ClaimLawful | frp-plus/monitor/control/config_restores.go:107-172 | so does a restore claim, with or without a superseded leaseholder |
| OperationStore.EveryRunIsLawful | frp-plus/monitor/control/schema.sql:65-82 | over every sequence of transactions and every clock the ledger stays lawful and each row and receipt only evolves: digests, context, creation and deadline freeze, the journal's update time never decreases, materials only decay |
| LedgerRules.CredibleViews | frp-plus/shared/configcontrol.go:357-385 | which journal views are valid, by their times, their state and the state of their materials |
| LedgerRules.ContinuedViews | frp-plus/monitor/control/config_operations.go:343-354 | which view may follow another: the same entry of the journal, not older, with no material regained |
| LedgerRules.MovesExactly | frp-plus/monitor/control/config_operations.go:319-356 | a row takes a transition exactly if the caller saw its version, the graph has the edge or there is something to record, the deadline allows it, a candidate is there where the state needs one, and the view fits what is known |
| LedgerRules.TransitionCommits | frp-plus/monitor/control/config_operations.go:288-391 | a transition commits exactly then, and if no other operation of the node holds the lease that it takes; the whole new row and event; else nothing changes, missing is said of unknown operations only, and a stale version clashes |
| LedgerRules.KeyAnswersOnce | frp-plus/monitor/control/config_operations.go:193-199 | a reused idempotency key changes nothing: the same request gets its operation again, and any other node, service, base, creator, deadline or request digest is refused |
| LedgerRules.CreationCommits | frp-plus/monitor/control/config_operations.go:205-233 | a new key is granted exactly if the deadline lies within a day, the node lives, the id is new and the node has no active operation; the whole new row, and which refusal else |
| LedgerRules.ClaimCommits | frp-plus/monitor/control/config_restores.go:107-172 | a claim is granted exactly under the node's live token, and in a new epoch only if it names who holds the lease at the version it saw and of the restored lineage; that operation alone is cancelled; a repeated claim gets the first receipt, and only if it asks for the same |
| LedgerRules.AcknowledgementCommits | frp-plus/monitor/control/config_restores.go:192-238 | exactly when an acknowledgement is recorded, repeated or refused, with the whole receipt |
| OperationLogs.FollowsExactlyPaths | frp-plus/shared/configmanage.go:52-78 | a log takes only edges and repeated observations exactly if the states it runs through are a path of the graph |
| OperationLogs.FollowsExactlyWithoutCut | frp-plus/monitor/control/config_operations.go:159-175 | a lawful log is off the graph exactly where it is cancelled from applying, verifying, rolling_back or rollback_failed |
| OperationLogs.ClaimSupersedes | frp-plus/monitor/control/config_restores.go:136-160 | a claim that may supersede appends its event to exactly that row, and the log stays on the graph exactly if the operation was in none of the four states |
| OperationLogs.ClaimSparesOthers | frp-plus/monitor/control/config_restores.go:136-160 | a claim leaves every operation that it may not supersede as it is |
| OperationLogs.CommitFollows | frp-plus/monitor/control/config_operations.go:326-338 | of all transactions only such a claim takes a log off the graph |
| OperationLogs.PathExactlyUnlessCut | frp-plus/monitor/control/config_operations.go:159-175 | over every run from the empty ledger a log is a path from draft exactly if no claim superseded its operation in one of the four states |
| OperationLogs.CutLogExists | frp-plus/monitor/control/config_restores.go:144-160 | a run in which the claim succeeds and the lawful log goes from applying to cancelled |
| OperationStore.SubmitLawful | frp-plus/monitor/control/store.go:484-517 | all of this also when the caller stops waiting and the transaction commits unseen, or not at all |
| OperationStore.ControlStore.TransitionOperation | frp-plus/monitor/control/config_operations.go:288-391 | the whole new ledger and the answer, for every refusal in the order of the checks, and that the ledger stays lawful |
| OperationStore.ControlStore.InsertOperation | frp-plus/monitor/control/config_operations.go:177-237 | the whole new ledger and the answer of a creation, replay or refusal |
| OperationStore.ControlStore.InsertClaim | frp-plus/monitor/control/config_restores.go:107-172 | the whole new ledger: the exact expected leaseholder of the lineage is superseded and the receipt written, or nothing changes |
| OperationStore.ControlStore.MarkAcknowledged | frp-plus/monitor/control/config_restores.go:192-238 | a receipt is acknowledged once, under the node's live credential; repeating the last acknowledgement changes nothing |
| OperationStore.ControlStore.CreateOperation | frp-plus/monitor/control/store.go:484-517 | the same as its caller sees it, who may stop waiting while it commits or is dropped |
| OperationStore.ControlStore.ClaimRestore | frp-plus/monitor/control/store.go:484-517 | so for a claim |
| OperationStore.ControlStore.Acknowledge | frp-plus/monitor/control/store.go:484-517 | so for an acknowledgement |
| OperationCoordinator.AuditCode | frp-plus/monitor/config_coordinator.go:59-67 | whatever code is recorded is an event code |
| OperationCoordinator.RecordResult | frp-plus/monitor/config_coordinator.go:104-163 | the loop records a journal view exactly as the recursive reading of its rounds, including refused and lost submissions |
| OperationCoordinator.RecordRound | frp-plus/monitor/config_coordinator.go:117-161 | one round: its submissions, whether it finishes, and with which operation and error |
| OperationCoordinator.Submitted | frp-plus/monitor/config_coordinator.go:68-75 | a submission from a copy either leaves the ledger alone or found the copy current; no other row is touched |
| OperationCoordinator.RecordJustified | frp-plus/monitor/config_coordinator.go:104-163 | recording changes one row at most as the view justifies: to the view's state with the view attached, or from active to active, whatever is lost and however old the copy is |
| OperationCoordinator.RecordedExactlyWhen | frp-plus/monitor/config_coordinator.go:88-163 | with answers arriving and no deadline passing between two looks at the clock, recording succeeds exactly for matching answers whose state the ledger can follow |
| OperationCoordinator.NextStateFits | frp-plus/monitor/config_coordinator.go:119-145 | the proposed state is one the ledger accepts exactly when the view is recordable, and is the target or one step from it |
| OperationCoordinator.LastRound | frp-plus/monitor/config_coordinator.go:117-162 | once one step from its target, the next round finishes, also past the deadline |
| OperationCoordinator.NeverDraft | frp-plus/monitor/config_coordinator.go:118-162 | a view in the state draft is never recorded on an operation that is not a draft |
| OperationCoordinator.ExhaustedOnlyByDraft | frp-plus/monitor/config_coordinator.go:118-162 | the round limit is reached by no other view |
| OperationCoordinator.ExhaustedExactlyWhen | frp-plus/monitor/config_coordinator.go:117-162 | with answers arriving the limit is reached exactly when the journal says draft of an active operation that is no draft and can be marked unknown; it then ends unknown, five events later |
| OperationCoordinator.StuckDraft | frp-plus/monitor/control/config_operations.go:326-338 | the family of journal outcomes that a draft cannot follow, and that nothing is written then |
| OperationCoordinator.StuckDraftExists | frp-plus/monitor/control/config_operations.go:331-333 | such a draft and such a journal entry exist, and the submission is refused whatever the clock |
| HandlerRules.EvidenceMeans | frp-plus/monitor/config_coordinator.go:88-100 | exactly which answer counts for an operation: its service, id, base, deadline and candidate, with a valid view that continues the last one |
| HandlerRules.ProposedMeans | frp-plus/monitor/config_coordinator.go:118-145 | which state is proposed on the way to the journal's: over the three detours, and unknown where no edge leads or the deadline has passed |
| HandlerRules.AdvanceMeans | frp-plus/monitor/config_coordinator.go:145-150 | the proposal: the caller's version, the code of the new state, and the view unless it would give an unknown outcome the candidate of an operation without one |
| HandlerRules.RecordedHolds | frp-plus/monitor/config_coordinator.go:104-163 | a success is reported only of an answer that counts, and then the row holds the view, in its state or, past the deadline, under unknown |
| HandlerRules.RepeatChangesNothing | frp-plus/monitor/config_coordinator.go:109-115 | an answer that the row already holds is recorded without any change |
| HandlerRules.AuditedAs | frp-plus/monitor/config_coordinator.go:59-67 | the code under which anything is recorded: itself, validation_failed for a faulty candidate, failed for codes that say nothing about the operation |
| OperationWarrants.OnlyGroundsRelease | frp-plus/monitor/config_admin.go:316-368 | a warranted submission that ends an active operation rests on a journal view in that state, a proven-unsent prepare, a refusal with one of the codes that mean conflict or rejected, a secret upload that no answer confirmed, or a journal that does not know the operation |
| OperationWarrants.RefusalsByCode | frp-plus/monitor/config_admin.go:513-526 | which refusals of a prepare mean conflict, which rejected, code by code; after every other code the outcome is unknown |
| OperationWarrants.IntentAndHistoryKeepLease | frp-plus/monitor/config_admin.go:437-449 | an intent never releases, and history changes nothing but the materials |
| OperationWarrants.SilenceReleasesExactlyUploads | frp-plus/monitor/config_admin.go:297-368 | a submission on silence releases exactly if it is an upload that was not heard of, which rejects a fresh draft; any other leads to outcome_unknown |
| OperationWarrants.SilenceReleasesExactlyFreshDrafts | frp-plus/monitor/config_admin.go:297-368 | silence may take the lease of an operation exactly while it is a draft without candidate and journal view |
| OperationWarrants.LeaseLostOnSilenceOnlyByUploads | frp-plus/monitor/config_admin.go:297-368 | over every interleaving an act that takes a lease on silence is an unheard upload on a fresh draft, and none does once the operation was something else |
| OperationWarrants.NeverFreshLater | frp-plus/monitor/control/config_operations.go:326-338 | over every interleaving an operation that is no fresh draft never becomes one again |
| OperationWarrants.LeaseLostOnlyOnGrounds | frp-plus/monitor/config_admin.go:437-481 | over every interleaving of handlers, takeovers and credential changes: if an active operation is no longer active, one act of the run released it on one of these grounds, or a claim superseded exactly this operation and version |
| OperationWarrants.EveryRunIsBacked | frp-plus/monitor/config_coordinator.go:88-101 | over every such run confirmed, failed, rolled_back and rollback_failed carry a view in that state, and every view has its operation's deadline |
| OperationWarrants.ConfirmedHasFacts | frp-plus/shared/configcontrol.go:378-380 | over every such run a confirmed operation carries all four runtime facts |
| OperationWarrants.RecordPermitted | frp-plus/monitor/config_coordinator.go:104-163 | recording is itself such a run, round by round |
| OperationDelivery.Send | frp-plus/monitor/config_admin.go:228-253 | a paced command over calls of runs tells the truth about them |
| OperationDelivery.NotSentIsNeverSent | frp-plus/monitor/config_link.go:77-84 | if it says "not sent", none of its requests is ever in a queue, in a writer's hand or in a socket, whatever happens on the links later |
| OperationDelivery.ReleasedUnsentNeverSent | frp-plus/monitor/config_admin.go:322-334 | so over every interleaving for an operation whose lease was released because its prepare was not sent |
| OperationHandlers.MarkUnknown | frp-plus/monitor/config_coordinator.go:76-87 | an active operation ends in outcome_unknown when the ledger answers, except rollback_failed, and nothing else changes |
| OperationHandlers.QueryHistory | frp-plus/monitor/config_history_context.go:13-60 | a restored-history read records new materials exactly when the entry is readable and the restores read before and after both confirm the descent, and otherwise changes nothing; ok is answered only for decayed materials |
| OperationHandlers.QueryOperation | frp-plus/monitor/config_coordinator.go:164-206 | an unanswered query changes nothing; an answered one is recorded, proves absence and cancels, or reads history, each exactly as specified |
| HandlerRules.ReadableMeans | frp-plus/monitor/config_history_context.go:13-50 | exactly when history is readable: a finished operation with a known entry, confirmed descent before and after, and a reply that shows the same entry in every field but the materials |
| HandlerRules.AskedMeans | frp-plus/monitor/config_coordinator.go:169-184 | exactly when, and under which identity, the journal is asked again for history |
| HandlerRules.AbsenceMeans | frp-plus/monitor/config_coordinator.go:196-204 | the one answer that proves that the journal never knew the operation, and for which operations |
| OperationAdmin.UploadSecrets | frp-plus/monitor/config_admin.go:297-313 | secrets are uploaded one by one up to the first that is not confirmed; the draft stays untouched by any journal |
| OperationAdmin.SettlePrepare | frp-plus/monitor/config_admin.go:316-362 | unsent leads to rejected, silence to unknown; a refusal leads to conflict or rejected exactly for the codes that mean it and to unknown for every other, in the ledger; a view leads to what recording makes of it |
| OperationAdmin.RejectUnprepared | frp-plus/monitor/config_admin.go:363-368 | if an upload was not confirmed no prepare is sent and the draft is rejected |
| OperationAdmin.CreateUnheard | frp-plus/monitor/config_admin.go:297-368 | a new operation whose upload was not heard of is rejected in the ledger without a prepare |
| OperationAdmin.CreateTimedOut | frp-plus/monitor/config_admin.go:297-368 | such a request on a concrete ledger |
| OperationAdmin.CreateOperation | frp-plus/monitor/config_admin.go:254-379 | the prepare is sent exactly when the request is new, the gate open and every upload confirmed; the operation ends in the ledger where the prepare's outcome and its code put it; a replay changes nothing; a creation whose answer is lost is committed or not, and nothing is sent for it |
| OperationAdmin.QueryBeforeRollback | frp-plus/monitor/config_admin.go:495-511 | exactly a busy answer is asked again, three times at most and while the caller waits; every question has the effect of a query on what the one before it left, and the last one decides |
| OperationAdmin.DecideAction | frp-plus/monitor/config_admin.go:398-457 | an action proceeds exactly if the row has the version, candidate and, with a view, the context that the administrator saw, its state fits the action and a view is known where the action needs one; a rollback only with its materials present; and which code is reported else |
| OperationAdmin.ExecuteAction | frp-plus/monitor/config_admin.go:437-481 | a command is dispatched exactly if the intent is durable: its answer came back, the copy was the ledger's row, an apply was in time and the lease is free or its own; the outcome is what the reply shows, or unknown |
| OperationAdmin.ActOnOperation | frp-plus/monitor/config_admin.go:380-490 | the whole request as a warranted run, and exactly when it dispatches, field by field |
| OperationAdmin.IntentAccepted | frp-plus/monitor/config_admin.go:437-449 | exactly when the ledger takes an intent, and the row it then has |
| OperationTakeover.FinishedViewFinishes | frp-plus/monitor/config_restore_admin.go:151-159 | recording a finished view without obstacle finishes the operation |
| OperationTakeover.SettleLeaseholder | frp-plus/monitor/config_restore_admin.go:123-164 | only an answer in the restored service counts: by a finished view the leaseholder is finished exactly if recording succeeds, it remains because the restored journal does not know it, or the takeover stops |
| OperationTakeover.ClaimFreesNode | frp-plus/monitor/control/config_restores.go:136-160 | a new claim leaves no leaseholder on its node |
| OperationTakeover.ClaimNode | frp-plus/monitor/config_restore_admin.go:108-179 | in the expected situation the claim becomes durable, and a repeated one finds its receipt; if the lease is not held as the administrator saw it nothing is claimed or changed; a claim supersedes only after the journal answered operation_not_found |
| OperationTakeover.LostClaimReplayable | frp-plus/monitor/config_restore_admin.go:202-203 | a claim that was committed while its answer was lost is found by the same request made again, with the same receipt |
| OperationTakeover.Recheck | frp-plus/monitor/config_restore_admin.go:180-184 | the takeover goes on exactly if the node's token is still the one that the claim was made under |
| OperationTakeover.TakeOver | frp-plus/monitor/config_restore_admin.go:60-212 | the Agent is told only after the claim is durable under the node's live token, and never if the administrator saw another leaseholder; the receipt is acknowledged only on an answer that names it |
| HandlerRules.DescribesMeans | frp-plus/monitor/config_restore_admin.go:35-38 | exactly which description of the Agent fits the request |
| HandlerRules.AcceptsMeans | frp-plus/monitor/config_restore_admin.go:192-199 | exactly which answer acknowledges the receipt |
| HandlerRules.ClaimableMeans | frp-plus/monitor/config_restore_admin.go:108-174 | the expected situation, on the rows: nobody holds the lease, or the named operation does at the named version, of the restored lineage, and the restored journal does not know it |
| Links.Remembered | frp-plus/monitor/config_link.go:61-72 | the tag is remembered and never more than sixteen are |
| Links.ConfigLink.Remember | frp-plus/monitor/config_link.go:61-72 | the scan over the ring adds the tag, or keeps the ring if it is there |
| Links.ConfigLink.Admit | frp-plus/monitor/config_link.go:139-170 | the critical section: every refusal leaves nothing pending or queued, success queues and spends one token |
| Links.ConfigLink.Accept | frp-plus/monitor/config_link.go:230-267 | a reply is refused, absorbed or handed over, with the whole new state of the link |
| Links.HandedExactly | frp-plus/monitor/config_link.go:223-268 | a reply is handed over exactly if it comes in the session, on an enabled lane, to the pending request, and repeats its id, action, operation, service, the three revisions, secret reference and consent where the request named them |
| Links.HandedLeaves | frp-plus/monitor/config_link.go:231-267 | what a handed reply leaves behind: a free lane, a remembered request, and the service that a successful inspection told; exactly which other replies are absorbed; nothing else changes the link |
| Links.AdmittedExactly | frp-plus/monitor/config_link.go:139-169 | exactly when a request is admitted, with which refusal else, and the whole link afterwards |
| Links.ConfigLink.Finish | frp-plus/monitor/config_link.go:171-178 | leaving clears the caller's own request only and remembers it |
| LinkRuns.EnqueueSound | frp-plus/monitor/restore_link.go:67-103 | offering a request, on either lane, keeps all link invariants |
| LinkRuns.ReceiptSound | frp-plus/monitor/restore_link.go:149-184 | so does a received reply |
| LinkRuns.FinishSound | frp-plus/monitor/config_link.go:171-178 | so does a caller that stops waiting |
| LinkRuns.AtMostOnce | frp-plus/monitor/config_link.go:77-191 | in every interleaving a request enters a queue once and a socket once at most, never a socket without a queue, and "not sent" is said exactly of requests that entered neither |
| LinkRuns.DeliveredAnswers | frp-plus/monitor/config_link.go:223-268 | a delivered reply has its request's lane, id, action, operation and, where the request named them, its service, base revision, context, candidate, secret reference and consent, on the same link and in the same session |
| LinkRuns.OnePending | frp-plus/monitor/config_link.go:149-169 | at most one request is pending over both lanes, and a reply finds its caller's inbox empty |
| LinkRuns.AbandonedNotWritten | frp-plus/monitor/config_link.go:193-200 | a queued request whose caller has stopped waiting is dropped by the writer |
| LinkRuns.PendingNotRemembered | frp-plus/monitor/config_link.go:232-241 | a pending request is never among the remembered ones |
| LinkRuns.FullQueueWithoutPending | frp-plus/monitor/config_link.go:160-169 | the busy answer from a full queue is reachable with nothing pending |
| LinkRuns.EndsConnection | frp-plus/monitor/service.go:405-436 | what ends a connection: another one, its own end, the replacement of the node, a stop |
| LinkRuns.OverForever | frp-plus/monitor/config_link.go:134-144 | over every run a connection that has ended never queues another request |
| LinkRuns.QueuedExactly | frp-plus/monitor/config_link.go:134-170 | a request is queued exactly if its connection is still the node's, the credential could be read and the link admits it; whoever is refused learns at once that nothing was sent |
| LinkRuns.ClearedExactly | frp-plus/monitor/config_link.go:193-200 | the writer sends exactly what has not expired and is still waited for, on the node's present connection and session |
| LinkMemory.StepRemembers | frp-plus/monitor/config_link.go:61-72 | in every step the memory of a link stays, or gains the one request that was not in it, whose reply was handed over or whose caller left |
| LinkMemory.MemoryIsNewest | frp-plus/monitor/config_link.go:61-72 | over every run the memory is the last sixteen of what was remembered, in the order of being first remembered |
| LinkMemory.EntrySurvives | frp-plus/monitor/config_link.go:67-70 | over every run an entry outlasts as many new ones as came before it and would fill the memory |
| LinkMemory.SettledReply | frp-plus/monitor/config_link.go:231-241 | nobody waits for a request that was answered or given up: a further reply to it is absorbed exactly if the link remembers it |
| LinkMemory.LateReplyAbsorbed | frp-plus/monitor/config_link.go:232-241 | over every run a reply to a request first remembered earlier is absorbed while fewer than sixteen others were remembered since, and until it is remembered anew only then; absorbed it only advances the sequence, and it is never handed to anybody |
| LinkMemory.SecondFinishKeepsMemory | frp-plus/monitor/config_link.go:61-66 | a caller that leaves after its reply was handed over does not renew the entry |
| LinkMemory.NotRenewed | frp-plus/monitor/config_link.go:61-72 | a run in which a request finished a moment ago is forgotten with the next one, because its reply had come earlier |
| Dispatch.FinishedCallsAreTruthful | frp-plus/monitor/config_link.go:77-84 | every finished call of every interleaving tells the truth about having been queued |
| Dispatch.PacedCommand | frp-plus/monitor/config_admin.go:228-253 | which attempts are made: another one exactly after a congested one whose caller did not give up, each audited, three at most; together they queue the command at most once, "not sent" proves none did, and its absence that one did unless the caller gave up in a pause |
| Dispatch.Coordinator.Acquire | frp-plus/monitor/config_coordinator.go:29-41 | granted exactly if the node is free and a slot is; held nodes equal used slots |
| Dispatch.Coordinator.Release | frp-plus/monitor/config_coordinator.go:41-41 | releasing a held node never waits for a slot |
| Dispatch.ServeTurn | frp-plus/monitor/config_coordinator.go:29-42 | the coordinator grants and releases exactly as the turns of the holders say |
| Dispatch.ServeTurns | frp-plus/monitor/config_coordinator.go:29-42 | so over every sequence of turns, and its nodes are those of the holders |
| Dispatch.GrantedExactly | frp-plus/monitor/config_coordinator.go:29-42 | a holder is granted a node exactly if it has none, nobody holds that node and fewer than four are held |
| Dispatch.GateIsExclusive | frp-plus/monitor/config_coordinator.go:29-42 | over every sequence no two holders share a node and at most four hold one |
| TokenBuckets.TokenBucket.Spend | frp-plus/monitor/service.go:302-316 | one request against the bucket |
| TokenBuckets.Accounted | frp-plus/monitor/service.go:539-549 | admissions plus what is left come out of what was there and what elapsed time added |
| TokenBuckets.WindowBound | frp-plus/monitor/service.go:522-549 | at most burst + rate T admissions in any window, after any history |
| TokenBuckets.HandshakeBound | frp-plus/monitor/service.go:302-316 | at most 40 + 20 T handshakes in any window |
| TokenBuckets.FrameBound | frp-plus/monitor/service.go:522-549 | at most 80 + 40 T frames of a probing connection, 16 + 6 T of a managed one and 8 + 2 T of any other, in any window |
| TokenBuckets.PacedAllAdmitted | frp-plus/monitor/service.go:522-549 | requests that keep the pace are all admitted |
| TokenBuckets.LinkRateBound | frp-plus/monitor/config_link.go:153-165 | in every interleaving at most 4 + T requests enter a link's queue in any window, over both lanes |
| Reconciliation.MatchedInjective | frp-plus/monitor/reconcile.go:94-128 | no client is matched to two nodes |
| Reconciliation.StrippedAgrees | frp-plus/monitor/service.go:784-808 | the call without report proxies, on copies that differ in nothing else, decides every node state, client and proxy as the full call does |
| Reconciliation.RowIndependent | frp-plus/monitor/reconcile.go:94-167 | the row and client of a node whose binding is unique do not depend on other nodes' reports, bindings, number or order |
| Reconciliation.OrderIndependent | frp-plus/monitor/reconcile.go:72-82 | no row depends on the order of the nodes |
| Reconciliation.CountKeys | frp-plus/monitor/reconcile.go:72-82 | the maps count bindings and fresh claims of every key |
| Reconciliation.IndexClients | frp-plus/monitor/reconcile.go:83-89 | the index lists the clients of every key in order |
| Reconciliation.IndexProxies | frp-plus/monitor/reconcile.go:90-93 | the index lists the proxies of every name in order |
| Reconciliation.DecideState | frp-plus/monitor/reconcile.go:98-128 | the switch decides the state and client that the lists mean |
| Reconciliation.ReportProxy | frp-plus/monitor/reconcile.go:130-163 | a reported proxy's row, and that its in-place attribution agrees with the owner of the client it names |
| Reconciliation.Reconcile | frp-plus/monitor/reconcile.go:67-187 | rows, and clients and proxies attributed in place, are exactly those of the declarative reading; a row is in a state exactly if the bindings, the report, its claim and the server's snapshot mean that state |
| Reconciliation.StateMeans | frp-plus/monitor/reconcile.go:94-128 | each state of a row, said of the nodes and the snapshot: matched exactly if the binding is valid and nobody else's, the live report claims it and nobody else does, the server is ready and its own, and exactly one client has that key |
| Reconciliation.ClientMeans | frp-plus/monitor/reconcile.go:112-128 | a row has a client exactly if it is matched, and it is the only one with its key |
| Reconciliation.OwnerMeans | frp-plus/monitor/reconcile.go:112-128 | a client is attributed to the node whose only one it is, and to no other |
| Reconciliation.ProxyOwnerMeans | frp-plus/monitor/reconcile.go:168-187 | a proxy is attributed to the node whose only client it names, and to no other |
| Reconciliation.ReportedMeans | frp-plus/monitor/reconcile.go:130-163 | the server state of each reported proxy, said of the snapshot, and the server proxy it is shown with |
| Reconciliation.ProxiesMean | frp-plus/monitor/reconcile.go:129-163 | the reported proxies of a row, in order, decided exactly if the node is matched |
| RestoreLineage.ConfirmedExactlyAlongLine | frp-plus/monitor/control/config_restore_lineage.go:45-61 | descent is confirmed exactly along a line of at most 127 confirmed restores |
| RestoreLineage.LongLineConflicts | frp-plus/monitor/control/config_restore_lineage.go:46-61 | a longer line is a conflict |
| RestoreLineage.SuccessionConflictsAtLimit | frp-plus/monitor/control/config_restore_lineage.go:22-61 | along any admitted number of successive restores the descent is confirmed exactly if they are fewer than 128; with 128 admitted rows it is a conflict |
| RestoreLineage.ConfirmedLineage | frp-plus/monitor/control/config_restore_lineage.go:12-64 | the loops over rows and steps give the answer of the climb, and a conflict for too many rows or two parents |
| RestoreLineage.LineageExactly | frp-plus/monitor/control/config_restore_lineage.go:12-64 | read off the rows: confirmed exactly if a descent of at most 128 identities reaches the ancestor, denied exactly for the identity itself or if a descent ends without it; too many rows, two parents, rings and longer lines are conflicts |
| RestoreConfirmation.WalkSucceedsExactlyWhenSuperseded | frp-plus/scripts/ops_server_checkpoint.py:689-704 | a walk succeeds exactly if a chain of at most 128 unique, ordered, equally bound replacements leads to a complete receipt |
| RestoreConfirmation.ChainDistinct | frp-plus/scripts/ops_server_checkpoint.py:692-704 | a chain never visits a receipt twice |
| RestoreConfirmation.RingReported | frp-plus/scripts/ops_server_checkpoint.py:693-697 | a ring of at most 128 receipts is reported as a cycle, a longer one as the limit |
| RestoreConfirmation.CycleIsRing | frp-plus/monitor/control/server_restore_confirmation.go:106-142 | a reported cycle is a ring through the receipt where the walk began |
| RestoreConfirmation.CheckCounts | frp-plus/scripts/ops_server_checkpoint.py:653-662 | counts are refused exactly if one is of no known state, negative or too large, or the active total overflows |
| RestoreConfirmation.ReadReceipts | frp-plus/scripts/ops_server_checkpoint.py:663-688 | receipts are refused exactly if one is invalid or two collide, with the code of the first offender; the index of replacements is right |
| RestoreConfirmation.FollowChain | frp-plus/scripts/ops_server_checkpoint.py:689-704 | the loop gives the code of the walk, and ends |
| RestoreConfirmation.Evaluate | frp-plus/scripts/ops_server_checkpoint.py:650-706 | ready exactly if nothing is active, at most 10000 receipts are well formed and apart, and a way of replacements leads from each open one to a complete one; then completed and superseded add up to the receipts; otherwise which code |
| RestoreConfirmation.ChildrenListed | frp-plus/scripts/ops_server_checkpoint.py:686-688 | the index lists exactly the receipts that replaced one on its node, in order |
| RestoreConfirmation.ConfirmableMeans | frp-plus/scripts/ops_server_checkpoint.py:650-706 | when the ledger allows confirmation, said of the counts and the fields of the receipts |
| RestoreConfirmation.WalkCodeMeans | frp-plus/scripts/ops_server_checkpoint.py:689-704 | each code of a walk names why it stops, and where: after a way of open, equally bound receipts, each replaced by the next one alone |
| RestoreConfirmation.FailureMeans | frp-plus/scripts/ops_server_checkpoint.py:689-706 | the evaluation fails with the code of the first open receipt that no chain closes |
| RestoreConfirmation.RefusalMeans | frp-plus/scripts/ops_server_checkpoint.py:663-685 | the first receipt that cannot stand beside the ones before it is refused, for its completion only if nothing else is wrong with it |
| ServerRestore.Ordered | frp-plus/scripts/ops_server_checkpoint.py:618-618 | the order of publication holds every planned file, the gate before all others and the database after them |
| ServerRestore.ServerDisk.CopyInOrder | frp-plus/scripts/ops_server_checkpoint.py:619-623 | the loop publishes what is missing in order, never over another file, until interrupted |
| ServerRestore.ServerDisk.Restore | frp-plus/scripts/ops_server_checkpoint.py:526-644 | one run, interrupted after any number of publications |
| ServerRestore.CopyDatabaseLast | frp-plus/scripts/ops_server_checkpoint.py:618-623 | at every moment the database is there only if everything else is |
| ServerRestore.RenameFaithful | frp-plus/scripts/ops_server_checkpoint.py:630-639 | publishing the installation as a whole keeps every promise and makes all planned files live |
| ServerRestore.RunFaithful | frp-plus/scripts/ops_server_checkpoint.py:579-639 | a run is never refused by what an earlier one left, and completes unless interrupted |
| ServerRestore.RestorationConverges | frp-plus/scripts/ops_server_checkpoint.py:509-644 | after any number of interrupted runs nothing that was there is altered, every planned file is absent or exactly as planned, and an uninterrupted run completes to the initial state plus the plan |
| ServerRestore.GatedDatabase | frp-plus/scripts/ops_server_checkpoint.py:618-639 | at every moment the live database exists only if its gate and every other planned file outside the installation do |
| ServerRestore.RefusedUnchanged | frp-plus/scripts/ops_server_checkpoint.py:579-588 | a disk in the way of a first run is refused unchanged, every time |
| ServerRestore.StrayFileStopsRuns | frp-plus/scripts/ops_server_checkpoint.py:481-503 | an unplanned file in a tree makes every later run refuse, unchanged |
| ServerRestore.LeftoverStopsExactlyWhenStray | frp-plus/scripts/ops_server_checkpoint.py:434-450 | a temporary file left by a kill inside one publication stops later runs exactly if it lies in a tree; otherwise they complete, and it stays |
| ServerRestore.RunExactly | frp-plus/scripts/ops_server_checkpoint.py:526-644 | whatever a run finds: it refuses another restore's disk, a first run with something in the way, and foreign files, and exactly those; else, if it is not interrupted, the installation is in place with every planned file as planned |
| ServerRestore.RunKeeps | frp-plus/scripts/ops_server_checkpoint.py:618-639 | however soon a run stops, every file it found is unchanged and in its place, or moved with the installation |
| ServerConfirmation.ServerVault.ConfirmOffline | frp-plus/scripts/ops_server_checkpoint.py:743-776 | one confirmation, interrupted between its durable steps |
| ServerConfirmation.GateRemovedOnlyWithReceipt | frp-plus/scripts/ops_server_checkpoint.py:767-775 | over any attempts the gate goes only with a durable receipt carrying its digest, after the ledger allowed it; a receipt never changes |
| ServerConfirmation.ConfirmationReruns | frp-plus/scripts/ops_server_checkpoint.py:743-776 | an interrupted confirmation can be repeated to completion, and a completed one changes nothing |
| ServerConfirmation.ConfirmsExactly | frp-plus/scripts/ops_server_checkpoint.py:743-776 | a confirmation is refused exactly if gate or receipt do not belong to it, the ledger does not allow it or a second look found a change; else how far it gets, and what it leaves |
| Sessions.SessionTable.Join | frp-plus/monitor/service.go:398-436 | the hello takes the node over and closes the previous connection, if the grant still holds |
| Sessions.UpgradesExactly | frp-plus/monitor/service.go:364-370 | a new connection is registered exactly if its token is its node's |
| Sessions.JoinsExactly | frp-plus/monitor/service.go:398-436 | which connection a hello closes, the node afterwards, and that no other connection or node is touched |
| Sessions.LeavesExactly | frp-plus/monitor/service.go:373-384 | a connection that leaves takes itself off its node exactly if it is the one that the node has |
| Sessions.SessionTable.Accept | frp-plus/monitor/service.go:590-620 | a frame is accepted exactly from the node's own joined connection, of an announced kind, in the session of the last hello, with a greater number and fitting, said of the fields of the table; it is then the node's last number |
| Sessions.HelloGreets | frp-plus/monitor/service.go:398-436 | a hello makes the connection the node's own, in its session, with the kinds it announced |
| Sessions.AcceptedExactlyWhenRightful | frp-plus/monitor/service.go:590-620 | over every run from its hello on, a frame of a connection is accepted exactly while the connection owns its node, in the hello's session, of an announced kind, with a number above the last, and fitting |
| Sessions.AcceptedIsRecorded | frp-plus/monitor/service.go:592-598 | an accepted frame is recorded, and nothing else about any connection changes |
| Sessions.SessionTable.Apply | frp-plus/monitor/private_config.go:158-180 | unchanged credentials keep their node, changed ones get a new one, and stale connections are closed |
| Sessions.RenewsExactly | frp-plus/monitor/private_config.go:158-180 | exactly the connections stay open whose token is still their agent's, and exactly the agents with an unchanged token keep their node |
| Sessions.AcceptedIncrease | frp-plus/monitor/probe_tasks.go:201-213 | over every run accepted numbers strictly increase over all six kinds, and no connection is open under a stale grant |
| Sessions.OnlyOwnerAccepted | frp-plus/monitor/frp_detail.go:46-58 | over every run an accepted frame comes from the node's own connection under its present token |
| Sessions.DispossessedForever | frp-plus/monitor/tunnel_link.go:13-25 | a replaced or revoked connection is never heard again, also if the old token returns |
| Sessions.ReplacedIsDispossessed | frp-plus/monitor/service.go:405-436 | another hello dispossesses |
| Sessions.RotatedIsDispossessed | frp-plus/monitor/private_config.go:169-173 | a removed or changed token dispossesses and closes |
| Publication.NoResurrection | frp-plus/monitor/probe_tasks.go:133-174 | however reads and mutations interleave, credentials, groups and tasks never go back in time and the version of the tasks never decreases |
| Publication.AppliedNotOlder | frp-plus/monitor/probe_tasks.go:156-174 | a published background read is no older than any of the three books |
| Publication.MutationStays | frp-plus/monitor/nodes.go:173-187 | what a mutation publishes is from after its commit, and stays so in every later state |
| Publication.PutMeans | frp-plus/monitor/probe_tasks.go:44-61 | what a publication puts on a shelf: what was read, withdrawn if the read failed; tasks only a newer version |
| Publication.AppliedMeans | frp-plus/monitor/probe_tasks.go:156-174 | what a background read publishes, book by book, if nothing was replaced since it looked, and that it publishes nothing else |
| Publication.UndisturbedRead | frp-plus/monitor/probe_tasks.go:133-174 | a background read that nothing disturbs publishes what the database contains |
| Publication.MutationPublishes | frp-plus/monitor/nodes.go:173-187 | a mutation publishes what it committed |
| Publication.LockHeld | frp-plus/monitor/nodes.go:173-187 | until a mutation has published, no other begins and no background read is published |
| Publication.Bookcase.ApplyConfiguration | frp-plus/monitor/probe_tasks.go:156-174 | a read is published or discarded whole |
| Publication.Bookcase.ApplyTasks | frp-plus/monitor/probe_tasks.go:44-61 | a task book is replaced only by a greater version, and the error is raised exactly for a failed read, a lesser version or another document of the same version |
| Publication.Bookcase.ApplyGroups | frp-plus/monitor/groups.go:27-39 | every publication, also a failed one, is a new book |
| Caches.ServedIncludesBumped | frp-plus/monitor/admin.go:254-299 | served private bytes include every change whose bump preceded the reader's look at the generation, in every interleaving |
| Caches.UndisturbedServed | frp-plus/monitor/admin.go:254-299 | an encoder that nothing overtakes makes the cache current, and a reader is served exactly that |
| Caches.OvertakenUnserved | frp-plus/monitor/admin.go:265-299 | a change during an encoding, or a failed one, stores nothing, and a reader of outdated bytes is not served them |
| Caches.AdminCache.Encode | frp-plus/monitor/admin.go:265-284 | forced or not, what an encoder stores is for the generation it noted; it stores exactly if nothing changed while it ran |
| Caches.AdminCache.Bytes | frp-plus/monitor/admin.go:286-299 | the bytes served are those of the present generation, from the cache or from the first encoding that no change overtook before the next look, and none exactly if both were overtaken or failed |
| Caches.PublicNeverOlder | frp-plus/monitor/service.go:928-943 | the public snapshot never goes back |
| Caches.IncludesExactlyWhenStoredSince | frp-plus/monitor/service.go:928-943 | over every run the public snapshot includes a change exactly if it did before or a publisher that computed after the change stored its bytes |
| Caches.PublishedIncludesChange | frp-plus/monitor/private_config.go:174-180 | with publication after a change, every later public snapshot includes it exactly from the first encoding that does not fail; a failed one keeps the older snapshot |
| Caches.PublisherStores | frp-plus/monitor/service.go:928-943 | a publisher shows the configuration as it computed it, unless its encoding fails, and no other publishes meanwhile |
| JsonTokens.Decoder.Check | frp-plus/shared/protocol.go:302-360 | the recursive walk over the consumed decoder accepts exactly the accepted streams |
| JsonTokens.VisitAccepts | frp-plus/shared/protocol.go:306-352 | a value that fits is accepted, whatever follows |
| JsonTokens.VisitFinds | frp-plus/shared/protocol.go:306-352 | what is accepted is a value that fits |
| JsonTokens.AcceptedExactlyWhenFits | frp-plus/shared/protocol.go:302-360 | accepted are exactly the streams of one value of depth at most 16 with short strings and distinct plain lower-case keys |
| JsonTokens.KeysAre | frp-plus/shared/protocol.go:281-298 | accepted keys have one to 1024 bytes of lower-case letters, digits and underscores |
| JsonTokens.FoldsTo | frp-plus/shared/protocol.go:281-298 | what folds to such a character: itself, its capital and, for s and k, one more |
| JsonTokens.FoldedMatchIsExact | frp-plus/shared/protocol.go:281-298 | for accepted keys case-insensitive field matching is exact matching |
| JsonTokens.UnrestrictedKeysCollide | frp-plus/shared/protocol.go:362-375 | without the restriction a key could stand for another field |
| NatForwarding.AddBinding | sing-box-plus-deploy/sbpd.py:75-79 | refused exactly if it overlaps an earlier binding |
| NatForwarding.ValidateBindings | sing-box-plus-deploy/sbpd.py:93-149 | accepted exactly if nothing new overlaps anything before it |
| NatForwarding.OverlapNotTransitive | sing-box-plus-deploy/sbpd.py:77-77 | overlapping through the wildcard is not transitive |
| NatForwarding.RoutesApart | sing-box-plus-deploy/sbpd.py:153-181 | no two routes of an accepted node serve the same protocol and port |
| NatForwarding.AcceptedApart | sing-box-plus-deploy/sbpd.py:93-149 | in an accepted inventory listeners and forwards share no port and protocol with what was reserved, nor with each other, on the same host or any |
| NatForwarding.RenderNat | sing-box-plus-deploy/sbpd.py:237-247 | the loops render one pair of rules per route, in order |
| NatForwarding.PreroutingIsTable | sing-box-plus-deploy/sbpd.py:237-260 | the rendered chain is the forwarding table |
| NatForwarding.PostroutingIsPaired | sing-box-plus-deploy/sbpd.py:242-247 | a rewritten flow fires exactly the rule paired with the one that rewrote it |
| NatForwarding.PostroutingIsTable | sing-box-plus-deploy/sbpd.py:242-247 | a source is rewritten exactly if the flow came in on the ingress interface, was rewritten, and goes where the table serves it |
| NatForwarding.UnrewrittenUntouched | sing-box-plus-deploy/sbpd.py:247-247 | a flow nobody rewrote keeps its source |
| TunnelSampling.EverySourceVisited | frp-plus/monitor/tunnel_observer.go:150-158 | with N > 16 sources every one is visited within N/16 rounds, rounded up, from any offset |
| TunnelSampling.TunnelHistory.Select | frp-plus/monitor/tunnel_observer.go:150-158 | the batch and the next offset |
| TunnelSampling.TunnelHistory.Absorb | frp-plus/monitor/tunnel_observer.go:214-253 | the new live set: a ready inventory refreshes and adds within the cap, any other only marks stale |
| TunnelSampling.TunnelHistory.Observe | frp-plus/monitor/tunnel_observer.go:139-267 | the whole round, and that the live set stays within its bound |
| TunnelSampling.SeenAllLive | frp-plus/monitor/tunnel_observer.go:232-252 | with room for all of them every object of a ready inventory is live afterwards, and nothing else is added |
| TunnelSampling.AbsorbedExactly | frp-plus/monitor/tunnel_observer.go:214-253 | what a report does to one instance: nothing if unusable, its time unknown if not ready, refreshed or added if listed and there is room |
| TunnelSampling.ObservedExactly | frp-plus/monitor/tunnel_observer.go:254-267 | an instance stays live exactly if its source still reports and it was seen within the last minute |
| TunnelSampling.ObservedBounded | frp-plus/monitor/tunnel_observer.go:243-246 | whatever the sources report, at most 1024 instances are live after a round |
| OAuthPending.Attempts.StartAttempt | frp-plus/monitor/github.go:170-199 | a start keeps both caps and pushes out an oldest attempt of the right set, or none |
| OAuthPending.StartedMeans | frp-plus/monitor/github.go:170-199 | the new attempt is there for ten minutes; of the valid attempts of other browsers one is lost exactly if a cap is reached, and it is an oldest of the set whose cap that is |
| OAuthPending.Attempts.Sweep | frp-plus/monitor/github.go:177-191 | the loop drops what is expired and finds the oldest of the peer and of all |
| OAuthPending.Attempts.Claim | frp-plus/monitor/github.go:221-225 | a callback takes its attempt once, and only before it expires |
| OAuthPending.AtMostOneEvicted | frp-plus/monitor/github.go:192-199 | a start loses at most one valid attempt besides the browser's own |
| OAuthPending.AlwaysBounded | frp-plus/monitor/github.go:157-200 | over any starts, callbacks and expiries at most 64 are pending and at most 8 of one peer |

## Left out

- Format checks of identifiers, digests, texts and sizes are not modelled: identities and digests are opaque values, and a value that fails such a check is refused before the modelled code is reached.
- Audit records, previews and response bodies of the administrative handlers are not modelled; a failing audit before a dispatch is an attempt outcome in `Dispatch.PacedCommand`.
- Cryptography, file modes, inode pinning, advisory locks and directory creation are assumed; the digest of a gate is a value that identifies it.
- A run is interrupted between publications; what a kill inside one can leave behind is the subject of `ServerRestore.LeftoverStopsExactlyWhenStray`.
- Database side files that appear while a restoration runs are not part of this model: nothing else writes during an offline restoration.
- OperationHandlers.QueryHistory: takes the completed restores read before and after as given, because the ledger model does not hold completions.
- OperationTakeover.TakeOver: leaves out the response to the administrator, which may add a completion.
- Sorting of reconciliation's results is left out: the sort is not stable and its ties are unspecified.
- The lexical layer of the JSON decoder, and the check for required fields after decoding, are left out.
- Overflow of the writer's sequence counter, which closes the connection, is left out.
- Node identity, hidden nodes and rates in the public snapshot, the event streams and HTTP routing are left out: each is a projection or input and output.
- The fields of inventories, previews and changes, the archive format and the gost configuration renderer are left out: they would add single-branch facts.
- Sessions.SessionTable.Accept: takes as given whether a frame fits its kind (a probe result for no later tasks than the published ones, a reply that the link knows).
- Caches.AdminCache.Bytes: models one reader and the changes during its own encodings; the encoders of other readers are the subject of Caches.ServedIncludesBumped.
- ServerRestore.ServerDisk.Restore: takes the plan as given and does not compute it from the manifest and the local policy.
- TunnelSampling.TunnelHistory.Absorb: does not model the persistence of mappings in slices or the origin check of an instance, which both only leave an instance out.
