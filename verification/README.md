# Mutsumi orchestration: a verified model

This project models the parts of the Mutsumi assistant that decide what happens when messages keep
arriving, actions have outside effects, and the process may stop at any moment, and proves what those
parts promise.

* **The V4 kernel.** `LedgerModel` is the ledger as a value (event log, reviews, actions, rounds,
  projections, deliveries, cursors) with each transaction as a function. `LedgerStore.Ledger` is the same
  ledger as an object with fields and loops; every method is proved to compute its transaction function.
  `Kernel` is a labelled transition system over that ledger: deliveries, media observations, host events,
  turns of any number of sessions stepping from await to await, failures, and crashes followed by
  recovery. `KernelInvariant` and the files up to `KernelRuns` prove one inductive invariant; external
  effects are counted by an auxiliary list. `KernelTheorems` reads the promises off it, and `KernelRecovered`
  adds a second invariant for recovered results. `Executor` and `RoundLoop` are `Executor::execute` and the
  two loops of `run_inner` in imperative form.
* **The loops around it.** `Service` puts the web service's worker, the attention flag in memory and in the
  cache table, owner submissions and restarts around the kernel. `Mailbox` puts the scheduler's drain around
  it, for any session and with any number of drains, failures and crashes, `MailboxReturns` says what it has
  shown when it returns, and `MailboxScheduler` has `step` and `drain` as loops over a ledger. `UnknownRows`
  holds what both need of unknown results.
* **The V3 prototype scheduler.** `Prototype` takes each section under the conversation's locks as one step
  of a machine over `Turn`, `Conversation` and `Work` fields, with timers, sender tasks, the chat task and
  the worker interleaving freely. `PrototypeInvariant` to `PrototypeRuns` prove its invariant,
  `PrototypeTheorems` the promises, `PrototypeStops` and `PrototypeLifting` when a worker that was asked to
  stop may act again; `PrototypeScheduler.Conversation` has the sections as methods on fields. `Jobs` and
  `JobStore` are the durable job table, the worker's claim and what a restart does.
* **Smaller hard pieces.** `Vision`, `VisionCache` and `VisionLosses` (single-flight image observations behind
  weak locks), `LifeStream` and `LifeStreamBuilder` (regrouping tool events into native rounds),
  `FinalEnvelope` (the two-channel printer and strict parser), `Roles` (the account book and its derived
  targets), `Protocol` (envelopes, actions, structural message checks).

`Text`, `Paths` and `Wrappers` hold what several modules share. `dafny verify dfyconfig.toml` checks everything.

## How to read the theorems

A run is a list of steps taken from the initial state; `Run(...)` is its last state when every step was
possible where it was taken. A theorem that requires `Reached(...)`, `Logged(...)`, `Serve(...) == Some` or
`Drained(...) == Some` holds in every state of every run. Message tags (`Fact(n)`, `Recovered(n)`, ...) say
which event or round a provider message comes from; they replace the rendered text. In the prototype's
machine the log also holds auxiliary marks (turn creation, model calls with the notice flag in their
context, decisions, good ends).

Where the code does less than its tests or documents suggest, the exact condition is proved. A vision key is
computed twice exactly when an observer answers that had looked after a result was lost before its write
(`VisionLosses.TwoResultsExactlyAfterLoss`), and from any such loss a second result can follow
(`VisionCache.LossAllowsSecond`). A cancelled job starts nothing more only while no update reaches it: an
update that arrives while its last tool is still running lifts the stop
(`PrototypeLifting.CancelThenUpdate`), and `PrototypeStops.StartsExactlyWhenLifted` says exactly when the
next tool can start. A drain asks whether the producers are done only after it has looked for pending work,
so it can return with good outcomes and a message unshown (`MailboxReturns.OnlyMessageMissed`); it has shown
everything exactly when nothing was logged for its session after its last look
(`MailboxReturns.ShownAtTheReturn`). Printing and parsing an envelope are inverse exactly when neither
channel contains the marker that closes it (`FinalEnvelope.PrintThenParse`).

## Model

| member | source | states |
|---|---|---|
| KernelTheorems.NoLostAttention | src/ledger_stream.rs:96-143 | In every reachable state the projected inbound and observation events of a session are a prefix of all of them, the cursor never passes an unprojected one, and an unprojected one is still pending |
| KernelTheorems.CursorFollowsGoodTurns | src/scheduler.rs:88-102 | Whatever is at or below the cursor was shown in the saved projection of a turn that had ended completed or silent |
| KernelTheorems.MarkingSeen | src/ledger_stream.rs:136-143 | A turn about to move the cursor only carries marks its good end had saved |
| KernelTheorems.NativePairing | src/runtime.rs:213-242 | Stored projections, and the message list at every provider request, pair each assistant message with one tool reply per call in call order |
| KernelTheorems.ExactlyOnce | src/ledger.rs:303-358 | Each external delivery is logged at most once; the stored projection shows exactly the projected events, once each, in log order and with the logged payload, and a recovered result with its logged status |
| KernelTheorems.DeliveryAlwaysPossible | src/ledger_stream.rs:60-79 | The delivery table always points at inbound events, so ingestion is possible in every state |
| KernelTheorems.RepeatedDelivery | src/ledger_stream.rs:53-88 | In every state a delivery that is logged is logged once, and delivering again changes nothing and returns its number, while another payload under the same id is refused |
| KernelTheorems.DeliveryStands | src/ledger_stream.rs:53-88 | Through any later steps, crashes included, a delivery keeps its number and the event logged there |
| KernelTheorems.IncrementalRefinesReload | src/runtime.rs:144-149 | At a loop boundary memory equals the store, a reload adds only facts not shown yet, and exactly these reach the live list |
| KernelTheorems.OnlyFreshlyAuthorised | src/executor.rs:84-150 | Every effect belongs to an action allowed with the same fingerprint and revision, and no fact of any session lies between that revision and the begin point |
| KernelTheorems.AtMostOnceExactlyOneResult | src/ledger.rs:251-271 | Across any crashes an action has at most one effect; a started row has no result event, a closed one exactly one with its status |
| KernelTheorems.TruthfulMemory | src/protocol.rs:88-97 | Persisted assistant messages hold no reasoning and no scratchpad; their content lists exactly the proposed messages whose send succeeded, in order |
| KernelTheorems.SentMeansSent | src/runtime.rs:243-291 | Each message a projection claims was sent has a succeeded action row for that message and an effect in the world |
| KernelTheorems.UnknownHaltsTheTurn | src/runtime.rs:245-280 | After an unknown result the turn begins, reviews and performs nothing more and cannot end well |
| KernelTheorems.LateFinishFails | src/ledger.rs:66-85 | Recovery closes every started action as unknown, leaves closed rows alone, and a finish that arrives later is refused |
| KernelTheorems.RecoverTwice | src/ledger.rs:66-93 | Recovering twice equals recovering once |
| KernelRecovered.RunFits | src/ledger.rs:303-358 | In every run finished rounds have no open action and only projected results, and recovered results, stored or in a turn's memory, are distinct and belong to unfinished rounds of other turns |
| KernelRecovered.RecoveredOnce | src/ledger.rs:303-337 | Over every stored projection a recovered result is shown once at most, with its logged status, and its action belongs to a round of the session that was never finished |
| KernelRecovered.FinishedIsSettled | src/ledger.rs:339-358 | Once a round is finished every action of it is closed and the saved projection covers all its results, so none is ever recovered |
| KernelRuns.StepKeeps | src/runtime.rs:48-389 | Every step of deliveries, observations, host events, turns and crashes keeps the kernel's invariant |
| KernelRuns.RunInv | src/runtime.rs:48-389 | The invariant linking log, projections, memory and action table holds in every run |
| KernelRuns.RecoverKeeps | src/ledger.rs:66-93 | Closing what was started and ending interrupted turns keeps the tables and every session's projection consistent |
| KernelRounds.SaveRoundMove | src/runtime.rs:213-375 | Saving a played round keeps pairing, truthfulness and the record of what was projected |
| KernelRounds.SaveCorrectionMove | src/runtime.rs:214-241 | Saving a malformed round keeps them too: every call is answered and nothing is executed |
| KernelActions.BeginMove | src/ledger.rs:211-259 | Beginning an action keeps the invariant: authorised at the current revision, started once, no effect yet |
| KernelActions.FinishMove | src/ledger.rs:261-271 | Finishing keeps it: one result event with the row's status, and unknown halts the turn |
| LedgerFacts.RevisionIsLatestFact | src/ledger.rs:127-136 | The revision is the sequence number of the latest fact of any session |
| LedgerFacts.FreshFacts | src/ledger.rs:303-337 | When exactly the events up to a cut are projected, history adds the later ones, each once and in order |
| LedgerFacts.ThroughProjected | src/ledger_stream.rs:140-143 | The value the cursor moves to is the highest projected inbound or observation event |
| LedgerStore.Ledger.RecoverOpened | src/ledger.rs:66-93 | Opening the ledger closes started rows and ends interrupted turns as the recovery function says, in any row order |
| LedgerStore.Ledger.CurrentRevision | src/ledger.rs:127-136 | Computes the revision from the log |
| LedgerStore.Ledger.Deliver | src/ledger_stream.rs:53-88 | Idempotent ingestion: the new tables and receipt, or the refusal and no change |
| LedgerStore.Ledger.AddReview | src/ledger.rs:192-208 | A review is stored once per action id |
| LedgerStore.Ledger.BeginAction | src/ledger.rs:211-259 | The begin check in order (revision, review, fingerprint and verdict, new id), and the started row |
| LedgerStore.Ledger.FinishAction | src/ledger.rs:261-271 | Only a started row can be finished; its status and its result event change together |
| LedgerStore.Ledger.AddRound | src/ledger.rs:273-301 | A round is stored without its reasoning, unfinished, with its event |
| LedgerStore.Ledger.RecoverRound | src/ledger.rs:317-331 | An unfinished round is rebuilt with one reply per call: its row's status, or cancelled when it never started |
| LedgerStore.Ledger.ReadHistory | src/ledger.rs:303-337 | The stored projection, the messages of unprojected events in order, their ids and the highest sequence number |
| LedgerStore.Ledger.StoreHistory | src/ledger.rs:339-358 | Messages, projected ids and the finished round are saved together |
| LedgerStore.Ledger.ReadProjectedThrough | src/ledger_stream.rs:140-143 | The highest projected inbound or observation event of the session |
| LedgerStore.Ledger.MoveCursor | src/ledger_stream.rs:136-139 | The cursor never moves back |
| LedgerStore.Ledger.ReadPending | src/ledger_stream.rs:96-104 | The session's inbound and observation events after the cursor, in order |
| Executor.RevisionStands | src/ledger.rs:127-136 | The revision is unchanged by appended events if and only if none of them is a fact |
| Executor.ActionExecutor.Authorise | src/executor.rs:84-150 | An action gets its started row exactly when it is allowed, not cancelled, new, and no fact was recorded since its snapshot; otherwise which refusal it gets |
| Executor.ActionExecutor.Execute | src/executor.rs:37-203 | The effect happens exactly when every gate is passed, at most once; row and single result event then carry the adapter's classified status |
| RoundLoop.NothingAfterUnknown | src/runtime.rs:243-307 | After an unknown status every later action of the round is cancelled |
| RoundLoop.RoundState.PlaySends | src/runtime.rs:243-280 | The send loop: statuses, the confirmed messages in order, the flags and the counts |
| RoundLoop.RoundState.PlayCalls | src/runtime.rs:292-333 | The call loop: one reply per call pushed to both message lists, arguments that are not JSON refused, counts |
| RoundLoop.RoundState.PlayRound | src/runtime.rs:212-339 | The messages the loops push are the kernel's records of the round, in both lists |
| Service.ServeInv | src/web/mod.rs:381-428 | The worker's stage, the live runner and the attention flag agree in every run |
| Service.BlockedStartsNothing | src/web/mod.rs:381-428 | While blocked no step is armed or launched and no live action can begin |
| Service.OnlyClearUnblocks | src/web/mod.rs:341-361 | Nothing but an owner's clearing of the flag ends the blockade, restarts included |
| Service.BeginNeedsOwner | src/web/mod.rs:348-428 | From a blocked moment to the next live begin, through any restarts, an owner cleared the flag |
| Service.ClearsArePaidFor | src/web/mod.rs:348-361 | Each clearing belongs to its own new owner submission; a repeated delivery clears nothing |
| Mailbox.DrainedInv | src/scheduler.rs:87-124 | The drain's stage, its session's runner, what is pending, what the last empty look had seen, the collected outcomes and the mark about to be stored agree in every run, through errors and crashes |
| Mailbox.UnknownStopsTheDrain | src/scheduler.rs:103-124 | From the step that turns an action of the drained session unknown, no action of the session is inspected, reviewed, begun or performed, no turn of it ends well and none is started, until drain is called again |
| Mailbox.OnlyTheLastIsBad | src/scheduler.rs:116-121 | Every outcome a drain collects but the last is completed or silent, and all of them are while it goes on |
| Mailbox.LaunchHasWork | src/scheduler.rs:105-115 | When a turn is started something is pending, even though the look at it lies a coalescing window back |
| Mailbox.GoodTurnLeavesTheRest | src/scheduler.rs:88-101 | Moving the cursor after a good turn leaves pending exactly the inbound and observation events logged after the turn last read the log |
| MailboxReturns.ShownAtTheReturn | src/scheduler.rs:105-124 | When a drain returns because the producers are done or it is cancelled, what it has not shown, and what is still pending, is exactly what was logged for the session after its last look; so it has shown everything if and only if nothing was |
| MailboxReturns.NothingArrivedNothingMissed | src/scheduler.rs:105-124 | The caller's condition: a drain whose last look came after the session's last delivery and observation returns with everything shown and nothing pending |
| MailboxReturns.ArrivalIsMissed | src/scheduler.rs:106-114 | Where the code does less: from every moment at which a drain has seen nothing, a message may arrive and the producers be done, and the drain returns with good outcomes only while the message is pending and in no projection |
| MailboxReturns.OnlyMessageMissed | src/scheduler.rs:105-114 | The shortest such run, on an empty ledger: call, empty look, delivery, producers done, return |
| MailboxScheduler.Scheduler.Step | src/scheduler.rs:88-102 | One step: the turn's tables, with the cursor moved to the highest projected event exactly after a good end |
| MailboxScheduler.Scheduler.DrainAll | src/scheduler.rs:103-124 | The loop over any turns and waits: all outcomes but the last good; a return with good ones only follows a look that saw nothing pending, and then nothing is pending exactly when nothing was logged for the session since that look |
| Protocol.AcceptedExactlyWhenResolved | src/protocol.rs:113-144 | A message passes validation if and only if its target is known with an allowed transport, and every segment resolves within its limits |
| Protocol.FirstSegmentError | src/protocol.rs:129-142 | The segments are accepted if and only if each of them is |
| PrototypeRuns.RunInv | archive/v3/src/mutsumi_sync/prototype/runtime.py:181-618 | The prototype's invariant holds in every run of chat, timer, sender, worker, close and restart steps |
| PrototypeTheorems.OneAttemptOneResult | archive/v3/src/mutsumi_sync/prototype/runtime.py:340-384 | Each delivery of a turn is started at most once and gets at most one result, after its start |
| PrototypeTheorems.OneNoticeBeforeTheReply | archive/v3/src/mutsumi_sync/prototype/runtime.py:340-384 | A turn starts at most one waiting notice, and none once its reply or silence is decided |
| PrototypeTheorems.ReplyKnowsOfNotice | archive/v3/src/mutsumi_sync/prototype/runtime.py:431-445 | When a reply message starts no notice is under way, and if one was delivered the model call behind the reply carried the notice flag and came after it |
| PrototypeTheorems.Supersession | archive/v3/src/mutsumi_sync/prototype/runtime.py:232-247 | No inbound event lies between a turn's only creation and any of its sends |
| PrototypeTheorems.RepliesInOrder | archive/v3/src/mutsumi_sync/prototype/runtime.py:446-452 | A reply message starts only after every earlier one of its turn was confirmed sent |
| PrototypeTheorems.FirstFailureStops | archive/v3/src/mutsumi_sync/prototype/runtime.py:446-452 | After a reply message that was not confirmed no later one of the turn starts |
| PrototypeTheorems.GoodEndsAreComplete | archive/v3/src/mutsumi_sync/prototype/runtime.py:293-303 | A turn ends well only undisturbed, decided, and with every message of its reply confirmed |
| PrototypeTheorems.ReceiptsAfterRestart | archive/v3/src/mutsumi_sync/prototype/runtime.py:205-218 | After a restart every started send has exactly one result, unknown if it had none |
| PrototypeTheorems.WorkersWait | archive/v3/src/mutsumi_sync/prototype/runtime.py:550-570 | After an inbound event no worker tool or report comes before a later turn's good end, or a restart with nothing pending |
| PrototypeStops.StartsExactlyWhenLifted | archive/v3/src/mutsumi_sync/prototype/runtime.py:496-559 | From any moment with a stop or a restart asked for, over any steps of the same work, its next tool or report can start if and only if the gate is open, the worker has not broken off its loop, and the worker took up the latest request when the last word on stopping was an update (or a stop was never asked) |
| PrototypeStops.StopHolds | archive/v3/src/mutsumi_sync/prototype/runtime.py:671-717 | Until the request is taken up in that way no tool of the work starts and no report of it is made, whatever else happens |
| PrototypeStops.RequestHolds | archive/v3/src/mutsumi_sync/prototype/runtime.py:671-717 | A request the worker does not take up, or a stop no update reaches, prevents every tool and report of the work |
| PrototypeLifting.StopIsLifted | archive/v3/src/mutsumi_sync/prototype/runtime.py:496-505 | Where the code does less: from every calm moment at which a stopping job is still active and its worker still in its loop, an update lifts the stop and the same work starts another tool |
| PrototypeLifting.CancelThenUpdate | archive/v3/src/mutsumi_sync/prototype/runtime.py:496-505 | The run from the start: a job starts a tool, is cancelled, is updated while it is stopping, and starts a second tool |
| PrototypeTheorems.SpentTurnsFallSilent | archive/v3/src/mutsumi_sync/prototype/runtime.py:343-350 | A turn whose deadline has passed, or that failed, or is over, starts no further send but an error notice, over any steps and restarts |
| PrototypeTheorems.ReportedWhenConfirmed | archive/v3/src/mutsumi_sync/prototype/runtime.py:446-462 | A job's result counts as delivered only after a turn about it decided at least one message and every one of them was confirmed sent |
| PrototypeTheorems.DeliveredOnce | archive/v3/src/mutsumi_sync/prototype/runtime.py:270-274 | Once a job's result was delivered no turn is ever created for it again, over any steps and restarts |
| PrototypeRestart.OrphansRepair | archive/v3/src/mutsumi_sync/prototype/runtime.py:205-218 | The receipts added at start are one per started send without result, and nothing else |
| PrototypeRestart.NothingSkipped | archive/v3/src/mutsumi_sync/prototype/runtime.py:210-216 | A conversation that cannot be rebuilt from an inbound event has no send to repair |
| PrototypeScheduler.Conversation.Accept | archive/v3/src/mutsumi_sync/prototype/runtime.py:224-229 | A submission is accepted exactly while the scheduler is open |
| PrototypeScheduler.Conversation.Submit | archive/v3/src/mutsumi_sync/prototype/runtime.py:232-252 | Under the lock an accepted submission records its input, closes the tool gate and supersedes the turn, even if the scheduler began to close while it waited: the machine's step |
| PrototypeScheduler.Conversation.NextTurn | archive/v3/src/mutsumi_sync/prototype/runtime.py:263-280 | Pending inputs first, then the first waiting result, which is dropped without a turn when its job was delivered meanwhile, else nothing: the machine's step |
| PrototypeScheduler.Conversation.FinishReport | archive/v3/src/mutsumi_sync/prototype/runtime.py:453-462 | The job a complete reply was about is marked delivered, as the machine's step |
| PrototypeScheduler.Conversation.Change | archive/v3/src/mutsumi_sync/prototype/runtime.py:491-505 | An update or a cancellation reaches the running work exactly when the turn is current and the job still active, and the latest one sets the stop: the machine's step |
| PrototypeScheduler.Conversation.NextRound | archive/v3/src/mutsumi_sync/prototype/runtime.py:670-675 | At the top of its loop the worker leaves when stopped and otherwise takes up a request, as the machine's steps |
| PrototypeScheduler.Conversation.MayDeliver | archive/v3/src/mutsumi_sync/prototype/runtime.py:343-350 | The tests before a send accept exactly the deliverable ones |
| PrototypeScheduler.Conversation.CheckDelivery | archive/v3/src/mutsumi_sync/prototype/runtime.py:340-353 | A send is recorded as started or refused, with the notice's flags, as the machine's step |
| PrototypeScheduler.Conversation.SettleDelivery | archive/v3/src/mutsumi_sync/prototype/runtime.py:369-384 | What the sender's answer does to the turn's fields, as the machine's step |
| PrototypeScheduler.Conversation.Publish | archive/v3/src/mutsumi_sync/prototype/runtime.py:431-445 | Stale, wait, retry or decide, as the machine's step |
| PrototypeScheduler.Conversation.EndTurn | archive/v3/src/mutsumi_sync/prototype/runtime.py:299-303 | The end of a turn opens the tool gate exactly when it ended well and is still current |
| PrototypeScheduler.Conversation.TryWork | archive/v3/src/mutsumi_sync/prototype/runtime.py:550-570 | The worker's gate lets a tool or report through exactly when the machine does |
| PrototypeScheduler.Conversation.Receipts | archive/v3/src/mutsumi_sync/prototype/runtime.py:205-206 | The set built from the log holds exactly the deliveries that have a result |
| PrototypeScheduler.Conversation.Missing | archive/v3/src/mutsumi_sync/prototype/runtime.py:207-218 | The start-up loop adds exactly the missing receipts |
| PrototypeScheduler.Conversation.Start | archive/v3/src/mutsumi_sync/prototype/runtime.py:181-222 | A new process starts in the machine's restart state |
| Jobs.RunInv | archive/v3/src/mutsumi_sync/prototype/storage.py:92-196 | Keys unique, claims unique and never queued, running jobs held by their conversation's worker, in every run |
| Jobs.OneJobPerInputs | archive/v3/src/mutsumi_sync/prototype/storage.py:92-130 | A non-empty input list of a conversation has at most one job, and asking again creates nothing |
| Jobs.ClaimedOnce | archive/v3/src/mutsumi_sync/prototype/runtime.py:521-531 | A job is claimed at most once and is not queued afterwards |
| Jobs.NeverQueuedAgain | archive/v3/src/mutsumi_sync/prototype/storage.py:148-196 | A job that left the queue never returns to it, over any steps and restarts |
| Jobs.OneRunsPerConversation | archive/v3/src/mutsumi_sync/prototype/runtime.py:521-548 | At most one job of a conversation runs |
| Jobs.CommittedNeverReplayed | archive/v3/src/mutsumi_sync/prototype/runtime.py:181-204 | An input once committed to a job is never handed out by a later restart, which drops it instead |
| Jobs.NextQueued | archive/v3/src/mutsumi_sync/prototype/runtime.py:525-527 | The claim takes the conversation's first queued job, or none when there is none |
| Jobs.Merged | archive/v3/src/mutsumi_sync/prototype/runtime.py:500 | Updating a job only adds references |
| Jobs.RestartReplays | archive/v3/src/mutsumi_sync/prototype/runtime.py:190-204 | A restart hands out exactly the received inputs that no job took, oldest first, and leaves no job running |
| JobStore.Store.Find | archive/v3/src/mutsumi_sync/prototype/storage.py:122-127 | Finds the first row with the key exactly when there is one |
| JobStore.Store.CreateJob | archive/v3/src/mutsumi_sync/prototype/storage.py:92-130 | Inserts unless the key is taken and returns the row that has it |
| JobStore.Store.ClaimNext | archive/v3/src/mutsumi_sync/prototype/runtime.py:521-531 | The first queued job of the conversation becomes running, and nothing else changes |
| JobStore.Store.RecoverJobs | archive/v3/src/mutsumi_sync/prototype/storage.py:179-196 | Every running job becomes unknown, and nothing else changes |
| JobStore.Inbox.Replay | archive/v3/src/mutsumi_sync/prototype/runtime.py:190-204 | Received inputs are dropped when a job took them and queued in order otherwise |
| JobStore.Inbox.Start | archive/v3/src/mutsumi_sync/prototype/runtime.py:181-204 | Jobs are recovered first, and the inputs are sorted by what any job took |
| Vision.OneLockPerKey | src/vision.rs:84-101 | Observers share a lock exactly when they share a key, and at most one of a key's observers is past it, so at most one call per key is in flight |
| Vision.AtMostThreeCalls | src/vision.rs:107-120 | At most three model calls are in flight |
| Vision.CachedFits | src/vision.rs:29-41 | Only descriptions within their budgets are cached |
| Vision.OneResultPerKey | src/vision.rs:101-137 | While no result is lost before its write, a key has at most one validated result, written once, and the cache holds it |
| VisionCache.LossAllowsSecond | src/vision.rs:101-137 | Dropping an observer between its result and the write lets the next one compute the key again, from any such state |
| VisionLosses.SecondExactlyAfterLoss | src/vision.rs:101-137 | A computed result is a second one of its key if and only if one had been lost before its write when the observer read the cache and found nothing |
| VisionLosses.TwoResultsExactlyAfterLoss | src/vision.rs:101-137 | A run computes a key twice if and only if some observer that answered had looked after such a loss and found nothing cached |
| VisionCache.LockTable.LockFor | src/vision.rs:90-100 | Dead entries go, a live lock is shared, otherwise a new one is made |
| LifeStream.Contiguous | archive/v3/src/mutsumi_sync/memory/projection.py:168-203 | What belongs to a position is one contiguous piece of the stream after all earlier positions |
| LifeStream.RenderedOnce | archive/v3/src/mutsumi_sync/memory/projection.py:168-203 | Each eligible inbound or outbound event appears exactly once and no other event appears so |
| LifeStream.StreamNative | archive/v3/src/mutsumi_sync/memory/projection.py:124-166 | Every message with calls is followed at once by one reply per call, and no reply stands elsewhere |
| LifeStream.LastResultIs | archive/v3/src/mutsumi_sync/memory/projection.py:127-165 | A reply carries the last result recorded for its call, and is missing only when there is none |
| LifeStreamBuilder.FlushRound | archive/v3/src/mutsumi_sync/memory/projection.py:124-166 | Flushing a pending round writes the native round it stands for |
| LifeStreamBuilder.Collect | archive/v3/src/mutsumi_sync/memory/projection.py:168-198 | After the pass the dictionaries hold every turn's tool events and first position, and the entries every chat event |
| LifeStreamBuilder.Build | archive/v3/src/mutsumi_sync/memory/projection.py:112-203 | The buffered, flushed and sorted output equals the stream position by position |
| FinalEnvelope.PrintThenParse | archive/v3/src/mutsumi_sync/output_protocol.py:23-60 | Parsing a printed envelope returns the stripped channels if and only if neither contains the marker that closes it |
| FinalEnvelope.ParsePrintParse | archive/v3/src/mutsumi_sync/output_protocol.py:28-60 | Whatever parses, printing it and parsing again gives the same channels |
| FinalEnvelope.ParsedChannels | archive/v3/src/mutsumi_sync/output_protocol.py:35-60 | Parsed channels are stripped and lack their closing markers |
| FinalEnvelope.EnvelopeRoundTrip | archive/v3/src/mutsumi_sync/output_protocol.py:7-60 | Both laws for the program's own markers |
| Roles.AudienceStable | src/web/roles.rs:82-88 | Through any chain of submitted updates every account keeps its target and the book stays valid |
| Roles.NoSharedAudience | src/web/roles.rs:82-88 | Two accounts never share a target, not even at different moments of the chain |
| Roles.AcceptedOnce | src/web/roles.rs:132-159 | An update that was accepted is stale ever after |
| Roles.AcceptedIsWhatWasSent | src/web/roles.rs:132-159 | An accepted update becomes the book contact for contact, one version later, valid, with the legacy account kept |
| Roles.OwnerAlwaysBound | src/web/roles.rs:89-131 | A valid book has exactly one owner, enabled, and bound to its own account |
| Roles.OwnerScopeBindsOwner | src/web/roles.rs:89-93 | While only the owner is in scope, exactly the owner is bound |
| Roles.BlockedNeverBound | src/web/roles.rs:89-93 | A blocked or disabled contact is never bound |
| Roles.SeedValid | src/web/roles.rs:65-81 | The first book is valid exactly when the configured owner's id would be accepted, and its owner has the legacy target |
| Roles.BindingsMatchDirectory | src/web/roles.rs:160-194 | The bindings' keys are exactly the napcat targets of the active directory, each reaching its own account; other targets stay |

## Left out

- HTTP, WebSocket, NapCat, provider, router and reviewer clients: their answers are arbitrary results (a round, a verdict, accepted, unknown effect, not started, failure, cancelled).
- SQL text, migrations, file locks and threads: each ledger call is one atomic step; `events.seq` is the position in the log, and the unique columns are the maps' keys. `src/schema.sql` fixes these keys.
- JSON text: messages carry the value they denote with the byte length that is checked; SHA-256 digests are injective; tool results and rendered message texts are tags.
- Evidence facts given to the reviewer (`Ledger::facts`, the list in `snapshot`): content for the reviewer, not used by any rule.
- Audit events (`review_started`, `context_snapshot`, `provider_error`, ...): no rule reads them, so in the kernel they are host steps that may happen anywhere; `Executor` writes the ones around an action.
- Input shape checks of `run_inner` and `Ingress::receive`, and the byte size of a request: refusals before anything is recorded, and a free choice to end with `context_limit`.
- Cancellation is a free choice at each place where the code looks at the token.
- UUIDs are serials that are never reused, and clocks are absent: timers and timeouts may fire at any moment.
- A turn whose ledger call fails ends at once, as the code's `?` does; that the web worker itself stops when storing the attention flag fails is not modelled.
- MailboxScheduler.Scheduler.DrainAll: what a turn, and a wait for producers, leave behind is given round by round; their interleaving is in `Mailbox`, where turns of the drained session are started by the drain alone.
- Executor.ActionExecutor.Execute: events of other tasks are given as batches at each await; another execution of the same action id in between is not part of this method, and is covered by the kernel's rows.
- Two executors that begin at the same revision, and a projection that is in sequence order as a whole: the code does not promise either.
- In the prototype, failures of its own store: a failed append right after a delivered notice would leave the notice done but not marked as sent.
- The prototype's inner journal, context rendering, model timeouts as durations, tool failure counters, and the 100000-event limit of the start-up read.
- In the prototype's machine a job's result may become available at any time while it is undelivered, and whether a complete reply was superseded in its last moment does not keep it from being marked delivered.
- Jobs of other conversations inside `Prototype`: one conversation is modelled; jobs across conversations are in `Jobs`.
- The argument checks of `create_job` and `update_job`, and the job's request text, result and active action: refusals and texts that no rule reads.
- Terminal job statuses are not absorbing in the code during `close()`, and no member claims it.
- LifeStreamBuilder.SortEntries: Python's `sorted` is written as an insertion sort; only its being sorted with the same entries matters.
- FinalEnvelope.Parse: the lenient mode with its regular expressions is not modelled.
- Roles.Directory: modelled for books whose contacts are filed under their own account, which seeding, validation and updates guarantee.
- Image decoding, rendering, the sandbox, media files, the web routes, cookies and the terminal interface.
