# The credit economy of the chat server, verified

A model in Dafny of the server that sells credits, spends them on chat replies and paid media, and streams
several models into one chat. The project proves what the server's design promises about money, about the chat
protocol, and about the fast forms it uses in place of simple ones, for every input and every interleaving.
`dafny verify dfyconfig.toml` checks it.

## What is modelled

**The shared database** (`Ledger`, `Billing`). Amounts are integer micro-credits, the unit of `Numeric(18, 6)`.
A database session buffers its writes until it commits: a wallet update, a purchase row held by
`SELECT ... FOR UPDATE` or by an uncommitted insert, a reply row. Other sessions see committed data, wait for row
locks, and are refused by unique keys. `Database` is the object whose tables the statements update; each method is
proved equal to the statement function that the theorems talk about. Two history variables list the wallet movements
and the replies ever recorded, in commit order; the table of reply rows is kept apart from them, because rewinds and
chat deletions remove rows and give nothing back.

**The economy** (`Payments`, `MediaJobs`, `ChatBilling`, `Economy`, `Handlers`, `Server`). Checkouts, webhook
deliveries, payment verifications, media jobs and chat turns are processes that run one SQL statement or one commit
at a time. An event lets one process take one step, crashes a request, deletes a video row, erases reply rows or
starts a process; a run is any sequence of events. One inductive invariant (`Economy.Inv`) holds in every run.
`Server` is the object that handles one event at a time and keeps it.

**Guarantees over every run** (`Guarantees`, `Traces`, `Causes`, `MessageRows`, `Overdraft`, `OverdraftReached`,
`MediaFaults`): exactly-once credit, no credit without a payment, one charge per reply, jobs that balance out exactly
when the answers they met allow it, conservation of credits, and how far a wallet can go below zero.

**Outcomes** (`Settlement`, `PaymentRuns`, `JobCharges`, `JobOutcomes`, `TurnOutcomes`, `SessionOutcomes`, `SlotOutcomes`):
what every process comes to, if and only if by what its steps met on the way, what its commit does to the wallet, that
each step brings it nearer its end, and the ordinary runs from start to end.

**Arithmetic** (`Pricing`, `TokenUsage`, `Affordability`): the price table, half-even rounding, token usage and the
budget of a turn, with the Decimal divisions cross-multiplied so that everything is exact.

**One chat socket** (`ChatSession`, `ReplyReach`, `ReplyIds`): the receive loop, the stop event, any number of turn tasks
with concurrent slots, and the frames they send. Appending a chunk and the return of its send are two steps, with
exceptions in between; storing a reply flushes and commits, with a fault in between. `ReplyIds` joins one socket and the
economy at that transaction.

**One chat's messages** (`ChatLog`, `Intake`): rewinds for edit and regenerate, each model's prompt, what other
sessions commit in between, and the whole way from a request to prompts and budgets.

**Fast forms** (`RateLimit`, `ChatCache`, `UsageReport`, `ClaudeTurns`): the Redis window counter, the trimmed
cache, grouped spend totals with the bounded recent list, and the merging of neighbouring turns, each as the
imperative code and against a specification over the whole history.

## Findings

Each is a theorem with its exact condition or a run.

- Every price in the registry is a multiple of five cents, so no charge is ever rounded and a planned turn never
  exceeds the balance it was planned on. For two-decimal prices in general the excess is at most 2n/5 micro-credits
  for n slots, and three slots reach it (`Affordability`).
- `app/services/billing.py:64-66` says an overdraft is bounded by one unit of work. It is bounded by one unit per
  socket of the user: k sockets can read the same balance, and a media charge can then take it
  (`Overdraft.OverdraftIsBounded`, reached for every k by `OverdraftReached.OverdraftBoundIsReached`).
- A media task that fails after it has stored its asset is refunded although it was delivered; an avatar task that fails
  after its first poll was queued is refunded while the poller goes on, which can deliver the video for free or refund a
  second time; a task that cannot be queued, rescheduled or refunded, or whose worker is killed, leaves its owner charged
  (`MediaFaults`). A charged job that has ended balances if and only if: with a late failure, no refund committed;
  otherwise, with a failure after the first poll was queued, exactly one of task and poller was lost; otherwise, neither
  was (`Guarantees.JobsBalanceExactly`).
- A paid webhook delivery gives up, and its buyer is not credited, if and only if its first select found no row and it
  has no usable metadata (`Settlement.DeliveriesGiveUpExactly`, `Settlement.AGivenUpSessionIsNotCredited`).
- A turn without credits stops before it writes anything, but one whose balance cannot pay for a slot stops only after
  the message log has been written: a turn refused for lack of credits leaves the log alone if and only if the balance is
  not positive, or it was a regenerate of a log that ends with the user message. Otherwise a refused new message stays
  stored, a refused edit has truncated (`Intake.UnpaidTurnKeepsTheLogExactly`, `Intake.AnUnpaidEditLosesTheChat`).
- The comment at `app/api/v1/endpoints/chat.py:647` says the history query sees the previous turns only. The flush at
  line 645 makes it see the new message, and it also sees what other sockets commit to the chat before it runs: a late
  reply makes the current message appear twice. A model's prompt is right if and only if the late rows of its thread
  leave it undisturbed (`ChatLog.PromptIsRightExactly`, `ChatLog.LateReplyRepeatsTheMessage`).
- A regenerated prompt loses the attachments of the message it answers again (`app/api/v1/endpoints/chat.py:548`): it
  carries them all if and only if there are none (`Intake.PromptsCarryTheMessage`).
- `truncate_from` and `delete_replies_after` read the victims and then delete them: a row that another session commits
  in between survives, and a reply among those to a deleted message loses its parent. The log is the plain prefix
  exactly when nothing came in between (`ChatLog.LateRowsSurviveTruncation`, `ChatLog.LateRowsSurviveRegenerate`).
- A reply stored with an error can be one chunk ahead of what the client got, when a timeout strikes during a send
  (`ChatSession.FailedReplyCanBeAheadOfTheClient`); a reply was received in full if and only if no send of its text was
  lost (`ReplyReach.ReplyIsHeardExactly`), and a complete one always was (`ChatSession.RepliesAreAccountedFor`).
- The id in message_done is read at the flush, before the commit: the client can get an id, and a cost, for a reply that
  is neither stored nor charged (`ReplyIds.AnIdCanNameNothing`). An id names a stored reply if and only if no commit of
  that slot was lost after the flush (`ReplyIds.IdsNameRowsExactly`).
- The recent list shows the five newest activities exactly; its first m items are exact if and only if the first row
  each query leaves out is not among the m newest, and the sixth item can be wrong (`UsageReport`).

## Hypotheses

Environment assumptions are hypotheses of the lemmas that need them: usage within the plan and the planned model billed
(`ChatBilling.AsPlanned`), at most k turns of a user in flight (`Overdraft.Assumed`), queueing, refunds and workers that
do not fail (`MediaJobs.Healthy`), strictly increasing message times (`ChatLog.InOrder`), distinct activity times
(`UsageReport.ValidLedgers`). Three are built into the models: each queued task runs once, so that a task redelivered
after its worker was lost is outside; a charge keeps its six digits on the way to the worker; and all the grouped queries
of one usage summary read the same rows, although they are separate statements that may see different commits.

## Model

| member | source | states |
|---|---|---|
| Billing.Database.GetBalance | app/services/billing.py:42-45 | the committed balance, zero for a user without a wallet |
| Billing.Database.Debit | app/services/billing.py:53-88 | the guarded or overdraft update: refused for a missing wallet or, when guarded, a low balance; waits for the row lock; otherwise takes exactly the amount, and a non-positive amount takes nothing |
| Billing.Database.Credit | app/services/billing.py:91-109 | the upsert adds exactly the amount, never refuses, waits for the row lock |
| Billing.Database.Refund | app/services/billing.py:112-116 | a refund is a credit posted as such |
| Billing.Database.LockRow | app/api/v1/endpoints/payments.py:219-226 | SELECT FOR UPDATE: refused without a row, waits for a holder, then holds the row as committed |
| Billing.Database.Insert | app/api/v1/endpoints/payments.py:234-252 | an insert of a unique reference fails on a committed row and waits for an uncommitted one |
| Billing.Database.Flush | app/api/v1/endpoints/payments.py:370-379 | the update that carries a payment id is refused exactly when another row has it |
| Billing.Database.SettleHeld | app/api/v1/endpoints/payments.py:197-202 | the buyer of the held row is credited the row's credits and the row is completed, in one transaction |
| Billing.Database.ChargeReply | app/api/v1/endpoints/chat.py:863-882 | the overdraft debit and the reply row are one transaction |
| Billing.Database.CommitSession | app/core/database.py:69-81 | a commit applies all the buffered writes of its session at once, and nothing else |
| Billing.Database.RollbackSession | app/core/database.py:69-81 | a rollback drops all of them |
| Ledger.CommitKeepsOthers | app/models/transaction.py:26-29 | what one session commits leaves the locked row, the balance and the uniqueness that any other open session relies on as they were |
| Ledger.CommitKeepsPurchases | app/api/v1/endpoints/payments.py:195-202 | after any commit, each reference has been posted once if its row is completed and never otherwise |
| Ledger.CommitKeepsPayments | app/models/transaction.py:26-29 | after any commit, a payment id stands in at most one row, and only in a completed one |
| Ledger.CommitKeepsReplies | app/api/v1/endpoints/chat.py:861-882 | after any commit, the replies ever recorded and the reply charges correspond one to one in order, each at its own price |
| Ledger.CommitKeepsSafety | app/core/database.py:69-81 | every commit keeps the whole database invariant: lock exclusion, sessions, purchases, payments, replies, conservation |
| Ledger.CommitFrame | app/core/database.py:69-81 | a commit touches no other process's session or postings, loses no row and changes no completed row |
| Ledger.SettleKeepsSafety | app/api/v1/endpoints/payments.py:195-202 | crediting a held pending row keeps the invariant: the posting and the completed row belong together |
| Ledger.FlushKeepsSafety | app/api/v1/endpoints/payments.py:365-379 | sending a new payment id keeps the invariant: no other session or row has it |
| Payments.CheckoutStepIsSafe | app/api/v1/endpoints/payments.py:134-149 | every step of the checkout row insert keeps the invariant, racing webhooks included |
| Payments.CheckoutComesNearer | app/api/v1/endpoints/payments.py:134-149 | every step of a checkout that has not ended brings it nearer its end, unless the row of its reference is locked |
| Payments.DeliveryStepIsSafe | app/api/v1/endpoints/payments.py:184-255 | every step of a delivery keeps the invariant: lock, rebuild from metadata, retry after the lost insert, settle, commit; a paid one that ends without giving up has a completed row, with or without metadata |
| Payments.DeliveryComesNearer | app/api/v1/endpoints/payments.py:184-255 | every step of a delivery that has not ended brings it nearer its end, unless the row or, at the credit, the wallet is locked |
| Payments.VerifyStepIsSafe | app/api/v1/endpoints/payments.py:317-387 | every step of a verification keeps the invariant, and each answer it gives is true when given; a conflict means another completed order has the payment |
| Payments.VerifyComesNearer | app/api/v1/endpoints/payments.py:341-387 | every step of a verification that has not answered brings it nearer its answer, unless the row, the wallet or the payment id is locked at the statement that needs it |
| MediaJobs.JobStepIsSafe | app/workers/tasks.py:41-288 | every step of either part of a paid job, the task and the poll chain it queues, from the reservation to the refund, keeps the invariant and the job's own postings |
| MediaJobs.JobPayStepIsSafe | app/api/v1/endpoints/media.py:64-72 | reserving and refunding post exactly the amount of the job, the reservation once and a refund once for each part |
| MediaJobs.MoveKeepsHistory | app/workers/tasks.py:210-274 | polling and rescheduling stay within the attempt limit, with the deleted video row included |
| MediaJobs.DeletionIsFinal | app/api/v1/endpoints/media.py:399-421 | no step delivers a video whose row has been deleted |
| MediaJobs.EveryStepBringsTheEndCloser | app/workers/tasks.py:220-274 | each step of a part that has not ended lowers a measure of the job in which the poll chain weighs max minus attempt, unless it waits for a wallet lock |
| MediaFaults.LateFaultDeliversForFree | app/workers/tasks.py:108-158 | a run whose only fault comes after the asset is stored ends delivered and refunded |
| MediaFaults.LostTaskIsNotRefunded | app/api/v1/endpoints/media.py:262-301 | a run whose only fault is the enqueue after the commit ends charged with nothing delivered |
| MediaFaults.HandoverFaultRefundsTwice | app/workers/tasks.py:196-207 | a run in which the avatar task fails after the first poll was queued and the render then fails: one charge, two refunds |
| MediaFaults.HandoverFaultDeliversForFree | app/workers/tasks.py:196-207 | the same fault with a render that succeeds: delivered and refunded, without any fault after the video was stored |
| MediaFaults.TheLastPollDelivers | app/workers/tasks.py:220-274 | for every limit, the run in which all polls but the last find the render going on and the last one the limit allows delivers it |
| MediaFaults.AnEndlessRenderIsPaidBack | app/workers/tasks.py:264-274 | for every limit, the run in which none of them does: given up after exactly that many polls, marked failed and refunded |
| JobCharges.JobsAreChargedExactly | app/api/v1/endpoints/media.py:64-131 | over every run a job is charged if and only if the commit of its reserve went through, and turned away if and only if the committed balance did not cover its price at the debit, or that commit failed |
| JobCharges.ReserveTakesThePrice | app/api/v1/endpoints/media.py:64-131 | the commit of a reserve takes exactly the price from its user and from nobody else, and leaves no debt |
| JobCharges.RefundGivesThePriceBack | app/workers/tasks.py:41-48 | the commit of a refund gives exactly the price back to its user and to nobody else |
| JobOutcomes.PartsFailExactly | app/workers/tasks.py:210-274 | over every run a poller comes to its failure if and only if a poll met a DIDError or the last poll the limit allows was not conclusive, late faults included; a task if and only if an exception was raised in it or its video row was gone |
| JobOutcomes.FailuresAreRefunded | app/workers/tasks.py:41-48 | over every run a part refunds only after its failure, and one that failed and has ended has refunded or was lost on the way, not both; the asset is delivered if and only if a step stored it |
| JobOutcomes.VideoRowsAreTrue | app/workers/tasks.py:236-244 | over every run a video row reads completed only if a step stored the video, and then always, unless a fault came behind a store or a handover |
| JobOutcomes.FailedRowsAreTrue | app/workers/tasks.py:277-286 | and reads failed only if a part of the job failed or was lost |
| ChatBilling.TurnStepIsSafe | app/api/v1/endpoints/chat.py:585-711 | every step of a turn keeps the invariant, however its slots interleave; a slot posts at most one charge |
| ChatBilling.CommitStoresTheReply | app/api/v1/endpoints/chat.py:861-882 | the commit of a slot stores one reply with the turn's user, turn and slot, and takes exactly its cost from that wallet alone |
| ChatBilling.PlanReservesAtMostTheBalance | app/api/v1/endpoints/chat.py:681-711 | what all the slots of a planned turn may charge is at most the balance read, plus 2n/5, and at most the balance for registry prices |
| TurnOutcomes.TurnsEndExactly | app/api/v1/endpoints/chat.py:585-748 | over every run a turn has ended if and only if it met an empty wallet, a slot its share does not pay for, a failure before streaming, or the close of its last slot |
| TurnOutcomes.SlotsCloseExactly | app/api/v1/endpoints/chat.py:801-886 | over every run a reply of a slot is recorded if and only if its transaction committed, and a slot of a running turn has closed if and only if it did, or its reply was lost, or it had none |
| TurnOutcomes.TurnsRunOnAReading | app/api/v1/endpoints/chat.py:585-711 | over every run the slots of a running turn are budgeted by a plan on a positive balance that its user's wallet had at one moment of the run |
| Economy.NextIsSafe | app/services/billing.py:53-116 | every event of any process, a crash, a deleted video or erased reply rows keep the invariant of the whole server |
| Economy.EveryRunIsSafe | app/services/billing.py:53-116 | the invariant holds in every reachable state |
| Guarantees.StripeSessionIsCreditedOnce | app/api/v1/endpoints/payments.py:184-255 | over every run a session has been credited exactly once if its row is completed and not at all otherwise, and a paid delivery that ended without giving up has completed it |
| Settlement.DeliveriesGiveUpExactly | app/api/v1/endpoints/payments.py:219-232 | over every run a paid delivery that ended gave up if and only if its first select found no row and it has no usable metadata; otherwise its row is completed |
| Settlement.AGivenUpSessionIsNotCredited | app/api/v1/endpoints/payments.py:228-232 | the run in which a paid session without row and metadata is dropped, nothing else changed |
| Settlement.CheckoutsEndExactly | app/api/v1/endpoints/payments.py:134-149 | over every run a checkout is done if and only if its commit went through, and then its row is stored for its buyer and its credits ever after; it fails if and only if its reference was there already or it was killed |
| Settlement.DeliveriesSettleExactly | app/api/v1/endpoints/payments.py:184-255 | over every run a delivery is dropped if and only if it was killed before its end; one that has ended credited its buyer if and only if it took a pending row, or rebuilt one, and was not killed; a paid one that is done leaves its row completed |
| Settlement.DeliveryCreditsExactly | app/api/v1/endpoints/payments.py:199-202 | its commit completes the row it found and changes nothing else of it, or stores the row of its metadata; the buyer's balance goes up by exactly the credits of the row, and nobody else's moves |
| Settlement.VerificationsAnswerExactly | app/api/v1/endpoints/payments.py:341-387 | over every run the answer is NotFound if and only if the order was missing, Forbidden for another owner, AlreadyProcessed for a completed row, Conflict if another order carries the payment id, Failed if it was killed, Success if and only if its commit went through |
| Settlement.VerificationCreditsExactly | app/api/v1/endpoints/payments.py:365-387 | its commit completes the caller's own pending order with this payment id, and the caller's balance goes up by exactly its credits |
| PaymentRuns.APaidSessionIsCredited | app/api/v1/endpoints/payments.py:134-202 | the run, for every wallet, session, buyer and amount: checkout, one paid delivery, the row completed and the credits on top of the balance |
| PaymentRuns.AVerifiedOrderIsCredited | app/api/v1/endpoints/payments.py:317-387 | the run, for every wallet, order, payment, buyer and amount: order, own verification, success and the credits on top of the balance |
| Guarantees.RazorpayOrderIsCreditedOnce | app/api/v1/endpoints/payments.py:341-387 | over every run an order is credited at most once, a payment id settles at most one order, and success, already-processed and conflict answers are true |
| Guarantees.JobsBalanceOut | app/workers/tasks.py:172-288 | over every run, at any time, the wallet movements of a job are none, or one debit and one equal refund for each part whose refund committed; two only after a failure between queueing the first poll and returning; delivered and refunded only after that or a late failure; ended with neither only after a loss; polls stay within the limit |
| Guarantees.JobsBalanceExactly | app/workers/tasks.py:41-288 | over every run a charged job that ended is delivered and charged, or undelivered and refunded once, if and only if, by the answers its own steps were given: after a late failure no refund committed; else after a failure behind the first enqueue exactly one of task and poller lost its enqueue, refund or worker; else neither did |
| Guarantees.HealthyJobsAreDeliveredOrRefunded | app/workers/tasks.py:41-48 | under the environment assumptions a charged job that ended was delivered or refunded, never both, never neither; a consequence for healthy runs, the exact condition being the row before |
| Guarantees.RepliesAreChargedOnce | app/api/v1/endpoints/chat.py:861-886 | over every run the replies ever recorded are exactly the reply charges ever committed, each costs the price of its own tokens at its own model, and no slot is charged twice |
| MessageRows.RowsAreRecordedAndNotErased | app/api/v1/endpoints/chat.py:861-886 | over every run a reply row is in the table if and only if its charge was committed and no rewind or deletion has named it since, and it is the reply that was charged |
| Guarantees.CreditsAreConserved | app/services/billing.py:53-116 | in every reachable state a balance is the opening balance plus completed purchases minus job charges net of their refunds, be they none, one or two, minus the costs of all replies ever recorded, also those whose rows have been erased |
| Guarantees.DeletedVideosAreRefunded | app/api/v1/endpoints/media.py:399-421 | an avatar job whose video row the owner deletes before the video is there is never delivered afterwards, and in a healthy run ends refunded once for its charge |
| Causes.NoCreditsWithoutPayment | app/api/v1/endpoints/payments.py:184-255 | over every run a purchase row names the buyer and credits of a checkout or of a paid delivery's metadata, and is completed only after a paid delivery of its session or a verification by its own buyer with the payment id it carries |
| Causes.RepliesAreChargedToTheirUser | app/api/v1/endpoints/chat.py:861-882 | over every run each reply row belongs to the user of the turn that asked for it |
| Causes.NextKeepsCauses | app/api/v1/endpoints/payments.py:184-255 | every event keeps every row, committed or held, traceable to who ordered and who paid |
| Overdraft.OverdraftIsBounded | app/services/billing.py:64-88 | with at most k turns in flight planning at most m each, no interleaving takes the wallet below -k*m |
| Overdraft.SoloNeverOverdraws | app/api/v1/endpoints/chat.py:585-711 | one socket and no media debits: never below the rounding slack, which is zero for registry prices and one micro-credit for three two-decimal slots |
| Overdraft.NextIsCovered | app/api/v1/endpoints/chat.py:864-866 | every event keeps the balance above what the turns in flight may still charge, down to the floor |
| OverdraftReached.OverdraftBoundIsReached | app/services/billing.py:64-66 | for every k a run within all the assumptions ends exactly at -k*m |
| Handlers.InsertCheckoutRow | app/api/v1/endpoints/payments.py:134-149 | the insert on the database object takes exactly the checkout step |
| Handlers.HandleCheckoutCompleted | app/api/v1/endpoints/payments.py:184-255 | the webhook handler takes exactly the delivery step, errors and retry included |
| Handlers.VerifyRazorpayPayment | app/api/v1/endpoints/payments.py:317-387 | the verification handler takes exactly the verification step |
| Handlers.RunMediaJob | app/workers/tasks.py:41-288 | reservation, tasks, poller and refunds, carried out branch by branch, take exactly the job step |
| Handlers.RunChatTurn | app/api/v1/endpoints/chat.py:845-886 | the money steps of a turn, balance reading, budgets and the bookkeeping of each reply, are exactly the turn step |
| Pricing.PriceIsNearest | app/services/llm/models.py:350-359 | the rounding never meets a tie: the charge is the one micro-credit amount nearest to the exact price |
| Pricing.PriceIsMonotone | app/services/llm/models.py:350-359 | more tokens never cost less |
| Pricing.RegistryHasFiveCentPrices | app/services/llm/models.py:104-282 | every model that can be billed is priced in multiples of five cents |
| Pricing.FiveCentChargesAreExact | app/services/llm/models.py:350-359 | such charges are not rounded, and two charges add up to the charge for the tokens together |
| Pricing.CanonicalIds | app/services/llm/models.py:329-339 | the id a reply is stored under gives the same model and price again, whichever legacy name was used |
| Pricing.AliasesAreLive | app/services/llm/models.py:284-299 | every legacy name reaches a registered model |
| Pricing.TheServedModelIsBilled | app/api/v1/endpoints/chat.py:814-817 | a registered model that says it served the request is billed under its current name, anything else leaves the bill with the model asked |
| Pricing.PriceOfAMillionTokens | app/services/llm/models.py:104-282 | a million prompt tokens and a million output tokens cost the model's own two prices at four times the margin and ten credits to the dollar |
| TokenUsage.Usage.Record | app/services/llm/usage.py:23-35 | each count becomes the reported one, or stays when the report has none |
| TokenUsage.Usage.RecordAll | app/services/llm/usage.py:23-35 | after any stream of reports each count is the last one that was given |
| TokenUsage.Usage.EnsureValidity | app/services/llm/usage.py:37-46 | a missing count becomes the estimate of its text, a reported one stays |
| TokenUsage.BilledIsReportedOrEstimated | app/services/llm/usage.py:23-46 | the last positive report stands; without one a text is billed between one token and its length |
| TokenUsage.NoReplyIsFree | app/services/llm/usage.py:37-46 | a reply with text costs at least 50 micro-credits on every registered model, whatever is reported or left out, if the prompt has text or its last count is not negative |
| TokenUsage.ReplyIsFreeExactly | app/services/llm/usage.py:23-46 | a reply with text costs nothing if and only if the prompt has no text and a negative prompt count was recorded last that outweighs the billed reply |
| Affordability.HistoryChars | app/services/chat_service.py:192-200 | the loop adds up texts, text attachments and the flat charge of images |
| Affordability.AffordableIsExact | app/services/chat_service.py:158-189 | a reply length is affordable if and only if its exact price with the prompt fits the slot's share |
| Affordability.PlannedSlotFitsItsShare | app/services/chat_service.py:158-189 | a slot is refused if and only if its share cannot pay the prompt and the shortest reply; a planned slot can pay its cap, floor included |
| Affordability.CapIsTheLongestAffordableReply | app/services/chat_service.py:158-189 | below the effort and model limits one more token would exceed the share |
| Affordability.BudgetIsGreatest | app/services/chat_service.py:158-189 | the cap is the longest reply that the share pays for within the ceiling of the effort (4096 low, 16384 high, 8192 medium and any other word) and the model's limit, 512 if that is less; the prompt counts a token for every four characters begun and 64 more; the minimum is the price of the prompt with 512 tokens |
| Affordability.RefusalNamesTheMinimum | app/services/chat_service.py:170-180 | refused if and only if the share does not pay for the prompt and 512 tokens, with that price and the balance in the error |
| Affordability.PromptWeighs | app/services/chat_service.py:192-200 | every character of text and of a text file counts, every image for 4000 |
| Affordability.PlanSlots | app/api/v1/endpoints/chat.py:681-711 | the loop budgets every slot against the whole balance and stops at the first refusal |
| Affordability.PlanFirstGivesEachSlot | app/api/v1/endpoints/chat.py:681-711 | in a planned turn every slot has the budget it would get alone at its share |
| Affordability.PlannedTurnNeverOutspends | app/services/chat_service.py:158-189 | with usage within plan the rounded charges of a turn sum to at most the balance plus 2n/5, and at most the balance for registry prices |
| Affordability.ThreeSlotSlackIsReached | app/services/llm/models.py:350-359 | three slots on a one-cent model spend one micro-credit more than the balance |
| ChatSession.ProtocolMeans | app/api/v1/endpoints/chat.py:713-748 | a log that follows the turn grammar has each frame in its place: one opening, text only from open slots, one closing per slot, turn_done last |
| ChatSession.EveryRunFollowsTheProtocol | app/api/v1/endpoints/chat.py:713-843 | in every interleaving each frame of each turn has its place |
| ChatSession.EverySlotIsClosed | app/api/v1/endpoints/chat.py:772-843 | once a turn is over each of its slots has been closed, also when turn_done could not be sent |
| ChatSession.TurnsDoNotOverlap | app/api/v1/endpoints/chat.py:980-995 | when a later turn says its first word every slot of an earlier one has closed, and the earlier turn never speaks again |
| ChatSession.OneTurnInFlight | app/api/v1/endpoints/chat.py:500-529 | of all the turn tasks a session ever created at most the last is unfinished, although any unfinished task may step at any time |
| ChatSession.FiredMeansStopped | app/api/v1/endpoints/chat.py:523-529 | a turn's stop event is set only by a stop, a disconnect or a failed send while that turn is in flight |
| ChatSession.StopIsTurnLocal | app/api/v1/endpoints/chat.py:776-782 | a slot reported as interrupted belongs to a turn that was stopped itself |
| ChatSession.StopReachesEverySlot | app/api/v1/endpoints/chat.py:450-479 | after a stop every streaming slot of the turn can end at once as interrupted |
| ChatSession.NewTurnIsUnstopped | app/api/v1/endpoints/chat.py:523-525 | a new turn starts with an event that is not set |
| ChatSession.RepliesAreAccountedFor | app/api/v1/endpoints/chat.py:772-825 | a reply handed over for storage is not blank and is the provider's chunks from the first on; the client received all of it or all but the last chunk; a complete one is the whole stream and was received in full |
| ChatSession.FailedReplyCanBeAheadOfTheClient | app/api/v1/endpoints/chat.py:775-793 | the run in which a timeout strikes during a send: the reply is stored as failed with a chunk the client never got |
| ChatSession.OneReplyPerMessageDone | app/api/v1/endpoints/chat.py:803-886 | once a turn is over, a slot handed a reply over, one at most, if and only if it closed with message_done of the same finish reason, which carries a message id if and only if the insert was flushed |
| ReplyReach.ReplyIsHeardExactly | app/api/v1/endpoints/chat.py:775-793 | over every run the client received the whole of a reply handed over for storage, a failed one included, if and only if no send of text of its slot was lost |
| ReplyIds.IdsNameRowsExactly | app/api/v1/endpoints/chat.py:861-886 | over every joint run of a socket and the economy, a message_done with an id names a stored reply if and only if no commit of that slot was lost after the flush; one without an id comes with no stored reply |
| ReplyIds.BothSidesAgree | app/core/database.py:69-81 | over every joint run a reply row exists if and only if the bookkeeping of its slot committed, and the socket handed each reply over with the end its bookkeeping had |
| ReplyIds.AnIdCanNameNothing | app/api/v1/endpoints/chat.py:861-886 | the run: a whole reply and a message_done with an id, and nothing stored or charged, as the commit was lost |
| ChatSession.RunIsValid | app/api/v1/endpoints/chat.py:482-536 | the session invariant holds in every run |
| SessionOutcomes.EveryAnswerIsAsked | app/api/v1/endpoints/chat.py:970-995 | over every run a pong, busy, invalid_payload, stopped, turn_start or turn_done was sent if and only if it was asked for: by the client in that state of the loop, by a turn being prepared, by the last slot closing |
| SessionOutcomes.TurnsStartAndEndExactly | app/api/v1/endpoints/chat.py:523-748 | over every run there are as many turns as messages that came while none was in flight, and a turn is over if and only if it was refused or failed while being prepared, its turn_start was lost, or its last slot closed |
| SessionOutcomes.StopIsAnswered | app/api/v1/endpoints/chat.py:527-541 | a stop is answered when the turn is over or the grace has passed, and the loop receives again |
| SlotOutcomes.FiredExactly | app/api/v1/endpoints/chat.py:523-529 | over every run the stop event of a turn is set if and only if, while it was in flight, the client asked to stop, the socket went or a send failed |
| SlotOutcomes.FinishReasonsAreTrue | app/api/v1/endpoints/chat.py:772-799 | over every run a reply is stored as failed if and only if an exception ended its stream, as interrupted if and only if a lost send or a stop did, as complete if and only if it came to its end unstopped |
| SlotOutcomes.RepliesAreHandedExactly | app/api/v1/endpoints/chat.py:803-825 | once a turn is over each slot it opened has handed a reply over if and only if the text it sent or tried to send is not blank, whatever ended the stream, and the reply is that text |
| ChatSession.ChatSession.constructor | app/api/v1/endpoints/chat.py:485-498 | a new session has no turn in flight and satisfies the invariant |
| ChatSession.ChatSession.Start | app/api/v1/endpoints/chat.py:523-525 | a new task with a fresh stop event |
| ChatSession.ChatSession.Stop | app/api/v1/endpoints/chat.py:527-529 | the current event is set if a turn is in flight, otherwise nothing happens |
| ChatSession.ChatSession.Receive | app/api/v1/endpoints/chat.py:970-995 | one pass of the receive loop: ping, malformed, stop, busy, start, disconnect |
| ChatSession.ChatSession.Relay | app/api/v1/endpoints/chat.py:776-780 | the streaming loop in its two halves: append a chunk; when its send returns go on, or set the session event and leave |
| ChatSession.ChatSession.OpenOrEnd | app/api/v1/endpoints/chat.py:450-479 | opening a stream with the event of the session, and the ends of the loop: stop seen, stream over |
| ChatSession.ChatSession.Fail | app/api/v1/endpoints/chat.py:783-799 | an exception ends the slot as failed, also in the middle of a send |
| ChatSession.ChatSession.CloseSlot | app/api/v1/endpoints/chat.py:803-886 | a blank reply closes with error; any other is handed over once and closes with message_done, which has an id if and only if the insert was flushed, committed or not |
| ChatSession.ChatSession.AdvanceTurn | app/api/v1/endpoints/chat.py:543-748 | the steps of a turn around its slots: refusal, turn_start, turn_done |
| ChatSession.ChatSession.Handle | app/api/v1/endpoints/chat.py:482-752 | one event moves the session object exactly as the state machine says and keeps its invariant |
| ChatLog.TruncationIsPrefix | app/services/chat_service.py:86-97 | deleting from a message on leaves exactly the rows before it, parents intact |
| ChatLog.RegenerateIsPrefix | app/services/chat_service.py:109-121 | deleting the replies after the last user message leaves exactly the log up to it |
| ChatLog.LateRowsSurviveTruncation | app/services/chat_service.py:86-97 | rows committed between the two statements survive, those that answer any deleted message without their parent; the log is the prefix if and only if there were none |
| ChatLog.LateRowsSurviveRegenerate | app/services/chat_service.py:109-121 | the same of delete_replies_after, where late replies to surviving messages keep their parent |
| ChatLog.PromptIsMadeOfRows | app/services/chat_service.py:65-83 | for every log, a prompt is the messages of the sent rows, the non-empty rows of the window without a stored copy of the current message at its end, and then the current message |
| ChatLog.HistoryIsPicked | app/services/chat_service.py:65-83 | on the rows alone, from the turn's models: the history of a model is exactly the non-empty rows among the last n of its thread, in order; in an arena its thread is what the user wrote and what it answered itself, in a plain chat everything |
| ChatLog.PromptIsTheThread | app/services/chat_service.py:65-83 | hence every prompt: those rows with their roles and texts, the stored copy of the current message set apart, then the current message |
| ChatLog.RightRowsArePicked | app/services/chat_service.py:65-83 | the rows a prompt should be made of are picked in the same way from the log before the current message |
| ChatLog.PromptIsRightExactly | app/api/v1/endpoints/chat.py:648-679 | for every log and all rows that other sessions committed late, the sent rows are the non-empty rows of the last window of the thread before the current message if and only if the rows pushed out of that window are all empty, and the late rows of the thread are empty, or fill the window and come down to nothing or a repetition of the message |
| ChatLog.LateRowsSpoilThePrompt | app/api/v1/endpoints/chat.py:648-679 | right when nothing of the thread came late, wrong when a non-empty row did and the window had room |
| ChatLog.LateReplyRepeatsTheMessage | app/api/v1/endpoints/chat.py:676-679 | the instance: a late reply of another socket makes the current message appear twice |
| ChatLog.ResolvedExactly | app/api/v1/endpoints/chat.py:430-447 | the files sent are the staged contents of all the uploads, in order, if and only if every one is still staged |
| ChatLog.ResolveAttachments | app/api/v1/endpoints/chat.py:430-447 | the loop keeps exactly the staged files, in order |
| ChatLog.ChatTable.TruncateFrom | app/services/chat_service.py:86-97 | the table becomes the rows before the target, and the count removed is returned |
| ChatLog.ChatTable.LastUserMessage | app/services/chat_service.py:100-106 | the newest user message, or none if and only if there is none |
| ChatLog.ChatTable.DeleteRepliesAfter | app/services/chat_service.py:109-121 | the table becomes the rows up to the message, and the count removed is returned |
| ChatLog.ChatTable.BeginTurn | app/api/v1/endpoints/chat.py:593-645 | a new message is appended, an edit replaces its target and everything after it, a regenerate rewinds to the last user message, a refusal changes nothing; the log stays ordered and every surviving reply answers a surviving earlier message |
| ChatLog.ChatTable.PromptFor | app/api/v1/endpoints/chat.py:671-679 | loading a history and editing it in place gives the prompt the theorems speak of, for every log |
| ChatLog.ChatTable.Prompts | app/api/v1/endpoints/chat.py:648-679 | every model of the turn gets its own prompt, filtered by model in arena only, each from the log as it is at the time of its query |
| ChatLog.ChatTable.AddReply | app/api/v1/endpoints/chat.py:867-882 | a reply is stored if and only if the message it answers still exists, as the last row |
| Intake.RequestsTakeTheirCourse | app/api/v1/endpoints/chat.py:585-702 | every request on the rows alone: nothing to regenerate if and only if there is no user message, no credits if and only if the balance is not positive, a bad edit if and only if its target is no user message, all three leaving the log alone; any other turn goes on to its budgets and has appended, replaced from its target on, or cut to the last user message |
| Intake.UnpaidTurnKeepsTheLogExactly | app/api/v1/endpoints/chat.py:585-702 | a turn refused for lack of credits, at the gate or at a slot, leaves the log alone, apart from what others wrote, if and only if the balance is not positive or it is a regenerate of a log that ends with the user message |
| Intake.UnpaidEditHasTruncated | app/api/v1/endpoints/chat.py:624-702 | an edit refused at a slot leaves the rows before its target and the new message |
| Intake.AnUnpaidEditLosesTheChat | app/api/v1/endpoints/chat.py:624-702 | the instance: with one micro-credit left, editing the first of three messages is refused and has deleted the others |
| Intake.PromptsCarryTheMessage | app/api/v1/endpoints/chat.py:592-679 | from the request to every prompt: it ends with the current message and the files sent for it, which are the staged contents of all its attachments in order if and only if, on regenerate it has none, otherwise all are still staged |
| Intake.PromptsAreRightExactly | app/api/v1/endpoints/chat.py:648-679 | from the request to every prompt: the rows before the current message are the right ones if and only if the rows committed by the time of its query leave its thread undisturbed |
| Intake.EveryModelReadsItsThread | app/api/v1/endpoints/chat.py:648-679 | from the request to every prompt of a turn, on the rows alone: model i is sent its own thread and the current message, never the replies of the other models of an arena |
| Intake.EverySlotIsBudgeted | app/api/v1/endpoints/chat.py:681-711 | every slot is budgeted for its own model and its own prompt with an equal share of the balance, and a refused turn is refused at the first slot its share does not pay for |
| Intake.RunIntake | app/api/v1/endpoints/chat.py:549-702 | the gate, rewind, histories, files and budgets, carried out on the message table in the order of the source, give exactly the log and the outcome the theorems speak of |
| RateLimit.LimitPerLife | app/core/ratelimit.py:23-34 | between birth and end of a key at most the limit is allowed, and after a completed hit the key has a TTL, whoever died or doubled the expire |
| RateLimit.AllowedExactly | app/core/ratelimit.py:23-34 | over every run a hit is allowed if and only if it is among the first `limit` hits of the key's life |
| RateLimit.LivesEndOnTime | app/core/ratelimit.py:23-34 | once a key has its TTL and no expire is on its way, every hit counts, none moves the end, and at that moment the key is gone |
| RateLimit.TwiceTheLimitPerWindow | app/core/ratelimit.py:23-37 | any interval no longer than the window has at most twice the limit allowed hits |
| RateLimit.TwiceTheLimitIsReached | app/core/ratelimit.py:23-37 | the factor two is reached for every limit and every window |
| RateLimit.RedisKey.IncrAndTtl | app/core/ratelimit.py:25-30 | the atomic pipeline counts and reports whether the key has no TTL |
| RateLimit.RedisKey.SetExpiry | app/core/ratelimit.py:31-33 | the separate expire, a no-op on a key that has lapsed |
| RateLimit.RedisKey.HitKey | app/core/ratelimit.py:23-37 | an uninterrupted hit counts once, is allowed exactly up to the limit and returns the positive time left |
| ChatCache.CacheRefinesTheLog | app/core/redis.py:73-94 | in any interleaving of pushes, trims and drops, a read of up to twice the history limit is the end of the unbounded log |
| ChatCache.LongerReadsMissMessages | app/core/redis.py:73-81 | past twice the limit it is not |
| ChatCache.Cache.RPush | app/core/redis.py:73-81 | the payload is appended |
| ChatCache.Cache.LTrim | app/core/redis.py:73-81 | the last twice-the-limit payloads stay |
| ChatCache.Cache.Clear | app/core/redis.py:96-97 | list and log start again |
| ChatCache.Cache.GetHistory | app/core/redis.py:83-94 | the decoded end of the whole log, for every limit up to twice the history limit, the default when none or zero is given |
| ChatCache.DecodeAll | app/core/redis.py:83-94 | the loop skips exactly the malformed entries |
| ChatCache.PushedMessagesComeBack | app/core/redis.py:73-94 | the messages of the user and of the models decode one for one, role and text |
| UsageReport.GroupsAddUp | app/services/usage.py:25-31 | any answer of the group-by sums to the ungrouped total |
| UsageReport.ModelsAndDaysAgree | app/services/usage.py:79-124 | credits by model and by day sum to the same chat total, and messages by model to the message count |
| UsageReport.ByDay | app/services/usage.py:59-77 | the loop lists the points of the last days, oldest first, each with its bucket or zero |
| UsageReport.TotalIsPointsPlusPartialDay | app/services/usage.py:25-77 | for each of the four categories, the total is the sum of that category over the points the loop lists plus exactly the bucket of the partial day at now minus days |
| UsageReport.Recent | app/services/usage.py:126-229 | the append loops and the sort give at most twenty activities, newest first |
| UsageReport.BoundedMergeAgrees | app/services/usage.py:126-229 | the first m items are the m newest of all ledgers if and only if no query leaves one of them out |
| UsageReport.FirstFiveAreExact | app/services/usage.py:126-229 | the first five always are |
| UsageReport.SixthCanBeWrong | app/services/usage.py:126-229 | the sixth is not for any user with six newest images and an older reply |
| ClaudeTurns.SplitSystem | app/services/llm/base.py:88-115 | the platform prompt and every system text in order, apart from the other messages in order, none of them empty |
| ClaudeTurns.EveryItemIsKept | app/services/llm/base.py:88-115 | every system text is among the chunks and every other message with a text or a file in the conversation, a dictionary without a role as the user's |
| ClaudeTurns.BuildBlocks | app/services/llm/claude_adapter.py:48-72 | one block per attachment in order, then the text if there is one |
| ClaudeTurns.BlocksCarryTheMessage | app/services/llm/claude_adapter.py:48-72 | images as images with their own type or image/jpeg, text files as files, in order, and then the text |
| ClaudeTurns.MergeTurns | app/services/llm/claude_adapter.py:80-91 | turns strictly alternate, none is empty, and together they say exactly the blocks of the messages, in order and on the same sides |
| ClaudeTurns.EveryBlockIsSaid | app/services/llm/claude_adapter.py:80-91 | every block of every message is said, by the assistant for the roles assistant and ai, by the user otherwise |
| ClaudeTurns.MergedTurnsAreUnique | app/services/llm/claude_adapter.py:80-91 | only one list of turns has that property |

## Left out

- ChatSession.EveryRunFollowsTheProtocol: the notices (ready, pong, busy, stopped, chat_id, truncated, title) are not placed in the turn grammar; only turn_start, content, message_done, error and turn_done are.
- ChatSession.StopReachesEverySlot: the thirty seconds of grace of wait_for_turn are modelled as an end of the wait at any time.
- ReplyIds.IdsNameRowsExactly: socket and economy are joined at the bookkeeping of the replies; how a turn of the socket opens and how its process plans are not tied to each other.
- Handlers.RunChatTurn: the message log and the prompts of the turn are in Intake, its frames in ChatSession.
- ChatLog.PromptIsRightExactly: rows that other sessions commit late are taken to be newer than the current message; one with an older time stands among the rows before it, and rows they delete meanwhile are not modelled.
- Payments.VerifyStepIsSafe: signatures and gateway calls come before the modelled steps.
- Handlers.RunMediaJob: providers, storage and the broker are answers of the environment; the failure text of a video row is not kept. A worker killed by the hard time limit is an answer too; a task redelivered after its worker process was lost is not modelled, so neither are the further polls and refunds it could cause.
- UsageReport.Recent: activities without a creation time and ties in it are not ordered.
- UsageReport.TotalIsPointsPlusPartialDay: one reading of the clock for query and series.
- ClaudeTurns.SplitSystem: joining the system chunks with blank lines and stripping the result is string work.
- RateLimit.LimitPerLife: the fail-open branch for an unreachable Redis is not modelled.
- Provider SDKs, D-ID, speech and image services, S3, SMTP, login and password hashing: opaque libraries; a provider is any sequence of chunks with any usage report.
- The router's keyword scoring, title cleaning, file extraction and exports: string work; the chosen models are inputs.
- The 28-digit Decimal context and the float that carries a cost to the worker: amounts are exact integers here.
- Admin balance overwrites, account deletion, development top-ups: outside what the design promises.
- Media price formulas, minor currency units, catalogue shapes, pagination and access checks: easy members without depth.
- Cancelled tasks at shutdown: a turn ends by its own steps or before it streams.
