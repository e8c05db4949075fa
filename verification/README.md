# ServiceHub protocols, modelled and proved

ServiceHub is a marketplace backend. Its hard logic is a set of protocols over shared
rows: each protocol step is one database transaction under an advisory lock, with
crashes and payment-gateway calls between steps. This project models those protocols in
Dafny and proves what they keep over every run: any number of callers, in any
interleaving, with calls that stop anywhere.

`dafny verify dfyconfig.toml` checks the whole project.

## How it is built

Each protocol has the same layers. Functions on values say what one locked
transaction does (`None` is a thrown error, which rolls back). The `*Effects` modules tell on the
rows alone, with the amounts and times written out, exactly when each step is accepted and what it
leaves, in reachable states where that matters. Lemmas prove invariants of
every transaction and theorems over every run. A class holds the rows as fields and its
methods, written as the services are (fields reassigned, loops over rows), are proved
against the functions.

- **Case resolution and refunds** (one booking with its queue entry, refund, cases and
  staged decisions): `BookingRows`, `Transactions`, `TransactionShapes`, `Interleaving`
  (calls, their program points, steps and runs), `StepEffects`, `CallEffects`, `ResolutionInvariant`, the `*Steps`
  modules, `ResolutionSafety`, `ResolutionRuns`, `ClosingRuns` (main results), `PauseRestore`,
  `CrashRecovery`, `RetryFinishes`, `ReleaseInvariant`, `ReleaseSteps`, `ReleaseRecovery`,
  `EarlyRecovery` (crash recovery), `RefundSafety`, `DoublePayment`, `ConcreteRuns`, `CallOutcomes`, `ResolutionService`. A call
  keeps what it read outside a lock in its program point, so stale reads are part of the model; a crash is a call that is never advanced again.
- **Payments, offers and requests**: `MarketRows`, `MarketSteps`, `MarketInvariant`,
  `CaptureFate`, `MarketRuns`, `MarketEffects`, `RefundKeys` (main results), `MarketService`.
- **Paid work queue**: `WorkQueue`, `QueueRuns`, `QueueEffects` (main results), `QueueService`. The unique
  index is the precondition of a single write, so verifying the loop proves that no write collides.
- **Trust ledger**: `TrustLedger`, `TrustReversal`, `TrustRuns`, `TrustEffects` (main results), `TrustService`.
- **Membership**: `MonthTable`, `Calendar`, `MembershipPolicy`, `MembershipSteps`,
  `MembershipRuns`, `MembershipTotals`, `MembershipPeriods` (main results), `MembershipEffects`, `MembershipService`.
- **Lock order, paging, CAPTCHA**: `LockOrder`, `LockPlans`, `AccountLocking`, `MergedPaging`, `CaptchaWindow`.

## Assumptions

- The clock never runs backwards.
- The gateway is idempotent per key: a second refund request under the key of the same booking or
  attempt returns the first refund. The two keys of one payment are different to it.
- Lock keys are distinct (no hash collisions), and transactions under different locks that
  touch the same rows are serializable.
- Checks that depend on rows outside the model (who the actor is, whether accounts are
  eligible, text lengths, queue limits) are parameters of the steps, free to go either way.
- `FAILED_NONRETRYABLE`, `REMOVED` and legacy rows are never written by the modelled code and do not occur.

## What the proofs found

- The error path of a refund writes FAILED whatever it finds
  (src/services/payment-refund.service.ts:120-128). If the gateway accepted but its answer
  was lost, settlement is no longer refused and refunded money can be released as well:
  `ConcreteRuns.RefundedAndReleasedHappens`. That this write is
  the only way, and exactly when a refund stays visible, is
  `RefundSafety.RefundVisibleExactlyWhenTruthful`. Once the
  gateway has sent the money back, it can still be released exactly while the booking is not paused,
  whether or not the refund is on record as in progress, because any other caller's failed request
  rewrites that record: `DoublePayment.ReleaseStillPossibleExactly`.
- The seeker's settlement looks at refunds in progress but not at reserved decisions
  (src/services/bookings/completion.service.ts:72-90), so a reserved cancellation can be
  stranded for good: `ConcreteRuns.ConfirmationStrandsReservedCancellation`. The exact
  condition under which a retry finishes is `RetryFinishes.CanFinish`.
- The provider-error write of a payment attempt is not guarded by its status
  (src/services/payment-attempt.service.ts:302-305). Single fate holds exactly when that
  write spares attempts that have succeeded or are being refunded:
  `MarketRuns.SingleFateExactlyWhenSpared`; `MarketRuns.BookedAndRefundedHappens` is a failing run.
- A payment has two refund keys, its attempt's (src/services/payment-attempt.service.ts:633) and its
  booking's (src/services/payment-refund.service.ts:118), and nothing compares them. After that write
  one payment can be sent back twice: `RefundKeys.SentBackTwiceHappens`. Exactly which notices open
  the way is `RefundKeys.RefundedOnceExactlyUnlessTurned`; sparing runs never do
  (`RefundKeys.OneRefundPerPayment`).
- The claims of a completion decision and of a participant's approval do not look at other cases, their
  reservations do, so two claimed decisions can block each other without any crash:
  `EarlyRecovery.ClaimsBlockEachOther`. When an unreserved decision can be finished is
  `EarlyRecovery.EarlyRetryFinishesExactly`.
- The sibling check of a capture (src/services/payment-attempt.service.ts:512-524) can never fire:
  `MarketInvariant.NoCompetingSelection`.
- A late notice without a payment id orders a refund that has nothing to refund against, and later
  notices return early (src/services/payment-attempt.service.ts:430-445 and 609-612):
  `MarketRuns.UntraceableHappens`. In sparing runs every other capture is recovered by one repeated notice and one
  refund pass: `MarketRuns.CaptureRecovered`.
- The comment of src/services/booking-lifecycle.service.ts:6-9 puts the booking lock before every
  other. Several payment transactions take only a request lock first, which keeps the order; a
  provider accepting a booking takes the account lock before the booking lock
  (src/services/bookings/direct-bookings.service.ts:232-233), which does not. While its booking is
  reported it can wait in a circle: `LockPlans.AcceptanceStuckWithSafetyReport`. With whom exactly is
  `LockPlans.AcceptanceMeetsExactly`; `LockPlans.NoCircleWhenApart` says what keeps any number of
  transactions apart, and `LockPlans.ThreeStuckNoTwo` that looking at pairs does not.

## Model

| member | source | states |
|---|---|---|
| ResolutionRuns.AtMostOneDecisionHoldsTheMoney | src/services/case-resolution.service.ts:19-67 | Over every run (any number of callers, any interleaving, crashes, throws, lost gateway answers) at most one unfinished decision of any of the four kinds has reserved or moved the booking's money, and no report, cancellation or escalation but its own is then open |
| ResolutionRuns.OnlineMoneyFollowsTheBooking | src/services/payment-refund.service.ts:132-161 | Over every run an online booking is CANCELED exactly when its payment is REFUNDED and COMPLETED exactly when it is RELEASED; otherwise the money is still held |
| ResolutionRuns.HistoryOnlyMovesForward | src/services/admin-resolution-operation.service.ts:6-12 | Between any two moments of a run: terminal bookings never change, recorded outcome and penalty never change, stage ranks never fall, finished decisions and closed cases stay so, ledger and closures only grow |
| ResolutionRuns.RefundIsRecordedOnce | src/services/payment-refund.service.ts:145-179 | A REFUNDED booking has the gateway's refund id recorded, exactly one REFUND ledger row, and a cancelled queue entry; any other booking has no ledger row and no recorded id |
| ResolutionRuns.ClosedExactlyOnce | src/services/admin-report.service.ts:153-195 | A decision is COMPLETED exactly when it has a closure, has at most one, applied its recorded penalty or none, and a money-moving one has reached its booking state |
| ClosingRuns.ClosesAsRecorded | src/services/report-penalty-policy.ts:13-29 | Over every run a closure is added only by a call that finishes its decision, one at a time, with the booking where the decision wants it; it applies the recorded penalty, except that a report's penalty is dropped exactly when the account that call reads may not receive it |
| ClosingRuns.AloneCloses | src/services/admin-report.service.ts:110-209 | An undisturbed report call of any length adds no closure, or exactly the one of its decision with that penalty |
| ResolutionRuns.StepKeeps | src/services/booking-lifecycle.service.ts:11-16 | Every single step of every caller keeps the whole invariant of the booking's rows and moves them only forward |
| PauseRestore.PauseRoundTrip | src/services/case-resolution.service.ts:69-87 | For any cases opened and closed in any order during a pause, a booking that leaves the pause unsettled has exactly the booking and queue rows it had before the pause; then no report or cancellation is open and no decision holds the money |
| PauseRestore.StepPauses | src/services/safety-report.service.ts:61-70 | A step leaves a paused booking alone, ends it, or restores it; a step that pauses remembers exactly the status it found |
| ReleaseRecovery.RetryFinishesExactlyWhenItCan | src/services/admin-report.service.ts:110-209 | From every reachable state with a reserved, unfinished decision of any kind, to cancel or to release, one undisturbed retry brings the booking to the decided state and closes the decision exactly once with the right penalty, if and only if the penalty is not refused and, for a cancellation request, it is still open to its decider and its booking not settled otherwise |
| EarlyRecovery.EarlyRetryFinishesExactly | src/services/completion-escalation.service.ts:105-202 | From every reachable state with a decision on record that is unfinished and has reserved nothing, one undisturbed retry finishes it with exactly one closure, if and only if its case is open to it, its penalty is not refused, and, where money is to move, no other case is open |
| EarlyRecovery.ClaimsBlockEachOther | src/services/cancellation.service.ts:217-234 | A run after which a claimed completion refund and a claimed participant approval keep each other from reserving, so that no retry of either finishes |
| EarlyRecovery.EarlyReserve | src/services/cancellation.service.ts:56-73 | The reservation after an accepted claim is refused exactly when another case is open, and otherwise leaves the stated rows |
| RetryFinishes.RetryOutcome | src/services/cancellation.service.ts:217-267 | The same, step by step, for a cancelling decision in any good state with any sleeping calls |
| ReleaseRecovery.ReleaseRetryOutcome | src/services/completion-escalation.service.ts:105-178 | The same for a release to the provider: a retry fails only when the penalty is refused |
| ReleaseRecovery.ReportReleaseSettles | src/services/bookings/completion.service.ts:86-100 | While a report's release holds the money its dispute is open, no refund is in progress and the settlement goes through or has gone through |
| ReleaseRecovery.DirectReleaseSettles | src/services/bookings/completion.service.ts:86-100 | The same for a completion or direct release: the booking is under review for it with its payment held |
| ReleaseSteps.StepReleases | src/services/case-resolution.service.ts:19-67 | Every step of every caller keeps what a reserved release relies on: open disputes keep the booking disputed and frozen, refunds and reviews have an owner, and a cancellation request whose decision holds the money stays under review |
| RetryFinishes.NeverFinishes | src/services/report-penalty-policy.ts:13-29 | When the penalty is refused or the booking was settled otherwise, no solo run of the retry finishes the decision |
| RetryFinishes.RetriedReportFinishes | src/services/admin-report.service.ts:128-209 | The retry of a held report decision, alone from its claim on, carries the decision out |
| CrashRecovery.FromStart | src/services/admin-report.service.ts:141-153 | From wherever a retried claim puts the call, the remaining transactions all succeed and carry the cancelling decision out |
| CrashRecovery.FinalizeGoesThrough | src/services/admin-booking-resolution.service.ts:101-132 | With the booking cancelled, each kind's finalizing transaction succeeds and adds exactly one closure |
| DoublePayment.ReleaseStillPossibleExactly | src/services/bookings/completion.service.ts:72-100 | In every reachable state in which the gateway has sent the money back and the booking still holds it, some continuation also releases it to the provider, if and only if the booking is not paused |
| DoublePayment.NeverReleasedFrom | src/services/case-resolution.service.ts:69-87 | From a paused or cancelled booking with a refund on record, no run releases the money |
| DoublePayment.ReleasedFrom | src/services/payment-refund.service.ts:120-128 | Otherwise a run exists: a retry that cannot reach the gateway marks the refund failed, the job is finished and the seeker confirms |
| RefundSafety.RefundVisibleExactlyWhenTruthful | src/services/payment-refund.service.ts:120-130 | In every state of a run each refund accepted or in flight is visible to the settlement guard, if and only if FAILED is never written while one is; then money the gateway sent back is never released too |
| ConcreteRuns.CreatedExactly | src/services/payment-attempt.service.ts:529-566 | The runs start from exactly three kinds of rows: a paid and queued booking, a cash agreement accepted at once, or one waiting for the provider |
| ConcreteRuns.DismissalGivesTheBookingBack | src/services/admin-report.service.ts:154-195 | A run in which a safety report pauses a booking and its dismissal gives booking and queue rows back exactly |
| RefundSafety.UndisturbedRefundSucceeds | src/services/payment-refund.service.ts:31-195 | From every reachable state with money held, one undisturbed refund ends CANCELED and REFUNDED, with queue entry cancelled, refund id recorded and exactly one ledger row |
| ConcreteRuns.RefundedAndReleasedHappens | src/services/payment-refund.service.ts:120-128 | A run in which the gateway accepts, its answer is lost, FAILED is recorded, and the seeker's confirmation releases the refunded money |
| ConcreteRuns.ConfirmationStrandsReservedCancellation | src/services/bookings/completion.service.ts:72-90 | The seeker's confirmation is not refused while a cancellation is reserved: after it the reserved decision stays unfinished in every continuation |
| ConcreteRuns.CompletedStrandsCancelling | src/services/bookings/completion.service.ts:86-90 | In every continuation, a cancelling decision against a completed booking never passes the reserved stage |
| StepEffects.SafetyReportEffect | src/services/safety-report.service.ts:34-70 | A safety report is filed exactly when no refund runs, nobody reserves the money and the booking was taken on; a live booking then is DISPUTED, remembers its status and has held money frozen with its queue row |
| StepEffects.DisputeEffect | src/services/bookings/completion.service.ts:195-231 | A dispute is filed exactly on an awaited completion without open dispute, refund or reservation; it freezes the money and dismisses exactly the open escalations |
| StepEffects.RequestEffect | src/services/cancellation.service.ts:131-161 | A request is filed exactly when none is open and nobody reserves; before the start the booking is paused and an immediate cancellation begins, later the request waits |
| StepEffects.AnswerEffects | src/services/cancellation.service.ts:198-291 | Exactly when a request is declined or escalated and a completion escalation opened, and what that writes |
| StepEffects.StartEffect | src/services/bookings/provider-operations.service.ts:40-143 | A job starts exactly once, with no refund running, paid and waiting in the queue, or unpaid in cash |
| StepEffects.ConfirmEffect | src/services/bookings/completion.service.ts:72-140 | The seeker's confirmation settles exactly an awaited booking without running refund and resolves exactly the open escalations |
| CallEffects.NewReportDecision | src/services/admin-report.service.ts:115-139 | A new report decision is accepted exactly when it fits the open report, its penalty may be given and, to move money, no other case is open; it leaves one record, its report under review and its call at the stated point |
| CallEffects.NewCompletionDecision | src/services/completion-escalation.service.ts:105-132 | The same for a completion decision on an open escalation of an awaited booking |
| CallEffects.NewApproval | src/services/cancellation.service.ts:217-234 | The same for a participant's approval of an open request |
| CallEffects.NewCancellationDecision | src/services/cancellation.service.ts:306-328 | The same for an administrator's decision on an escalated request, with a fault only on an approved, started booking |
| CallEffects.NewAdminDecision | src/services/admin-booking-resolution.service.ts:45-91 | A direct decision is accepted and reserved at once exactly when the booking's stage and the ban allow it, no case is open and nobody reserves |
| CallEffects.TakenUpAgain | src/services/admin-resolution-operation.service.ts:20-89 | A repeated decision with other details is refused, a finished one left alone, and a reserved one whose effect is in the rows is marked established |
| CallEffects.ReportDecisionAgain | src/services/admin-report.service.ts:115-139 | A report decision under way goes on exactly with the same details, on an open report that still admits it unless the money was reserved, with no other case open until its effect is established; where its call goes on is stated |
| CallEffects.CompletionDecisionAgain | src/services/completion-escalation.service.ts:105-132 | The same for a completion decision, on an awaited booking, one its own reservation parked, or with the effect established |
| CallEffects.ApprovalAgain | src/services/cancellation.service.ts:217-234 | The same for a participant's approval while its request is open to participants |
| CallEffects.ReserveEffect | src/services/completion-escalation.service.ts:180-202 | A call reserves exactly when its case is under review and no other is open; a completion decision parks an awaited booking |
| CallEffects.ReportFinalizes | src/services/admin-report.service.ts:154-195 | A report decision closes exactly when its case is under review, its effect in the booking and its penalty not refused; the penalty takes effect when the account may receive it; without money moved, the booking comes back unless another case is open |
| CallEffects.CancellationFinalizes | src/services/cancellation.service.ts:339-361 | An administrator's approval closes with the fault found once the booking is cancelled and refunded; a denial gives the booking back unless another case is open |
| CallEffects.RestoreEffect | src/services/case-resolution.service.ts:69-87 | Restoring gives back exactly the remembered status with the money held again, and only when no report and no request is open |
| CallEffects.RefundReserveEffect | src/services/payment-refund.service.ts:62-107 | A recorded refund is resumed, a running one asked for again, held money newly reserved, and settled money refused |
| CallEffects.RefundFinalizeEffect | src/services/payment-refund.service.ts:132-185 | An accepted refund cancels and refunds booking and queue entry and records its id once, exactly while the money is held and unreleased |
| CaseSteps.OpenSafetyReportKeeps | src/services/safety-report.service.ts:34-70 | Filing a safety report keeps the invariant: it is refused while money is being moved, and pauses a live booking with its payment frozen |
| CaseSteps.OpenDisputeKeeps | src/services/bookings/completion.service.ts:195-231 | Filing a completion dispute keeps the invariant and closes open escalations |
| CaseSteps.OpenCancellationKeeps | src/services/cancellation.service.ts:131-161 | Requesting a cancellation keeps the invariant, before and after work has started |
| CaseSteps.DeclineCancellationKeeps | src/services/cancellation.service.ts:198-211 | Declining a request keeps the invariant |
| CaseSteps.EscalateCancellationKeeps | src/services/cancellation.service.ts:270-291 | Escalating a declined request opens its linked report and keeps the invariant |
| CaseSteps.OpenEscalationCaseKeeps | src/services/completion-escalation.service.ts:40-62 | Opening a completion escalation keeps the invariant |
| CaseSteps.StartReportReviewKeeps | src/services/admin-case-workspace.service.ts:146-159 | Taking a report under review, with its linked cancellation, keeps the invariant |
| CaseSteps.StartEscalationReviewKeeps | src/services/admin-case-workspace.service.ts:151-153 | Taking an escalation under review keeps the invariant |
| CaseSteps.StartJobKeeps | src/services/bookings/provider-operations.service.ts:40-143 | Starting a job keeps the invariant and never moves a paused or refunding booking |
| CaseSteps.MarkCompleteKeeps | src/services/bookings/completion.service.ts:25-55 | Marking a job complete keeps the invariant |
| CaseSteps.SeekerSettleKeeps | src/services/bookings/completion.service.ts:72-140 | The seeker's settlement keeps the invariant |
| DecisionSteps.AdminSettleKeeps | src/services/bookings/completion.service.ts:72-132 | Settlement for a reserved release decision keeps the invariant |
| DecisionSteps.MarkStageKeeps | src/services/admin-resolution-operation.service.ts:91-116 | Advancing a stage keeps the invariant, never backward |
| DecisionSteps.MarkFailedKeeps | src/services/admin-resolution-operation.service.ts:122-132 | Recording a failure keeps the invariant and never touches a finished decision |
| DecisionSteps.ReserveKeeps | src/services/cancellation.service.ts:56-73 | Reserving the money for a report, cancellation or escalation keeps mutual exclusion |
| DecisionSteps.OwnCaseExcludesOthers | src/services/case-resolution.service.ts:19-48 | A decision whose own case is open is the only one that can hold the money |
| ClaimSteps.BeginKeeps | src/services/admin-resolution-operation.service.ts:20-58 | Beginning or re-beginning a decision keeps the invariant and refuses different details |
| ClaimSteps.ReconcileKeeps | src/services/admin-resolution-operation.service.ts:66-89 | Adopting an effect that committed before its marker keeps the invariant |
| ClaimSteps.ClaimReportKeeps | src/services/admin-report.service.ts:115-139 | Claiming a report decision keeps the invariant |
| ClaimSteps.ClaimCompletionKeeps | src/services/completion-escalation.service.ts:105-132 | Claiming a completion decision keeps the invariant |
| ClaimSteps.ClaimByParticipantKeeps | src/services/cancellation.service.ts:217-234 | A participant's approval keeps the invariant |
| ClaimSteps.ClaimByAdminKeeps | src/services/cancellation.service.ts:306-328 | An administrator's claim of a cancellation keeps the invariant |
| ClaimSteps.ClaimAdminKeeps | src/services/admin-booking-resolution.service.ts:45-91 | A direct administrator decision claims and reserves in one transaction and keeps the invariant |
| RefundSteps.RefundReserveKeeps | src/services/payment-refund.service.ts:62-107 | Reserving a refund keeps the invariant |
| RefundSteps.RefundFinalizeKeeps | src/services/payment-refund.service.ts:132-185 | Finalizing a refund keeps the invariant: at most one ledger row, refund id recorded |
| RefundSteps.CancelCloseKeeps | src/services/cancellation.service.ts:91-109 | The closing transaction of a cancellation keeps the invariant and never drops held money |
| RefundSteps.ImmediateCloseKeeps | src/services/cancellation.service.ts:177-183 | Approving an immediate cancellation happens only on a cancelled booking |
| FinalizeSteps.RestoreKeeps | src/services/case-resolution.service.ts:69-87 | Restoring keeps the invariant when no decision holds the money |
| FinalizeSteps.NobodyHolds | src/services/case-resolution.service.ts:50-67 | While a decision that moves no money has its own case open, nobody holds the money, so a restore undoes no reservation |
| FinalizeSteps.FinalizeReportKeeps | src/services/admin-report.service.ts:154-195 | Finalizing a report decision keeps the invariant, restoring the booking where it may |
| FinalizeSteps.FinalizeCompletionKeeps | src/services/completion-escalation.service.ts:149-171 | Finalizing a completion decision keeps the invariant |
| FinalizeSteps.FinalizeByParticipantKeeps | src/services/cancellation.service.ts:245-258 | Finalizing a participant's approval keeps the invariant and closes the linked report |
| FinalizeSteps.FinalizeByAdminKeeps | src/services/cancellation.service.ts:339-361 | Finalizing an administrator's cancellation decision keeps the invariant |
| FinalizeSteps.FinalizeAdminKeeps | src/services/admin-booking-resolution.service.ts:101-132 | Finalizing a direct decision keeps the invariant |
| CallOutcomes.CarriedIsSolo | src/services/admin-report.service.ts:141-209 | Straight-line execution of a claimed report decision equals the call's solo run in the interleaved model |
| CallOutcomes.RefundIsSolo | src/services/payment-refund.service.ts:31-195 | Straight-line refund equals its solo run in the interleaved model |
| CallOutcomes.CancelIsSolo | src/services/cancellation.service.ts:75-129 | Straight-line cancellation equals its solo run in the interleaved model |
| ResolutionService.BookingStore.BeginResolution | src/services/admin-resolution-operation.service.ts:20-58 | In-place code proved against the transaction function |
| ResolutionService.BookingStore.MarkStage | src/services/admin-resolution-operation.service.ts:91-116 | In-place code proved against the transaction function |
| ResolutionService.BookingStore.MarkFailed | src/services/admin-resolution-operation.service.ts:122-132 | In-place code proved against the transaction function |
| ResolutionService.BookingStore.Reconcile | src/services/admin-resolution-operation.service.ts:66-89 | In-place code proved against the transaction function |
| ResolutionService.BookingStore.RestoreBooking | src/services/case-resolution.service.ts:69-87 | In-place code proved against the transaction function; true only when the remembered status came back |
| ResolutionService.BookingStore.RefundReserve | src/services/payment-refund.service.ts:62-107 | In-place code proved against the transaction function, and what it tells its caller |
| ResolutionService.BookingStore.RefundFinalize | src/services/payment-refund.service.ts:132-185 | In-place code proved against the transaction function |
| ResolutionService.BookingStore.RefundBookingPayment | src/services/payment-refund.service.ts:31-195 | The whole refund call leaves RefundCall's rows, which UndisturbedRefundSucceeds and RefundIsSolo are about |
| ResolutionService.BookingStore.CancelForDecision | src/services/cancellation.service.ts:75-110 | performImmediateCancel for a decision leaves CancelCall's rows |
| ResolutionService.BookingStore.CreateSafetyReport | src/services/safety-report.service.ts:34-70 | In-place code proved against the transaction function: a thrown check changes nothing |
| ResolutionService.BookingStore.RequestCancellation | src/services/cancellation.service.ts:131-161 | In-place code proved against the transaction function |
| ResolutionService.BookingStore.EscalateCancellation | src/services/cancellation.service.ts:270-291 | In-place code proved against the transaction function |
| ResolutionService.BookingStore.CreateEscalation | src/services/completion-escalation.service.ts:40-62 | In-place code proved against the transaction function |
| ResolutionService.BookingStore.ClaimByParticipant | src/services/cancellation.service.ts:217-234 | In-place code proved against the transaction function |
| ResolutionService.BookingStore.ClaimByAdmin | src/services/cancellation.service.ts:306-328 | In-place code proved against the transaction function, rolled back when a later check throws |
| ResolutionService.BookingStore.ReserveCancellation | src/services/cancellation.service.ts:56-73 | In-place code proved against the transaction function |
| ResolutionService.BookingStore.FinalizeByParticipant | src/services/cancellation.service.ts:245-258 | In-place code proved against the transaction function |
| ResolutionService.BookingStore.FinalizeByAdmin | src/services/cancellation.service.ts:339-361 | In-place code proved against the transaction function |
| ResolutionService.BookingStore.ClaimCompletion | src/services/completion-escalation.service.ts:105-132 | In-place code proved against the transaction function, rolled back when a later check throws |
| ResolutionService.BookingStore.ReserveCompletion | src/services/completion-escalation.service.ts:180-202 | In-place code proved against the transaction function |
| ResolutionService.BookingStore.FinalizeCompletion | src/services/completion-escalation.service.ts:149-171 | In-place code proved against the transaction function |
| ResolutionService.BookingStore.ReserveAdmin | src/services/admin-booking-resolution.service.ts:76-91 | The reserving half of a direct decision, proved against its function: case exclusion, then the booking put under review |
| ResolutionService.BookingStore.ReviewCancellation | src/services/cancellation.service.ts:323-328 | The second half of the administrator's claim: exclusion of other cases, then request and report under review |
| ResolutionService.BookingStore.ClaimAdmin | src/services/admin-booking-resolution.service.ts:45-91 | In-place code proved against the transaction function, rolled back when a later check throws |
| ResolutionService.BookingStore.FinalizeAdmin | src/services/admin-booking-resolution.service.ts:101-132 | In-place code proved against the transaction function |
| ResolutionService.BookingStore.ClaimReport | src/services/admin-report.service.ts:115-139 | In-place code proved against the transaction function, rolled back as one when a check throws |
| ResolutionService.BookingStore.ReserveReport | src/services/admin-report.service.ts:94-108 | In-place code proved against the transaction function |
| ResolutionService.BookingStore.FinalizeReport | src/services/admin-report.service.ts:154-195 | In-place code proved against the transaction function; the closure it adds applies the penalty exactly when the account may receive it |
| ResolutionService.BookingStore.ResolveReport | src/services/admin-report.service.ts:110-209 | The whole call leaves what the model's solo run leaves; it adds one closure, with the penalty the account may receive, exactly when it finishes the decision; repeating a held cancelling decision carries it out whenever the gateway accepts and the penalty is not refused |
| MarketRuns.RequestFollowsItsOffers | src/services/payment-attempt.service.ts:47-59 | Over every run a request is PAYMENT_PENDING exactly when one of its offers is held, at most one offer per request is held or accepted, and an OPEN or ADMIN_REMOVED request has none |
| MarketRuns.OneAcceptanceEver | src/services/offer-selection-notifications.service.ts:4-36 | At most one offer per request is ever accepted, however far apart in a run |
| MarketRuns.OneBookingPerOffer | src/services/payment-attempt.service.ts:529-578 | An offer is accepted exactly when it has a booking, has at most one, and its request's status mirrors the booking's progress |
| MarketRuns.PaidBookingsQueuedOnce | src/services/payment-attempt.service.ts:552-566 | Bookings and queue rows are never taken back; each paid booking has exactly one queue row and its payment belongs to no other booking |
| MarketRuns.SingleFateExactlyWhenSpared | src/services/payment-attempt.service.ts:298-308 | In every state of a run an attempt owns a booking exactly while SUCCEEDED and refunds go only to attempts owed one, if and only if the provider-error write never hits an attempt that has succeeded or is being refunded |
| MarketRuns.NeverBookedAndRefunded | src/services/payment-attempt.service.ts:609-647 | Then no capture is both booked and sent back, and REFUNDED means the gateway sent it back |
| MarketRuns.DecidedCaptureStays | src/services/payment-attempt.service.ts:425-429 | Then finalizing a capture whose fate is decided changes nothing, however late or often |
| MarketRuns.CaptureRecovered | src/services/payment-attempt.service.ts:399-440 | Captured money is never forgotten: from every state a sparing run reaches, one undisturbed repeated notice and one refund pass leave the attempt SUCCEEDED with its booking or REFUNDED with the money sent back, if and only if its refund had not been ordered by a notice without a payment id |
| MarketRuns.UntraceableHappens | src/services/payment-attempt.service.ts:609-612 | A run whose late notice carries no payment id and leaves a debt that no later notice and pass settle |
| RefundKeys.OneRefundPerPayment | src/services/payment-refund.service.ts:109-119 | Over a whole run in which the provider-error write spares decided attempts, a captured payment is sent back under at most one of its two idempotency keys, and by the one refund first accepted |
| RefundKeys.RefundedOnceExactlyUnlessTurned | src/services/payment-attempt.service.ts:428-429 | In every state of a run the refund passes of an attempt and of its booking cannot both send the payment back, if and only if no notice slips past the early returns to order the refund of a payment whose booking holds or returns the money, or to book one whose refund has begun |
| RefundKeys.SecondRefundAheadExactly | src/services/payment-attempt.service.ts:629-634 | From any state of any run, some continuation without such a notice sends the payment back under two keys, if and only if it is owed twice already |
| RefundKeys.BothPassesExactly | src/services/payment-attempt.service.ts:609-634 | Owed twice means exactly that one undisturbed refund pass of the attempt and one of its booking send the payment back under both keys |
| RefundKeys.StepStaysTraced | src/services/payment-refund.service.ts:62-119 | Every refund at the gateway was begun by the service and names the payment its key belongs to |
| RefundKeys.SentBackTwiceHappens | src/services/payment-refund.service.ts:109-119 | The run of a late provider error and a repeated notice, extended by the booking's own refund: one payment, two keys, two refunds |
| MarketRuns.BookedAndRefundedHappens | src/services/payment-attempt.service.ts:302-305 | A run in which a late provider error on a SUCCEEDED attempt leads to a refund of money whose booking is live |
| MarketRuns.DeletableExactly | src/lib/request-deletion.ts:6-26 | In every reachable state the deletion rules come down to: the request is OPEN and none of its offers has a pending, settled or refundable payment |
| MarketEffects.NoticeOutcome | src/services/payment-attempt.service.ts:411-580 | In every reachable state a notice with matching metadata on an undecided attempt books exactly when it is in time and fit, the purchase was not made yet and, for an offer, it is held on a request of the same seeker: one new live booking of that seeker and attempt, queued last, the offer accepted, pending siblings rejected, the request in progress; otherwise it orders the refund |
| MarketEffects.OfferIsBought | src/services/payment-attempt.service.ts:506-578 | A run of a request, an offer, a checkout and a notice in time that ends with the offer accepted and booked |
| MarketEffects.CheckoutInOrder | src/services/payment-attempt.service.ts:97-249 | A checkout expires the purchase's overdue attempts and lets their hold go; it hands out a pending one, or places a new one with its hold exactly when the purchase is allowed, not made yet and the offer free for the seeker; otherwise nothing changes |
| MarketEffects.AttemptGivenUp | src/services/payment-attempt.service.ts:353-390 | A failure notice ends exactly a pending attempt with an intent, an expiry exactly one whose time is over, and its hold is let go |
| MarketEffects.RequestEnds | src/lib/request-deletion.ts:6-26 | In every reachable state a request is deleted exactly when it is open and no payment is in the way, and removed exactly when neither a booking nor a payment is; its pending offers are rejected |
| MarketEffects.DeletionReason | src/lib/request-deletion.ts:6-26 | In every reachable state the reason given for refusing a deletion follows from finished bookings, the request's status and its payments |
| MarketEffects.OfferSteps | src/services/offers.service.ts:21-281 | In every reachable state an offer is submitted exactly on an open request without a standing offer of that provider, and withdrawn or declined exactly while pending on an open one |
| MarketInvariant.StepKeeps | src/services/payment-attempt.service.ts:399-593 | Every step of every caller keeps offers, requests, bookings and queue rows in lockstep and takes nothing back |
| MarketInvariant.InitiateKeeps | src/services/payment-attempt.service.ts:97-249 | Preparing a payment, with its sweep of stale attempts and its hold, keeps the lockstep |
| MarketInvariant.FinalizeKeeps | src/services/payment-attempt.service.ts:411-580 | Finalizing a capture keeps the lockstep in every branch |
| MarketInvariant.NoCompetingSelection | src/services/payment-attempt.service.ts:512-524 | The sibling check of a capture never fires: a held offer is its request's only selection |
| MarketInvariant.ReleaseKeeps | src/services/payment-attempt.service.ts:47-59 | Letting a hold go keeps the lockstep |
| MarketInvariant.SubmitKeeps | src/services/offers.service.ts:21-106 | Submitting an offer keeps the lockstep |
| MarketInvariant.RejectKeeps | src/services/offers.service.ts:248-281 | Withdrawing or declining an offer keeps the lockstep |
| MarketInvariant.RequestStepKeeps | src/services/requests.service.ts:262-389 | Posting, pausing, reopening, deleting, removing, restoring and declining a request keep the lockstep |
| MarketInvariant.WithdrawnRequestKeeps | src/services/public-content-actions.service.ts:47-51 | Removing a request with its pending offers keeps the lockstep |
| MarketInvariant.OpenHasNoSelection | src/services/requests.service.ts:276-292 | A request that may be reopened, removed or restored has no held or accepted offer |
| MarketInvariant.AcceptKeeps | src/services/bookings/direct-bookings.service.ts:458-495 | Accepting an offer, rejecting its siblings and booking it keep the lockstep |
| MarketInvariant.EndDealKeeps | src/services/cancellation.service.ts:101-109 | Ending a booking and writing its request keep the lockstep |
| CaptureFate.StepKeepsFate | src/services/payment-attempt.service.ts:298-308 | One step keeps single fate exactly when it is not a provider-error write on a decided attempt |
| MarketService.MarketStore.ReleaseHold | src/services/payment-attempt.service.ts:47-59 | In-place code proved against the transaction function |
| MarketService.MarketStore.ExpireAttempt | src/services/payment-attempt.service.ts:382-390 | In-place code proved against the transaction function; true exactly for a stale pending attempt |
| MarketService.MarketStore.ExpireStale | src/services/payment-attempt.service.ts:371-397 | The sweep's loop leaves the fold of its single expiries |
| MarketService.SweepLeavesNoneStale | src/services/payment-attempt.service.ts:371-397 | After the sweep none of its candidates is still pending past its time |
| MarketService.MarketStore.ExpireFor | src/services/payment-attempt.service.ts:105-118 | The loop over a purchase's stale attempts, proved against its closed form |
| MarketService.MarketStore.Initiate | src/services/payment-attempt.service.ts:97-249 | In-place code proved against the transaction function, sweep rolled back on a throw |
| MarketService.MarketStore.RejectSiblings | src/services/offer-selection-notifications.service.ts:4-36 | The loop rejects exactly the other pending offers and returns them |
| MarketService.MarketStore.MarkAttemptFailed | src/services/payment-attempt.service.ts:353-369 | In-place code proved against the transaction function |
| MarketService.MarketStore.FinalizeCapture | src/services/payment-attempt.service.ts:411-580 | In-place code proved against the transaction function, whose outcome NoticeOutcome states on the rows |
| QueueService.PaidQueue.Recalculate | src/services/queue.service.ts:24-66 | Given distinct positions and a serving row lowest, no single write of the in-place loop collides with an active row, the rows end as Reindexed says, and every wait is the stated number of minutes |
| QueueService.PaidQueue.Write | src/services/queue.service.ts:48-57 | One update; its precondition is the unique index |
| QueueService.NextPlaceVacant | src/services/queue.service.ts:50-57 | While an entry is being placed nobody else stands where it goes |
| QueueService.PaidQueue.Enqueue | src/services/payment-attempt.service.ts:473-571 | Joining at the end, then reindexing |
| QueueService.PaidQueue.Start | src/services/bookings/provider-operations.service.ts:117-151 | Starting the first waiting entry, then reindexing |
| QueueService.PaidQueue.Complete | src/services/bookings/completion.service.ts:48-52 | Finishing the served entry, then reindexing |
| QueueService.PaidQueue.Cancel | src/services/payment-refund.service.ts:158-183 | Cancelling an entry, then reindexing |
| WorkQueue.ListingSorts | src/services/queue.service.ts:40-44 | The listing holds exactly the waiting rows, each once, in the query's order |
| WorkQueue.CompressDownward | src/services/queue.service.ts:50 | Under the index positions only compress downward |
| QueueEffects.WaitsOnTheRows | src/services/queue.service.ts:46-65 | After every accepted step of every run the served row stands first and waits for nothing; the first in line waits the served row's estimate, or with nobody served the cash job's, or nothing; each next row waits the previous row's estimate longer, or an hour without one, and no position is left out |
| QueueEffects.ReindexingInLine | src/services/queue.service.ts:24-66 | The same for reindexing any rows of which at most one is served; bookings and statuses stay |
| QueueEffects.StepsMove | src/services/bookings/provider-operations.service.ts:117-151 | Over every run only the first in line starts, only when nobody is served; only a served row finishes, only an active one is dropped, and a payment joins at the end |
| QueueRuns.OrderKept | src/services/queue.service.ts:40-57 | Reindexing keeps the order of the waiting rows and who is served |
| QueueRuns.ReindexingTidies | src/services/queue.service.ts:46-65 | Positions are contiguous from the front and each wait is the sum of the work ahead |
| QueueRuns.ReindexingTwice | src/services/queue.service.ts:24-66 | Reindexing is a fixed point of itself |
| QueueRuns.NeverMovedBack | src/services/queue.service.ts:50-57 | No row's position rises |
| QueueRuns.FirstComeFirstServed | src/services/bookings/provider-operations.service.ts:117-131 | Over every run of joining, starting, finishing and cancelling, rows stand in order of joining, packed, with at most one served, and only the longest waiting can start |
| QueueRuns.PositionsNeverRise | src/services/queue.service.ts:50-57 | Over every run a position never rises |
| QueueRuns.WaitsAreSums | src/services/queue.service.ts:46-65 | After every accepted step of every run each wait is exactly the sum of the work ahead |
| TrustReversal.ReversalBound | src/services/trust.service.ts:52-58 | For any requested changes between a change and its reversal, the clamped result is never on the wrong side of the score without the change, and at most the recorded change beyond it, for penalties and awards |
| TrustReversal.FoldKeepsDistance | src/services/trust.service.ts:52 | Clamped changes keep order and never bring two scores further apart |
| TrustRuns.ReversalRestores | src/controllers/trust-cases.controller.ts:83-94 | The same bound for every reversal in every reachable ledger, against replaying the requests in between without the reversed event |
| TrustRuns.ScoresAreSums | src/services/trust.service.ts:52-58 | Over every run scores stay in 0..100 and equal the start plus the sum of recorded changes |
| TrustRuns.RecordedOnce | src/services/trust.service.ts:38-50 | Over every run no key, no reversal and no booking penalty is recorded twice, and a reversal takes back exactly what an earlier original event of the same user recorded |
| TrustRuns.RewardsAreSpaced | src/services/trust-policy.service.ts:25-34 | Over every run two standing rewards for one pair on different bookings are at least seven days apart, even when one side is rewarded late |
| TrustRuns.RewardsSpan | src/services/trust-policy.service.ts:4-34 | n rewarded bookings of a pair span at least 7(n-1) days |
| TrustEffects.EventsAreLawful | src/services/trust-policy.service.ts:4-68 | Over every run: a booking's penalty is given to a party of it by an administrator who is none, with a documented reason, and costs exactly 10 points for a report and 5 for a cancellation, down to 0; a completion brings a party exactly 3, up to 100; a reversal asks for exactly what was recorded |
| TrustEffects.PenaltyEffect | src/services/trust-policy.service.ts:47-68 | Exactly when a booking punishes a user, by how much, and that a second penalty changes nothing |
| TrustEffects.AwardEffect | src/services/trust-policy.service.ts:4-45 | Exactly which participants of a completed booking are rewarded: none within seven days of a standing reward of the pair for another booking, nobody with a standing penalty, once per booking and side |
| TrustEffects.CorrectionEffect | src/services/trust.service.ts:107-141 | Exactly when a correction is refused, is a repetition, or takes back the recorded change |
| TrustEffects.AppealEffect | src/controllers/trust-cases.controller.ts:83-94 | An upheld appeal takes a penalty back once, whoever asks, by an administrator who is not the user |
| TrustRuns.ApplyKeeps | src/services/trust.service.ts:21-84 | Every trust event keeps the ledger chained, keyed, timed and spaced |
| TrustRuns.AwardKeeps | src/services/trust-policy.service.ts:9-45 | Rewarding a booking's participants keeps the ledger's invariant |
| TrustRuns.PenalizeKeeps | src/services/trust-policy.service.ts:47-68 | A booking penalty keeps the ledger's invariant; its amounts are EventsAreLawful's |
| TrustRuns.CorrectKeeps | src/services/trust.service.ts:107-141 | A manual correction keeps the ledger's invariant |
| TrustRuns.AppealKeeps | src/controllers/trust-cases.controller.ts:83-94 | An upheld appeal keeps the ledger's invariant |
| TrustService.TrustStore.ApplyEvent | src/services/trust.service.ts:21-84 | In-place code proved against Apply; applied exactly when the key is new |
| TrustService.TrustStore.CorrectEvent | src/services/trust.service.ts:107-141 | In-place code proved against Correct |
| TrustService.TrustStore.AwardCompletion | src/services/trust-policy.service.ts:9-45 | The loop over the two participants proved against Award, rolled back on a throw |
| MembershipRuns.NeverTwoPending | src/services/subscriptions.service.ts:104-117 | Over every run a provider never has two PENDING payments |
| MembershipRuns.AppliedOnceOrRefunded | src/services/subscriptions.service.ts:164-188 | Over every run a payment is applied at most once, stays applied, and is never refunded as well |
| MembershipRuns.PaymentRecovered | src/services/subscriptions.service.ts:191-212 | From every reachable state one undisturbed notice and one refund pass leave a payment applied exactly once when it can be applied, otherwise REFUNDED once the gateway reports the refund as final, and REFUND_REQUIRED exactly until then |
| MembershipPeriods.PeriodsAreCalendarMonths | src/services/subscriptions.service.ts:170-184 | Over every run the period of an applied payment runs to the same Philippine time of day in the next Gregorian month, on the same date or that month's last; an upgrade is to Pro over the period of an applied Basic payment |
| MembershipPeriods.DayNumbers | src/services/subscription-policy.ts:62-70 | Day 0 is 1 January 1970, and every month has its Gregorian number of days |
| MembershipEffects.CaptureEffect | src/services/subscriptions.service.ts:161-188 | A captured payment takes effect exactly when it was not cancelled or decided, the membership is the one it was quoted for, and it upgrades the running Basic period or finds none running; then plan, period from now and listings are as stated, otherwise a refund is due |
| MembershipEffects.CheckoutEffect | src/services/subscriptions.service.ts:96-117 | Exactly when a checkout is refused, handed out again, taken up again or newly made, and on whose terms |
| MembershipEffects.QuoteEffect | src/services/subscription-policy.ts:72-90 | The quote of every plan at every moment: full price 99 or 199 pesos, the unused share of the difference rounded half up for an upgrade, refused below one peso |
| MembershipEffects.EditEffect | src/services/services.service.ts:334-453 | What an edit does to a listing of each status, and when it may go on show |
| MembershipEffects.ToggleEffect | src/services/services.service.ts:455-471 | A listing on show is paused, any other resumed exactly when the plan has room besides it |
| MembershipRuns.PaidPeriodsNeverOverlap | src/services/subscriptions.service.ts:167-184 | Over every run periods started by different payments never overlap, despite expired, cancelled or late captures |
| MembershipRuns.ListingCapKept | src/services/subscription-policy.ts:55-61 | Over every run at most one listing is ACTIVE on the free plan and at most three on Basic |
| MembershipRuns.BasicKeepsTheOldest | src/services/subscriptions.service.ts:179-183 | A move to Basic keeps exactly the three oldest published listings on show and leaves every other listing as it was |
| MembershipRuns.OrderExists | src/services/subscriptions.service.ts:181 | The oldest-first listing a capture reads always exists |
| MembershipRuns.CaptureKeeps | src/services/subscriptions.service.ts:161-188 | Finalizing a membership payment keeps the invariant in every branch |
| MembershipRuns.ListingStepKeeps | src/services/services.service.ts:246-471 | Creating, editing, pausing, resuming, deleting, removing and restoring a listing keep the cap |
| MembershipRuns.PaymentStepKeeps | src/services/subscriptions.service.ts:93-117 | Quoting, checking out, closing a checkout and refunding keep the invariant |
| MembershipRuns.MemberStepKeeps | src/services/provider-membership.service.ts:8-77 | Trial, cancellation at the end of the period and upkeep keep the invariant |
| MembershipService.ProviderStore.Checkout | src/services/subscriptions.service.ts:96-117 | In-place code proved against the transaction function |
| MembershipService.ProviderStore.FinalizePayment | src/services/subscriptions.service.ts:161-188 | In-place code proved against the transaction function, whose outcome CaptureEffect states on the rows |
| MembershipService.ProviderStore.PauseAll | src/services/subscriptions.service.ts:182 | The loop hides exactly the excess listings |
| MembershipService.ProviderStore.ToggleListing | src/services/services.service.ts:455-471 | In-place code proved against the transaction function |
| MembershipTotals.PeriodNeverCostsMoreThanPro | src/services/subscriptions.service.ts:96-117 | Over every run the payments applied to one paid period never total more than a Pro month, whichever signed quotes they were charged from, and a Basic period no more than a Basic month |
| MembershipTotals.QuotesAreFair | src/services/subscription-policy.ts:72-90 | Every quote is the full price of its plan, or an upgrade to Pro that with a Basic month costs at most a Pro month |
| MembershipPolicy.UpgradeNeverCostsMore | src/services/subscription-policy.ts:77-86 | A Basic month plus any upgrade quote within it never totals more than a Pro month, and is at least one peso |
| MembershipPolicy.UpgradePriceIsTheShare | src/services/subscription-policy.ts:80-81 | The quote is the exact unused share of the price difference, off by at most half a centavo |
| MembershipPolicy.UpgradeGetsCheaper | src/services/subscription-policy.ts:78-81 | Waiting never makes an upgrade dearer |
| MonthTable.AddMonth | src/services/subscription-policy.ts:65-68 | The date, mutated step by step, ends on MonthEnd's day at the same time of day |
| MonthTable.OneCalendarMonthFrom | src/services/subscription-policy.ts:63-70 | The whole function returns MonthFrom of its argument |
| MonthTable.MonthEndMonotone | src/services/subscription-policy.ts:63-70 | A later start day never ends on an earlier day |
| MonthTable.MonthEndBounds | src/services/subscription-policy.ts:66-68 | A month ends 28 to 31 days later, in the next month, on the same date or that month's last |
| Calendar.PhilippineMonth | src/services/subscription-policy.ts:62-70 | For every instant: 28 to 31 days, same Philippine local time, next Gregorian month, date min(day, last day) |
| Calendar.GregorianLength | src/services/subscription-policy.ts:67 | The day numbers of section 21.4.1 of ECMA-262 give each month its Gregorian length |
| LockOrder.CircleExactlyWhenInterlocked | src/services/account-lifecycle.service.ts:3-9 | Transactions with any given lock programs can wait for each other in a circle if and only if the programs can be cut so that the parts before the cuts are disjoint and each asks next for a lock before the next one's cut |
| LockOrder.MutualWaitExactly | src/services/account-lifecycle.service.ts:3-9 | The same for two transactions: a mutual wait is reachable if and only if there are such places in both programs |
| LockOrder.NoWaitsForCycle | src/services/account-lifecycle.service.ts:3-9 | No run of any number of transactions whose programs are in order reaches a circle of waits |
| LockOrder.SomeoneCanGoOn | src/services/account-lifecycle.service.ts:3-9 | Whenever one of them is unfinished, some unfinished one is not blocked |
| LockPlans.PlansAreInOrder | src/services/payment-attempt.service.ts:415-423 | Booking, request, one sorted account batch (later ones only retaking), then later classes in order: every such plan is in order |
| LockPlans.ServicesAreProper | src/services/payment-attempt.service.ts:98-103 | The lock programs of seventeen service transactions, over all thirteen modelled classes, are such plans |
| LockPlans.AccountsHeld | src/services/payment-attempt.service.ts:98-103 | For each of the seventeen transactions, exactly whose accounts it holds when it is through |
| LockPlans.BookingsAndQueuesHeld | src/services/payment-refund.service.ts:62-66 | For each of them, exactly which booking and which provider's queue |
| LockPlans.AcceptanceStuckWithSafetyReport | src/services/bookings/direct-bookings.service.ts:231-234 | For every booking, provider and seeker there is a run in which the provider's acceptance and a safety report on the booking wait for each other |
| LockPlans.AcceptanceMeetsExactly | src/services/bookings/direct-bookings.service.ts:231-234 | An acceptance and a plan can wait for each other if and only if the plan locks the same booking and the provider's account |
| LockPlans.AcceptancesNeverMeet | src/services/bookings/direct-bookings.service.ts:231-234 | Two acceptances never wait for each other alone |
| LockPlans.CirclePassesAnAcceptance | src/services/bookings/direct-bookings.service.ts:231-234 | Over every run of any number of plans and acceptances, every circle of waits passes an acceptance that asks for its booking while the one before it asks for its provider's account |
| LockPlans.NoCircleWhenApart | src/services/bookings/direct-bookings.service.ts:231-234 | While no unfinished transaction locks a booking that another one is waiting to accept, there is no circle of waits and an unfinished transaction can go on |
| LockPlans.ThreeStuckNoTwo | src/services/report-penalty-policy.ts:12-15 | An acceptance, a penalty for its seeker and an offer of its provider can be stuck together although no two of them can |
| LockPlans.SortedIdsFit | src/services/account-lifecycle.service.ts:6 | The batch is strictly increasing and holds exactly the ids given |
| AccountLocking.LockLog.LockAccountLifecycle | src/services/account-lifecycle.service.ts:5-9 | The loop takes exactly the sorted distinct account locks |
| MergedPaging.PageIsSliceOfAll | src/services/content-workspace.service.ts:36-53 | For every page and limit, sorting the two prefixes and slicing equals the same slice of the fully sorted union |
| MergedPaging.PageRows | src/services/content-workspace.service.ts:36-53 | A page holds exactly the next rows of the union of both sources, latest first then by id, as many as the limit or as are left |
| MergedPaging.PagesPartition | src/services/content-workspace.service.ts:36-53 | Successive pages put together are the sorted union up to there |
| MergedPaging.AllPagesHoldEverything | src/services/content-workspace.service.ts:36-53 | Pages that cover the total hold every row of both sources exactly once, in order |
| MergedPaging.SortIsMerge | src/services/content-workspace.service.ts:49 | Sorting the combined rows is merging the two sorted sources |
| CaptchaWindow.ChallengedToTheEnd | src/lib/captcha.ts:58-83 | A key without a live entry that fails at t1 and twice more within 15 minutes without success is challenged until t1 + 15 minutes, whatever other keys do and whatever the capacity |
| CaptchaWindow.ChallengedExactly | src/lib/captcha.ts:58-83 | As long as there was room for every failure, a key is challenged if and only if its fifteen-minute window is open with three failures in it, counted from the failure that opened it and forgotten by a success |
| CaptchaWindow.FailureEffect | src/lib/captcha.ts:72-83 | A failure counts in the live entry up to three, opens an entry where there is room, and otherwise challenges everyone for fifteen minutes |
| CaptchaWindow.TableStaysBounded | src/lib/captcha.ts:80-82 | The table never exceeds its maximum |
| CaptchaWindow.LiveEntryKept | src/lib/captcha.ts:71-82 | A live entry is forgotten only by its own key's success; else its expiry stays and its count never falls |
| CaptchaWindow.CaptchaProtection.Purge | src/lib/captcha.ts:80 | The purge loop leaves exactly the live entries |
| CaptchaWindow.UnsolvedIsTurnedAway | src/lib/captcha.ts:89-110 | After three failures within the window no login of that key without a solved challenge reaches the password check or moves the table until the window closes |
| CaptchaWindow.CaptchaProtection.PasswordLogin | src/lib/captcha.ts:89-110 | A whole login attempt in place, proved against Login: the challenge first, the bookkeeping by the answer's status |
| CaptchaWindow.CaptchaProtection.RecordFailure | src/lib/captcha.ts:72-83 | In-place code proved against Failed |

## Left out

- Notifications, audit logs, progress events, sockets and message texts: they do not feed back into the modelled state.
- Whole calls of completion, cancellation and direct decisions as imperative code: their transactions are methods proved against the functions, and their interleavings are modelled on values; only the report decision is also strung together as one method, because the others repeat its shape.
- Immediate cancellation and lifecycle steps as imperative code: their transactions and interleavings are modelled on values.
- De-duplication of safety reports and the 72-hour waits of completion escalations: they only refuse more openings.
- Listing photos, categories, content moderation and price validation: free parameters of the modelled steps.
- Queue admission limits and the waitlist (src/services/queue.service.ts:68-111): a count compared with a limit, and one row consumed.
- The queue position shown on the booking row: a copy of the queue row's position.
- TrustLedger: review-score events are plain events, and reasons are taken as already trimmed.
- The decimal library's 20-digit division: upgrade quotes are exact fractions rounded once, half up.
- The range limit of time values in ECMA-262: dates are unbounded.
- The maintenance job's cursor over users and its reminders: each provider's upkeep is a step.
- Trust locks are outside the lock order, because one path takes a user's trust lock before a pair's; the locks of content cases, listing photos, sessions, reviews, categories, verification and announcements have no class in the model.
- Account deletion and data purge, platform reporting, authentication, geocoding, media and AI calls: other concerns.
