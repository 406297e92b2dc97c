# Verified model of the agent payment governor

A Dafny 4.11 model of the repository's trust kernel and of the services around it, with
machine-checked proofs. `dafny verify dfyconfig.toml` checks the whole project.

The kernel stands between an agent that wants to pay and the rails that move money. The
operator grants *mandates* (who may be paid, in which currency and on which rails, up to
which cap per payment and per period). The *gate* decides whether a payment runs
unattended, needs the operator, or is blocked; the *executor* applies the decision, settles
through a rail, keeps the ledger and appends every step to a signed, hash-linked trail.
Independent programs later read the trail: replay engines, a process checker, an oversight
report.

## How the model is built

- Values (mandates, intents, events, delegations, JSON) are datatypes. What the program
  updates in place is a class: `MemoryStore`, `PaymentExecutor`, `PostgresHandle`,
  `KmsKeyProvider`, `Log`, `Limiter`. Their methods are proved equal to step functions, and
  the theorems are about those functions over whole runs.
- `execute` gives up control while the rail settles, so it is two steps: `Begin` judges and
  records in one go, `Finish` writes the rail's answer. Any number may be in between, in any
  order. A run is any sequence of begin, finish, approve, refund, grant, amend, revoke,
  kill-switch and breaker-reset steps. `approve` and `refund` wait for a provider too; they
  are one step in most theorems, and two halves in `OperatorOverlap`.
- What the components compute is said a second time in terms of their inputs alone, without
  the model's own helper functions: which payment a mandate allows, when an alert is due, which
  approval pays, what a revocation leaves behind, when a log entry is genuine. The files named
  `...Meaning` hold these statements; most are equivalences, and the theorems about runs rest on
  the functions they pin down.
- Every proof about runs goes through `Effects`: a step files, launches, lands or changes
  one entry, and leaves events that explain it. Budget, velocity, bursts, conservation and
  the trace rules are inductions over effects.
- Amounts are integers of minor units, instants are integer milliseconds, rates and growth
  are exact reals. Hashes and MACs are function parameters; a claim that needs the hash
  injective says so.

Files follow the components: `Types`, `Calendar`, `Risk`, `DenyList`, `Gate`, `GateLaws`;
`Store`, `Trail`, `Fx`, `FxLaws`, `RiskChain`, `Enforcement`, `Executor`, `ExecutorObject`;
`Effects`, `Invariants`, `Budget`, `FxBudget`, `BurstLimit`, `Conservation`, `OperatorOverlap`, `Trajectory`, `Oversight`,
`EnforcementLaws`, `ReplaySim`, `ReplaySession`; `PostgresStore`, `PostgresAdapter`,
`PostgresFork`, `Recovery`; `CanonicalJson`, `CanonicalLaws`, `AuditChain`, `KeyCustody`, `AuditLog`;
`AbiBytes`, `Erc7710`, `Erc7710Laws`; `Reconcile`, `Retirement`, `Siwa`, `SiwaLaws`,
`RateLimiter`; `Prelude`. Beside them stand `GateMeaning`, `RiskChainMeaning`, `CalendarMeaning`,
`FxMeaning`, `LedgerMeaning`, `StoreMeaning`, `ExecutionMeaning`, `ApprovalMeaning`,
`RefundMeaning`, `MandateMeaning`, `ReportMeaning`, `AuditMeaning`, `RedemptionMeaning`,
`AbiMeaning`, `AnnuityMeaning` and `SiwaMeaning`; `ApprovalRuns` and `Breaker` say over whole runs who let a
payment through and when payments are halted. Concrete runs from a fresh installation, which show that a bound is
reached or a condition is needed, are in `Scenario`, `BudgetBound`, `FxGap`, `DuplicateId`,
`OverlapWitness`, `HaltWitness`, `TokenDecimals` and `ReplayWitness`.

## Where the code falls short of its own description

Each of these is a lemma, with an exact condition or a concrete input:

- A duplicate intent id is refused only after the rail has been paid: the trail gains a
  settlement the ledger never sees, exactly when the id is taken
  (`Conservation.DuplicateIdEscapesLedger`); a run of two begins with one id is paid twice and
  counted once (`DuplicateId.PaidTwiceCountedOnce`).
- An approval looks at the status before it waits for the rail and not again, and a refund
  writes over the sum it remembers. When calls overlap, trail and ledger agree at every moment
  exactly when no payment finds its entry already paid and no refund that was sent finds
  another sum than it remembers (`OperatorOverlap.OverlapBalancesIff`); one call at a time for
  each intent is enough (`OperatorOverlap.OneCallEachBalances`). Two overlapping approvals of
  one intent pay twice and are counted once (`OverlapWitness.ApprovedTwicePaidTwice`).
- Payments in flight are invisible to the gate (`Budget.FlightsAreInvisible`). A launch keeps
  to the period cap exactly when what is in flight fits into the room the gate reports plus
  the counted spend that did not run unattended (`Budget.LaunchKeepsCapIff`). Over whole runs
  each further execution that overlaps passes the cap by at most what one payment can be, the
  smaller of the two caps (`Budget.BudgetHolds`), and for all caps and every number of them a
  run reaches exactly that (`BudgetBound.BoundIsReached`).
- Period spend adds up raw amounts, so converted payments outrun the cap even one at a time
  (`FxGap.ForeignSpendOutrunsCap`). A converted launch keeps the worth of what runs unattended
  to the cap exactly when what the raw amounts understate, plus the worth in flight, fits the
  room the gate reports (`FxBudget.ConvertedLaunchKeepsCapIff`); a whole run, overlapping or
  not, stays within the cap exactly when each of its launches does
  (`FxBudget.ConvertedBudgetIff`). The second launch of that input is the one that does not.
- A recorded decision replays to the same verdict exactly when no session detector escalated
  it, the first covering mandate in list order is also the first by id, and the standard
  decimals measure the payment as the operator's table did, or both find it over a cap
  (`EnforcementLaws.ReplayMatchesIff`). A table is harmless for a pair of currencies exactly
  when it moves both exponents alike (`FxLaws.ConversionsAgreeIff`); a decision that fails to
  replay only because of its table is in `TokenDecimals.TokenDecimalsAreNotReplayed`.
- Replaying a session against its own policy is no fixpoint once an operator has approved
  something: the simulator rebuilds only what ran unattended, the gate counts every settled
  payment of the mandate (`ReplayWitness.DisputedSession`). The exact condition, for any run
  under a fixed policy, is `ReplaySim.ReplayFixpointIff`; for sessions of one payment at a time
  it is stated on the ledger alone (`ReplaySession.SessionFixpointIff`), and where no approved
  and no carried-in payment is charged to the picked mandate in the period, only an alert can
  cause a reported change (`ReplaySession.UntouchedFixpointIff`).
- The process checker reports a settlement made while halted exactly when an approval of the
  settled intent was refused during a halt (`Trajectory.TracesPass`), also when the operator
  approved it properly afterwards (`HaltWitness.ReportedThoughApproved`).
- Amending or revoking an unknown mandate queues a statement the database refuses for ever,
  and nothing written later becomes durable (`PostgresStore.BarrierOpensIff`).
- Recovery does not restore the order of mandates, which decides which one is charged. It
  keeps every verdict for a payment exactly when the floor refuses it anyway or at most one
  live mandate covers it (`Recovery.PickSurvivesIff`, `Recovery.VerdictSurvivesIff`).
- The cost of waiting rounds horizon, wait and remainder to months one by one, so a month can
  be counted twice or lost (`Retirement.MonthGainedAndLost`); none is exactly when what the two
  roundings leave over is at least minus a half and below a half
  (`Retirement.MonthsAddUpIff`).
- A second process that appends to the trail is refused for good, with everything it writes
  afterwards, exactly when its entry differs from the one in place
  (`PostgresFork.ForkBlocksIff`).
- Verification of the log alone cannot notice a truncated end
  (`AuditChain.PrefixVerifies`); with the head hash it notices everything
  (`AuditChain.HeadFixesLog`).
- A sign-in domain need not start with a field prefix to be read as a field: the header line
  completes `URI:` with a space (`SiwaLaws.DomainCompletesPrefix`).
- The rate limiter's bound over any window-length interval is twice the quota less one, and
  that is reached (`RateLimiter.AnyIntervalIsBounded`, `RateLimiter.BoundIsMet`).

## Model

| member | source | states |
|---|---|---|
| Calendar.PeriodBuckets | src/core/store.ts:73-89 | period starts cut time into buckets: a start is never later than its instant, everything between a start and an instant that has it shares it, and starts never run backwards |
| Calendar.PeriodStartMeaning | src/core/store.ts:73-89 | a day starts at UTC midnight, a week on a Monday within the last seven days, a month on the first of the month the instant falls in |
| Calendar.MonthIsUnique | src/core/store.ts:73-89 | every day lies in exactly one month of the proleptic Gregorian calendar |
| CalendarMeaning.MonthsMean | src/core/store.ts:73-89 | the months walked one by one begin on the days the closed formula of the Gregorian calendar gives, for every month before and after 1970 |
| CalendarMeaning.StartMeans | src/core/store.ts:73-89 | for an instant in a civil month of a year: a day starts at the last midnight, a week at the last midnight of a Monday counted from 1970-01-05, a month at the midnight of its first |
| Risk.MedianIgnoresOrder | src/core/risk.ts:18-25 | the median of two lists with the same elements is the same, because sorting erases order |
| GateMeaning.MedianMeans | src/core/risk.ts:18-25 | the median is the value with half of the others below it, or the mean of the middle two with a half rounded up, told by counting and without sorting |
| Gate.EvaluateGate | src/core/gate.ts:43-215 | the early-exit scans and the collected reasons compute the staged decision: floor, first covering mandate, caps, concerns; what that decision is in the inputs' own fields is GateMeaning |
| Gate.AuthorityIsFirst | src/core/gate.ts:94-97 | the authorizing mandate is the first live covering one in list order, and there is none only when no mandate is live and covers |
| Gate.AutoExecuteIff | src/core/gate.ts:43-215 | a payment runs unattended if and only if it clears the floor and the first covering mandate admits it under both caps, for a payee not new, below the velocity ceiling, not at high risk |
| GateMeaning.UnattendedMeans | src/core/gate.ts:29-215 | in the fields of payment, context and mandates alone: unattended if and only if the amount is positive, the rationale long enough between its white ends, no deny rule matches, and the first mandate in the list that is active, not expired, on the rail, for the class or a listed payee, and in the currency or a convertible one admits the payment under both caps, to a payee not new, below the ceiling and below four risk points |
| GateMeaning.CoveredMeans | src/core/gate.ts:94-215 | the whole verdict under that first mandate: which cap blocks, which doubts in which order, the risk tier and points, and what is left of the period budget |
| GateMeaning.UncoveredMeans | src/core/gate.ts:94-110 | a payment that clears the floor gets no mandate, and is left to the operator for that one reason, if and only if no mandate in the list says all of that |
| GateMeaning.FloorMeans | src/core/gate.ts:43-92 | a bad amount, a short rationale and the first deny rule that matches block in that order, without a look at any mandate |
| GateMeaning.DefaultRulesMean | src/core/denyList.ts:16-46 | the default rules refuse exactly an irreversible payment of fifty or more to a payee never paid, and a payee with a control or format character |
| GateLaws.BlockIgnoresSoftSignals | src/core/gate.ts:43-215 | trust, reputation and attestation can neither cause nor lift a block |
| GateLaws.SeverityNeverDrops | src/core/gate.ts:43-215 | within one currency, a larger amount or a worse signal never makes a verdict more lenient, for any deny rules that only get stricter |
| GateLaws.DefaultSeverityNeverDrops | src/core/denyList.ts:16-46 | the default deny rules qualify for that monotonicity |
| GateLaws.VerdictIgnoresSpendOrder | src/core/gate.ts:131-215 | the verdict depends on each mandate's prior spend only as a multiset |
| GateLaws.SamePickSameVerdict | src/core/gate.ts:43-215 | two contexts that pick the same mandate and judge it by the same signals and amount, and the same spend in any order, decide alike |
| Store.KnownIffCounted | src/store/memoryStore.ts:92-105 | a payee is known exactly when its settled count is positive |
| LedgerMeaning.ContextMeans | src/core/executor.ts:117-144 | what the gate is shown: the live mandates, payees with a settled payment, trust by their number, the reputation of the payee, the settling provider's reversibility, and conversion at the installation's rates |
| LedgerMeaning.PeriodSpendMeans | src/store/memoryStore.ts:75-91 | the spend under a stored mandate is the settled entries charged to it since its period began, net of refunds, whatever one adds up over it |
| LedgerMeaning.UnattendedFromLedger | src/core/executor.ts:117-144 | a payment clears the gate if and only if the first stored mandate that allows it has room under both caps for it and what was settled under it this period, fewer payments than the ceiling in the window, and the payee was paid before, below four risk points |
| LedgerMeaning.InputsMean | src/core/executor.ts:299-316 | the record of a decision carries the reversibility, attestation, reputation, trust and known payees the gate looked at |
| LedgerMeaning.RecordedRatesMean | src/core/executor.ts:292-298 | it carries a rate for exactly the other currencies of live mandates that have one, and none at all when there is none |
| Store.MemoryStore.InsertMandate | src/store/memoryStore.ts:31-34 | a taken mandate id is refused and changes nothing; otherwise the mandate is listed last |
| Store.MemoryStore.UpdateMandate | src/store/memoryStore.ts:39-46 | an unknown mandate changes nothing; a known one is patched in place, keeping id and order |
| Store.MemoryStore.InsertIntent | src/store/memoryStore.ts:48-53 | a taken intent id is refused and changes nothing |
| Store.MemoryStore.UpdateIntent | src/store/memoryStore.ts:57-68 | only the given fields of a known intent change; an unknown one throws |
| StoreMeaning.MirrorMeans | src/store/memoryStore.ts:31-74 | field by field what each call on the ledger does: inserted rows come last, a revocation sets the status, an amendment or update sets the fields it names, and nothing else changes |
| Store.MemoryStore.CollectPeriodSpend | src/store/memoryStore.ts:75-91 | the net amounts of the settled intents of a mandate since its period began, in ledger order |
| Store.MemoryStore.CollectKnownPayees | src/store/memoryStore.ts:92-98 | the payees of settled intents |
| Store.MemoryStore.CountSettled | src/store/memoryStore.ts:99-105 | the number of settled intents of a payee |
| RiskChain.EvaluateRiskChain | src/core/riskChain.ts:33-157 | the loops over the trail raise the alert of the detectors' function, whose exact conditions over the entries are RiskChainMeaning.AlertsMean |
| RiskChain.RecentAutoMembers | src/core/riskChain.ts:33-60 | the window of a payee holds exactly the trail's recent unattended decisions for it, and its length is their number |
| RiskChainMeaning.AlertsMean | src/core/riskChain.ts:33-157 | each alert's exact condition over the entries, the earlier ones first: three recent unattended payments to the payee; two and one on another rail; four recent payments turned away and one for another payee; a recent decision for four fifths of what its mandate had left within the hour after a grant; and none exactly when none of these holds |
| ExecutorObject.PaymentExecutor.Judge | src/core/executor.ts:254-289 | gate and detectors together: an alert turns an unattended verdict into one to confirm, and only adds a reason to any other |
| ExecutionMeaning.VerdictMeans | src/core/executor.ts:254-289 | the gate's verdict stands unless one of those conditions holds; then it gets the alert's reason and, were it unattended, goes to the operator, with mandate, risk and budget as they were |
| ExecutionMeaning.UnattendedIff | src/core/executor.ts:254-289 | a verdict is unattended if and only if the gate's is and none of the four conditions holds |
| ExecutorObject.PaymentExecutor.Begin | src/core/executor.ts:233-367 | the await-free half of execute takes store, trail and flights exactly to the begin step's world: halt, block, pending or launched; it throws exactly when it files under a taken id |
| ExecutionMeaning.HaltMeans | src/core/executor.ts:169-182 | under a halt, the switch before the breaker, the intent is filed as blocked for it, the trail says so, and the count stays |
| ExecutionMeaning.BeginMeans | src/core/executor.ts:233-367 | otherwise the decision is recorded and the intent filed as blocked and counted, filed as pending, or put in flight, by the verdict's outcome alone |
| ExecutorObject.PaymentExecutor.SettleNow | src/core/executor.ts:195-231 | a receipt is stored and leaves a settled and a verified event, a decline leaves a failed event, a missing provider leaves none |
| ExecutorObject.PaymentExecutor.Finish | src/core/executor.ts:368-403 | the other half of execute files the rail's answer for one flight, whatever happened in between; it throws, after the money moved, exactly when the id is taken |
| ExecutionMeaning.FinishMeans | src/core/executor.ts:368-403 | a receipt settles the entry, keeps the receipt, records payment and read-back and clears the count; a decline or a missing provider files a failure and counts it; under a taken id only trail and receipts tell |
| Breaker.HaltedIff | src/core/executor.ts:169-182 | over runs: payments are halted exactly when the switch was last set, or as many payments in a row as the breaker allows were blocked or failed since the last one settled or the last reset |
| Breaker.NothingUnderHalt | src/core/executor.ts:233-252 | under a halt nothing is launched and an approval changes nothing but the trail |
| ExecutorObject.PaymentExecutor.BeginApproval | src/core/executor.ts:427-489 | the await-free half of approve throws exactly for an intent that is not pending; otherwise it re-runs the gate on the present state, cannot override a block or a halt, asks for the challenge, and says what is to be paid, exactly when ApprovalMeaning.CheckMeans lets it through |
| ApprovalMeaning.CheckMeans | src/core/executor.ts:427-489 | a payment is asked for if and only if the intent is pending, no halt is in force, the gate does not block, and the operator acknowledged or the risk is not high, the settling provider, else the rail, is reversible and the amount below the threshold; otherwise the entry stays, unless the gate blocks it |
| ApprovalMeaning.PaymentMeans | src/core/executor.ts:491-511 | the whole world after such an approval, for every answer of the rail |
| ApprovalRuns.PaymentsAreAuthorized | src/core/executor.ts:233-511 | in every run each payment either ran unattended by the verdict recorded for it or directly follows the operator's consent to it, acknowledged or else for a small, reversible payment not at high risk, and never both |
| ExecutorObject.PaymentExecutor.FinishApproval | src/core/executor.ts:491-511 | the other half writes the rail's answer over the entry, whatever the entry says by then |
| ExecutorObject.PaymentExecutor.ApprovePending | src/core/executor.ts:427-510 | with nothing in between, the two halves are the approval step of a run |
| Executor.ApproveIsBothHalves | src/core/executor.ts:427-510 | the approval step is its check followed by its payment, for every state and answer |
| ExecutorObject.PaymentExecutor.BeginRefund | src/core/executor.ts:514-544 | a refund is sent only for a settled intent on a reversible rail and within what is left of its amount; the check changes nothing and remembers the sum refunded so far |
| RefundMeaning.RefundMeans | src/core/executor.ts:514-550 | a refund is sent if and only if the payment is settled with a kept receipt, the receipt's issuer, or the rail's provider if that is not registered, takes payments back, and the amount is positive and within what is left; then the entry's sum and the trail change and nothing else |
| ExecutorObject.PaymentExecutor.FinishRefund | src/core/executor.ts:545-550 | once sent, the remembered sum and the refund are written to the entry and the refund is recorded |
| ExecutorObject.PaymentExecutor.RefundSettled | src/core/executor.ts:514-550 | with nothing in between, the two halves are the refund step of a run, and the new sum is returned |
| ExecutorObject.PaymentExecutor.AmendMandate | src/core/executor.ts:552-559 | an amendment patches any field of the stored mandate but its id, and is recorded whether or not the mandate is known |
| MandateMeaning.AmendMeans | src/core/executor.ts:552-559 | each field of the amended mandate takes the value asked for or keeps its own, the id keeps, and nothing else changes |
| MandateMeaning.ExtensionMeans | src/core/executor.ts:556-559 | an active mandate whose expiry is extended is listed as live up to the new instant and no longer |
| ExecutorObject.PaymentExecutor.GrantMandate | src/sdk/index.ts:181-204 | the granted mandate is active from now, under the given or a fresh id, until the given instant or for the given days or for thirty; a taken id is refused before anything is recorded |
| MandateMeaning.GrantMeans | src/store/memoryStore.ts:31-34 | a mandate under a free id is listed last and recorded; a taken id changes nothing |
| MandateMeaning.GrantedTermMeans | src/sdk/index.ts:181-204 | a granted mandate is live up to the instant asked for, for the days asked for, or for thirty days |
| ExecutorObject.PaymentExecutor.RevokeMandate | src/sdk/index.ts:225-230 | afterwards the stored mandates are those of before, but the one with the id is revoked; it is recorded whether or not the mandate is known |
| MandateMeaning.RevokeMeans | src/store/memoryStore.ts:39-42 | a revocation sets the status of the mandate with the id, so that none with the id is live at any instant, and leaves every other mandate and field as it was |
| MandateMeaning.RevokedNamesNothing | src/sdk/index.ts:223-230 | after it no verdict names the mandate, whatever the payment and the instant |
| MandateMeaning.RevocationHolds | src/sdk/index.ts:223-230 | in every run after it that neither grants the id anew nor amends the status to active, no decision of either phase names the mandate and it is never live |
| ExecutorObject.PaymentExecutor.CloseBreaker | src/core/executor.ts:574 | resetting the breaker clears the count of consecutive failures and nothing else |
| Effects.StepEffect | src/core/executor.ts:233-559 | every step touches at most one ledger entry or flight, and the events it leaves explain the change; it launches exactly when no halt is on and the verdict is unattended |
| Invariants.RunKeepsInv | src/core/executor.ts:233-559 | in every run, ids stay unique across ledger and flights, every entry is well formed for its status, refunds stay within amounts, and every unattended id is in use |
| Invariants.NextMandates | src/core/executor.ts:233-559 | payments and refunds leave the mandates alone; only grant, amend and revoke change them |
| Budget.BudgetHolds | src/core/executor.ts:233-403 | for every mandate whose terms stay the same, whenever in the run it is granted: with at most k executions overlapping, unattended spend in a period bucket net of refunds plus spend in flight is at most perPeriodCap + (k-1) * min(perTxCap, perPeriodCap), whatever other mandates pay in whatever currency |
| Budget.UnamendedTermsStay | src/core/executor.ts:552-559 | a mandate's terms stay the same through every run that never amends them and grants it no others |
| Budget.SequentialBudgetHolds | src/core/gate.ts:131-172 | one execution at a time keeps exactly to the period cap |
| Budget.FlightsAreInvisible | src/core/executor.ts:117-144 | the gate is not shown what is in flight: two payments it would each let run from one state both run, and the load grows by both whatever is left of the cap |
| Budget.LaunchKeepsCapIff | src/core/executor.ts:117-144 | after a launch the load is within the period cap if and only if what was in flight fits into the room the gate reported plus the counted spend that did not run unattended in the bucket |
| BudgetBound.BoundIsReached | src/core/executor.ts:233-403 | for every pair of caps and every k there is an orderly run from a fresh installation, with at most k executions overlapping, whose load is exactly perPeriodCap + (k-1) * min(perTxCap, perPeriodCap) |
| Budget.VelocityHolds | src/core/gate.ts:174-188 | within one bucket any span of the velocity window's length holds at most velocityMaxCount + (k-1) unattended payments, converted or not |
| Budget.VelocityAcrossBoundary | src/core/gate.ts:174-188 | across a bucket boundary the ceiling is at most doubled, for any span shorter than the shortest period of the mandate's kind |
| Budget.LaunchWithinCaps | src/core/executor.ts:117-144 | what a launch is worth in the mandate's currency fits both caps, and the count the ceiling, measured against the ledger's own spend under the stored mandate |
| FxBudget.ConvertedLaunchKeepsCapIff | src/core/gate.ts:131-172 | after a launch, converted or not, the worth of what runs unattended is within the period cap if and only if the worth so far less the raw spend the gate counted fits the room the gate reports |
| FxBudget.ConvertedBudgetIff | src/core/gate.ts:131-172 | through a whole run with non-negative rates, overlapping or not, that worth never passes the cap if and only if every launch charged to the mandate in the period fits so |
| FxBudget.WorthLoadIsLoad | src/store/memoryStore.ts:75-91 | without conversion the worth is the load of the budget theorem |
| FxGap.ForeignSpendOutrunsCap | src/store/memoryStore.ts:75-91 | a run, one execution at a time, in which two converted payments run unattended and are together worth 1800 under a period cap of 1000; the second launch does not fit |
| BurstLimit.ClearTrailHasSmallBursts | src/core/riskChain.ts:33-83 | a trail on which no alert was due holds at most three unattended decisions per payee in fifteen minutes |
| BurstLimit.BurstsStaySmall | src/core/executor.ts:260-289 | in every run without daily mandates, overlapping or not, any fifteen minutes hold at most three unattended decisions for a payee, and three only on one rail |
| Conservation.BooksBalance | src/core/executor.ts:195-231 | in every run, payments per intent, all payments, totals per currency and refunds per intent agree between trail and ledger |
| Conservation.EventsMatchLedger | src/core/executor.ts:491-550 | each settled intent has exactly one settlement event and others none; refund events sum to refundedMinor, which never exceeds the amount |
| Conservation.DuplicateIdEscapesLedger | src/core/executor.ts:368-403 | the settlement of a flight adds a settlement event, and the ledger stays as it was exactly when the id was already taken |
| DuplicateId.PaidTwiceCountedOnce | src/core/executor.ts:368-403 | a run from a fresh installation with two begins of one id: the trail holds two settlements of it and the ledger one |
| OperatorOverlap.OverlapBalancesIff | src/core/executor.ts:427-550 | in every run whose approvals and refunds wait for their providers while anything else happens, every account balances at every moment if and only if no payment finds its entry paid and no sent refund finds another sum than it remembers |
| OperatorOverlap.OneCallEachBalances | src/core/executor.ts:427-550 | with at most one waiting call for each intent, whatever else overlaps, every account balances at every moment |
| OverlapWitness.ApprovedTwicePaidTwice | src/core/executor.ts:427-510 | a run from a fresh installation with two overlapping approvals of one intent: the trail holds two settlements and the ledger one |
| Trajectory.CheckTrajectory | src/evals/process.ts:59-155 | the index-filling loops, which pass over empty ids, report a violation exactly when the rule, read straight off the trace, is broken |
| ReportMeaning.RulesMean | src/evals/process.ts:59-150 | the five rules over the entries alone: paid undecided, paid though always blocked, paid though halted, three blocked attempts alike, let run unattended and neither paid nor failed |
| Trajectory.TracesPass | src/evals/process.ts:59-128 | no executor trace settles without a decision or settles what every decision blocked; a settlement is reported as made while halted if and only if the intent is settled and an approval of it was refused during a halt, and then one was permitted after each refusal |
| HaltWitness.ReportedThoughApproved | src/evals/process.ts:121-128 | a run from a fresh installation whose settlement is so reported, although it was approved after the halt |
| Oversight.DeployerOversightReport | src/compliance/oversight.ts:146-230 | every bucket holds exactly the count and the per-currency sums of the entries of its kind in the window |
| ReportMeaning.BucketMeans | src/compliance/oversight.ts:95-218 | a bucket's count and its total in each currency are sums over the entries of the window: unattended decisions, operator decisions the gate would have let run, blocks of either phase, payments |
| ReportMeaning.HitsMean | src/compliance/oversight.ts:169-218 | the deny hits are the deny reasons on blocks in the window, the entries all entries in it |
| Oversight.ReportAgreesWithLedger | src/compliance/oversight.ts:169-208 | over any window that covers a run, the settled bucket has the ledger's number of payments and its total in each currency |
| Oversight.WindowsAddUp | src/compliance/oversight.ts:95-112 | a report window can be cut anywhere: adjacent windows add up |
| EnforcementLaws.ReplayMatchesIff | src/core/enforcement.ts:170-251 | a recorded agent-phase decision replays to an equal verdict under its own policy snapshot if and only if the detectors did not escalate it, the picked mandate is first by id, and the amount at standard decimals equals the live one or both are over a cap |
| EnforcementLaws.TamperingShows | src/core/enforcement.ts:241-251 | a record that replays stops replaying exactly when its outcome, mandate, risk tier or remaining budget is changed |
| EnforcementLaws.FaithfulUnderOneMandate | src/core/enforcement.ts:170-251 | with at most one live covering mandate, no escalation, and a decimals table that moves no conversion into a live mandate's currency, every decision replays faithfully |
| FxLaws.ConversionsAgreeIff | src/core/fx.ts:62-86 | a decimals table leaves every conversion of a positive amount between two currencies unchanged if and only if it shifts the decimal point as the standard exponents do |
| FxMeaning.ConversionMeans | src/core/fx.ts:71-88 | a conversion is the amount in major units, at the rate, in minor units of the other currency, to the nearest one |
| FxMeaning.DecimalsMean | src/core/fx.ts:39-69 | a currency has the decimals of the operator's table, else none or three if it is on one of the two lists, else two, whatever the case of its letters |
| TokenDecimals.TokenDecimalsAreNotReplayed | src/core/enforcement.ts:209-239 | a world, an intent and an installation whose recorded decision does not replay, while the same decision without the decimals table does |
| ReplaySim.ReplayAudit | src/obs/replaySim.ts:63-123 | the loop with its reconstructed spend computes the replay of the trail, and counts the changed outcomes |
| ReplaySim.ReplayFixpointIff | src/obs/replaySim.ts:63-123 | for every run under a fixed policy, from a trail that may hold grants and anything else but decisions, with overlaps, failures, refunds and approvals, replaying the trail against that policy reports no change if and only if no judged payment is tipped over a cap, the ceiling or the risk tier by an alert or by the difference between ledger and rebuilt spend |
| ReplaySession.SessionFixpointIff | src/obs/replaySim.ts:63-123 | for every session of one payment at a time, approvals included, no change is reported if and only if what an operator let through or the ledger started with tips no judged payment, and no alert does |
| ReplaySession.UntouchedFixpointIff | src/obs/replaySim.ts:80-117 | if everything charged to the picked mandate in the period ran unattended, no change is reported if and only if the detectors held nothing back |
| ReplayWitness.AgreedSession | src/obs/replaySim.ts:80-117 | a session from a fresh installation in which a payment runs unattended, the next is blocked by the cap it used up, and the replay reports no change |
| ReplayWitness.DisputedSession | src/obs/replaySim.ts:80-117 | a session from a fresh installation in which an approved payment uses up the cap, and the replay against the same policy reports a change |
| ReplaySim.DefaultRulesAreLocal | src/core/denyList.ts:16-46 | the default deny rules ask of the known payees only whether this payee is one, which the reconstruction needs |
| PostgresStore.CallIsPersisted | src/store/postgresStore.ts:143-222 | every accepted call queues the statement that does to the tables what it did to the mirror; the statement is poisoned exactly when a mandate id is unknown |
| StoreMeaning.StatementMeans | src/store/postgresStore.ts:130-222 | a statement puts its row under its key in its own table; one without a row is refused, and so is an audit row other than the one in its place |
| StoreMeaning.ProtocolMeans | src/store/postgresStore.ts:106-127 | a write changes the mirror and queues its statement; the head of the queue runs when its query is answered or only the answer is lost, and leaves the queue in the first case alone; a crash leaves the tables |
| PostgresStore.RetryIsHarmless | src/store/postgresStore.ts:115-141 | running an accepted statement again changes nothing, so a lost acknowledgement may be retried |
| PostgresStore.BehaviourKeepsInv | src/store/postgresStore.ts:106-161 | through any mix of writes, failed queries, lost acknowledgements and crashes the tables stay on the path of the saved mirrors |
| PostgresStore.QueueLeadsToMirror | src/store/postgresStore.ts:106-127 | the pending queue applied to the tables always yields the mirror; with nothing pending the tables are the mirror |
| PostgresStore.RecoveryIsAPrefix | src/store/postgresStore.ts:224-253 | a crash recovers the state after a prefix of the writes that holds every acknowledged one and at most the one in doubt, with the trail entry for entry |
| PostgresStore.ReloadRestores | src/store/postgresStore.ts:235-253 | reading the tables in any row order restores the saved mirror up to the order of mandates and intents |
| PostgresStore.BarrierOpensIff | src/store/postgresStore.ts:115-127 | the flush barrier can come clean if and only if no queued statement is poisoned |
| PostgresFork.ForkBlocksIff | src/store/postgresStore.ts:106-141 | of two processes that loaded the same tables and each appended an entry, the one that comes second can ever flush if and only if the entries are equal; otherwise, whatever either does next, nothing it writes is acknowledged and the first entry stays |
| PostgresAdapter.PostgresHandle.constructor | src/store/postgresStore.ts:224-253 | init builds a mirror of the tables with the trail in sequence order |
| PostgresAdapter.PostgresHandle.Commit | src/store/postgresStore.ts:163-222 | a write updates the mirror, then queues what the mirror now holds; a refused call queues nothing |
| PostgresAdapter.PostgresHandle.Flush | src/store/postgresStore.ts:115-127 | the drain loop follows the protocol's steps and reports a clean barrier only when the tables are the mirror |
| PostgresAdapter.TablesStayConsistent | src/store/postgresStore.ts:224-253 | every state leaves tables a new process can start from |
| Recovery.PickSurvivesIff | src/store/postgresStore.ts:241-246 | every reload of a saved mirror charges a payment to the mandate it was charged to before if and only if at most one live mandate covers it |
| Recovery.VerdictSurvivesIff | src/store/postgresStore.ts:235-253 | every reload gives the gate's whole verdict of before if and only if the floor refuses the payment anyway or at most one live mandate covers it |
| CanonicalLaws.SameTextIffSameMeaning | src/core/audit.ts:44-62 | two values get the same canonical text exactly when they are equal after dropping what JSON cannot carry and ignoring key order |
| CanonicalLaws.PersistenceKeepsText | src/core/audit.ts:44-62 | writing a payload out as JSON and reading it back, members in any order, keeps its canonical text |
| CanonicalLaws.TextIsOneLine | src/core/audit.ts:44-62 | the canonical text holds no line break, whatever strings are in the value |
| CanonicalLaws.EscapeMeans | src/core/audit.ts:44-62 | a character of a string stands for itself, but for the quote, the backslash and the control characters, each with its own escape |
| AuditChain.PreimageIsInjective | src/core/audit.ts:64-74 | the hashed framing determines number, time, type, payload text and link, even for a time that holds line breaks |
| AuditChain.HeadFixesLog | src/core/audit.ts:169-200 | two logs that verify and share a head hash are equally long and agree entry for entry on number, time, type, payload, link and hash |
| AuditChain.PrefixVerifies | src/core/audit.ts:169-200 | a log cut short still verifies |
| KeyCustody.KmsKeyProvider.Rotate | src/core/keyCustody.ts:117-123 | rotation makes the latest version current and forgets none; when the KMS does not answer nothing changes |
| KeyCustody.KmsKeyProvider.Resolve | src/core/keyCustody.ts:131-136 | a cached version answers without the KMS, and looking one up changes no answer |
| AuditLog.EveryInterleavingVerifies | src/core/audit.ts:102-147 | every interleaving of appends, key rotations and restarts from the entries, including the move from one key to versioned keys, verifies at every moment |
| AuditLog.Log.AppendEntry | src/core/audit.ts:130-147 | an append numbers, links and hashes the entry with its own time, event and payload, and signs it under the current key and version |
| AuditLog.StepMeans | src/core/audit.ts:102-147 | an append adds one genuine entry signed with the key in use, a rotation changes the key in use and forgets none, a restart changes custody alone |
| AuditLog.Log.Verify | src/core/audit.ts:169-200 | the loop finds the log intact exactly when every entry is genuine: linked, hashed and signed; otherwise it reports the first entry that is not, with the first of link, digest, key and signature it fails |
| AuditMeaning.VerifiesMeans | src/core/audit.ts:169-200 | a chain verifies exactly when every entry links to the digest before it, or to sixty-four zeros, has the hash of its own statement for a digest, and the mac of that digest under its version's key for a signature |
| AuditMeaning.FaultMeans | src/core/audit.ts:169-200 | an entry's fault is the first of link, digest, key and signature that it fails, and it has none when it is genuine |
| AuditLog.Log.VerifyInService | src/core/audit.ts:169-200 | a log left by any such session of appends, rotations and restarts is found intact while the KMS answers |
| AbiBytes.HexRoundTrip | src/erc7710/index.ts:98-114 | hex text carries its bytes exactly |
| AbiMeaning.AddressMeans | src/erc7710/index.ts:98-128 | forty hex digits after the prefix are an address whose normal form has them in lower case; what does not read as twenty bytes is none |
| AbiMeaning.PairMeans | src/erc7710/index.ts:98-108 | which byte each pair of characters is read as, and which pairs are an error |
| AbiBytes.DecodeHex | src/erc7710/index.ts:98-108 | the in-place decoder fills its buffer with the bytes of the text, or fails where a pair cannot be read |
| AbiBytes.EncodeHex | src/erc7710/index.ts:110-114 | the loop writes two lower-case digits for each byte |
| AbiBytes.BytesToBigint | src/erc7710/index.ts:560-564 | the loop reads bytes as a big-endian number |
| AbiBytes.WordValue | src/erc7710/index.ts:129-148 | a 32-byte word holds the number it was made from |
| AbiBytes.WordFits | src/erc7710/index.ts:129-148 | exactly the numbers from 0 below 2^256 have a word |
| Erc7710.ClosestPeriod | src/erc7710/index.ts:650-661 | the loop finds a period no other is closer to, the shorter one on a tie |
| Erc7710.MandateToDelegation | src/erc7710/index.ts:279-360 | pushing the caveats one by one builds the delegation, or fails wherever an enforcer, an address or a value is missing or malformed |
| RedemptionMeaning.DelegationMeans | src/erc7710/index.ts:279-360 | the caveats in order, each for the enforcer it needs, the token's or the native coin's, unsigned under the root authority |
| Erc7710.GateDelegationRedemption | src/erc7710/index.ts:706-796 | indexing and decoding the caveats yields the synthesized mandate the gate judges last in the list |
| RedemptionMeaning.RedemptionMeans | src/erc7710/index.ts:706-796 | under the delegation alone, any delegation: a redemption runs unattended if and only if it clears the floor, the delegation carries an amount cap the amount keeps to, it is not past its expiry, the target is one it lists if it lists any, amount and earlier spend keep to its allowance or else to its amount cap, and the operator has no doubt |
| RedemptionMeaning.DelegatedMeans | src/erc7710/index.ts:748-796 | the mandate it is judged under, field by field: nothing allowed without an amount cap, the amount cap for a missing allowance, a month for its period, the year 3000 for a missing expiry |
| RedemptionMeaning.BoundsMean | src/erc7710/index.ts:711-746 | what a delegation says is what the terms of the last caveat for each configured enforcer decode to, the token's before the native coin's; a malformed address or undecodable terms are an error |
| RedemptionMeaning.JudgedMeans | src/erc7710/index.ts:706-778 | a redemption is judged if and only if its target is an address, the delegation can be read and its dates are ones a Date can hold |
| RedemptionMeaning.ToNumberMeans | src/erc7710/index.ts:581-645 | a number read from terms becomes the nearest double, the even one on a tie; doubles around it are a power of two apart |
| RedemptionMeaning.PeriodMeans | src/erc7710/index.ts:650-661 | a period length becomes a day up to four days, a week up to eighteen and a half, a month beyond |
| RedemptionMeaning.LookupMeans | src/erc7710/index.ts:717-741 | of several caveats for one enforcer the last one counts |
| RedemptionMeaning.TermsMean | src/erc7710/index.ts:581-645 | terms are read at fixed offsets of a fixed length, and fail at any other length |
| Erc7710Laws.DelegationIff | src/erc7710/index.ts:279-360 | a mandate becomes a delegation if and only if its numbers fit a word, its allowlist is a non-empty list of addresses, and the enforcers it needs are configured with valid addresses |
| Erc7710Laws.BoundsSurvive | src/erc7710/index.ts:581-661 | decoding a mandate's caveats gives back expiry, caps, period, start and targets |
| Erc7710Laws.MandateSurvives | src/erc7710/index.ts:706-778 | a mandate sent as a delegation and decoded again keeps its caps and period, its dates to the whole second and its allowlist in normal form |
| Erc7710Laws.RedemptionIsGatedAsMandate | src/erc7710/index.ts:706-796 | a redemption is judged exactly as a payment under the original mandate, at every instant but the last fraction of a second before a fractional expiry |
| Reconcile.ReconcileStatement | src/finance/reconcile.ts:33-60 | the loop takes, for each payment, the first compatible line no earlier payment took; payments and lines are each split without loss or duplication |
| Reconcile.ReportIsMaximal | src/finance/reconcile.ts:43-57 | no compatible pair is left between the two unmatched lists |
| Reconcile.ReportMeans | src/finance/reconcile.ts:33-60 | matched items agree in currency, in amount and, to within the window, in time; no two unmatched ones do |
| Reconcile.FirstFitMeans | src/finance/reconcile.ts:43-57 | each payment takes the first line that agrees with it in currency, amount and time and that no earlier payment took, and goes without only when there is none |
| Reconcile.FirstFitIsMatching | src/finance/reconcile.ts:43-57 | only compatible items are paired, each at most once |
| Reconcile.HalfOfAnyMatching | src/finance/reconcile.ts:43-57 | greedy finds at least half as many matches as any way of matching |
| Reconcile.HalfIsReached | src/finance/reconcile.ts:43-57 | a statement where greedy finds one match and two were possible |
| Retirement.ProjectRetirement | src/finance/retirementSim.ts:62-90 | the month loop computes the projected pot, the contributions and the growth |
| Retirement.AnnuityFormula | src/finance/retirementSim.ts:73-81 | the loop has the closed form of an ordinary annuity |
| AnnuityMeaning.PlanMeans | src/finance/retirementSim.ts:62-90 | the pot is the start and the contributions without growth, and with growth the start times (1 + rate/12)^n plus contribution times ((1 + rate/12)^n - 1) / (rate/12), to the nearest unit, for the nearest whole number n of months |
| Retirement.StartNowVsLater | src/finance/retirementSim.ts:153-178 | the three projections behind the cost of waiting |
| Retirement.CostOfWaiting | src/finance/retirementSim.ts:153-178 | for every horizon and delay the reported cost is within 1 + g^left/2 of the ideal: the contributions not made plus the growth of the pot over months lost between the roundings |
| Retirement.WholeMonthsIdeal | src/finance/retirementSim.ts:153-178 | for whole months that ideal is contribution * g^(n-d) * (1 + g + ... + g^(d-1)) |
| Retirement.MonthsAddUpIff | src/finance/retirementSim.ts:153-178 | a delay within the horizon gains or loses at most one month to rounding, and none if and only if the residues of its two roundings add up to at least -1/2 and less than 1/2 |
| Retirement.MonthGainedAndLost | src/finance/retirementSim.ts:153-178 | a horizon of one month is split into one and one, and another into none and none |
| Retirement.CostOfWaitingWithoutGrowth | src/finance/retirementSim.ts:153-178 | at a rate of zero or less it is exactly the contributions of the months not left |
| Retirement.SensitivityIsAnAnnuity | src/finance/retirementSim.ts:113-123 | changing the contribution moves the pot by the change's own annuity, to within one unit |
| Retirement.GrowthIsTheDifference | src/finance/retirementSim.ts:84-89 | without debts or withdrawals the pot never falls below what was paid in, so the reported growth is the whole difference |
| Retirement.SlipCost | src/finance/slipCost.ts:63-100 | the period loop prices a habit invested at its own cadence |
| AnnuityMeaning.HabitMeans | src/finance/slipCost.ts:63-100 | a daily, weekly or monthly habit is 365, 52 or 12 payments a year, each invested at its share of the rate: amount times ((1 + rate/k)^n - 1) / (rate/k), to the nearest unit |
| Retirement.MonthlySlipIsAPlan | src/finance/slipCost.ts:63-100 | a monthly habit, invested, is a retirement plan from an empty pot |
| Retirement.MonthlySpendIsPaidIn | src/finance/slipCost.ts:69-70 | over whole months the money a monthly habit spends is what that plan pays in |
| Siwa.FormatSiwaMessage | src/identity/siwa.ts:32-52 | pushing the lines one by one gives header, address, statement and fields in order |
| SiwaMeaning.LinesMean | src/identity/siwa.ts:32-52 | every line of the signing text, letter by letter |
| Siwa.ParseSiwaMessage | src/identity/siwa.ts:56-105 | the scans and early exits compute the parsed message or the error |
| SiwaMeaning.ParseMeans | src/identity/siwa.ts:56-105 | exactly when each error is raised, and which lines a message that is read comes from |
| SiwaLaws.RoundTripIff | src/identity/siwa.ts:32-105 | parsing undoes formatting if and only if the required fields are non-empty and no line before the fields passes for one that says something else, for every combination of optional lines |
| SiwaLaws.PlainMessagesReturn | src/identity/siwa.ts:32-105 | it is enough that no line before the fields starts with a field prefix |
| SiwaLaws.DomainCompletesPrefix | src/identity/siwa.ts:57-71 | the domain "URI:" is misread although it starts with no prefix |
| RateLimiter.Limiter.Check | src/ingress/rateLimit.ts:36-48 | one request's effect on the windows, its verdict, the remaining count and the delay |
| RateLimiter.WindowIsBounded | src/ingress/rateLimit.ts:29-50 | a key passes at most its quota within one window |
| RateLimiter.AnyIntervalIsBounded | src/ingress/rateLimit.ts:29-50 | a key passes at most twice its quota less one in any half-open interval of one window's length |
| RateLimiter.BoundIsMet | src/ingress/rateLimit.ts:29-50 | for every key and every limit but windows of one millisecond, a request sequence that reaches that bound |
| RateLimiter.RetryIsExact | src/ingress/rateLimit.ts:43-45 | a refused caller is refused until the announced delay is over and admitted from then on |

## Left out

- Instants: ISO text is compared as the instant it names; receipts are taken to carry the gate's own time, as the bundled rails stamp it.
- Text: strings are sequences of Unicode scalar values; lengths and order are by those, not by UTF-16 code units, and lone surrogates are not modelled.
- Amounts: payment amounts are integers; the gate's handling of fractional or non-finite numbers is not modelled.
- Reason and fix texts: reasons are tags, and suggested fixes are not modelled.
- Kill switch and failure counter: typed fields of the ledger instead of text in the meta table.
- New mandates: the term is a whole number of days, and the random id is a parameter.
- Effects.StepEffect: approve and refund are one step each; their overlap is the subject of OperatorOverlap, which is about conservation.
- Receipt verification: it is assumed not to throw, as is the store behind it.
- Deny list: payee normalization by NFKC and confusable folding and the operator's blocklist rule are not modelled; rules are arbitrary predicates wherever a theorem allows.
- Policy hash: a decision commits to the policy itself; the hash bytes and the signed disclosure are not modelled.
- Budget.BudgetHolds: is about unattended spend under terms that do not change; an approved intent keeps the mandate id of its first decision. Runs in which a payment is converted into the mandate's own currency are the subject of FxBudget.
- FxBudget.ConvertedBudgetIff: a payment is worth what the installation's rate makes it; rates that change during a run are not modelled.
- BurstLimit.BurstsStaySmall: mandates with a daily period switch the per-payee detectors off, so runs with them are excluded.
- ReplaySim.ReplayFixpointIff: without conversion, which the simulator has no rates for, with payments judged at the instant they were created, and for one policy that the run was under from its first decision on; a candidate policy of its own is covered only by the loop's specification.
- ReplaySession.SessionFixpointIff: sessions without refunds whose rails answer with a receipt; overlaps, refunds and failures are covered by ReplaySim.ReplayFixpointIff.
- Trajectory.CheckTrajectory: the violations are a set; their order and messages are not modelled.
- Oversight.DeployerOversightReport: the per-mandate counters and the texts of the deny reasons are not modelled; a confirmation that lets a blocked payment through is classified as the source does.
- Foreign exchange: rates and rounding are over reals.
- PostgresAdapter.PostgresHandle.constructor: the tables are ones this store leaves behind (PostgresAdapter.TablesStayConsistent); rows filed under a foreign key and trails with gaps, which something else would have to write, are not modelled.
- PostgresStore: one writer, but for PostgresFork, whose two processes do not restart; LISTEN/NOTIFY coherence, the operator key row, JSON column encodings and a flush that joins a drain already finishing are not modelled, nor is an old process's query landing after a restart.
- Canonical JSON: values with a toJSON method, cyclic values and big integers are not modelled; a finite number is its JSON text.
- AuditChain.HeadFixesLog: asks for an injective hash that never yields the genesis value or a line break; signatures are outside the claim when the logs use different keys.
- KeyCustody: the environment, static and ring providers are not modelled; a version's bytes never change.
- ERC-7710: EIP-712 hashing, signing, recovery and the default salt are not modelled; the salt is a parameter.
- Erc7710Laws.MandateSurvives: caps are numbers a double can hold, configured enforcer addresses are valid and distinct, the period length is not overridden, and dates lie in the range of the Date type.
- Retirement: growth is over exact reals.
- Siwa: signature recovery, nonce and registry checks are not modelled; a chain id that is not a plain decimal is kept as its text.
- HTTP servers, command line, notifiers, tracers, rail and identity adapters, personas and advisory texts: plumbing or prose.
