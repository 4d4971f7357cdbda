# Verification of the trading agent's decision core

This project models, in Dafny, the deterministic code that decides what the paper trading agent may
do, and proves what that code promises. `dafny verify dfyconfig.toml` checks all of it.

**Approvals and crash recovery** (`WorkflowTable`, `WorkflowAnswers`, `OrderStates`,
`RecoveryProtocol`, `RecoveryService`). The workflow table is a map of rows that transactions
rewrite in place under compare-and-swap versions and leases. `WorkflowTable` specifies each
transaction as a function of the table, proves the class that performs it equal to that function,
and derives what every history keeps; `WorkflowAnswers` says when each transaction succeeds and what
it leaves. `RecoveryProtocol` lets any number of recovery workers interleave at every read, write
and broker request, crash anywhere and lose their leases; the durable steps of the executor are part
of it, whether recovery calls it or another process does. `RecoveryService` is the recovery pass
itself, and logs every write it makes as a step of that protocol. The central result is that the
broker is asked at most once per intent, in every run.

**Cross-asset allocation** (`AllocationModel`, `AllocationScore`, `AllocationRanking`, `Allocation`,
`AllocationPlan`, `AllocationLimits`, `AllocationVariance`, with `Arrangement` for sorting and
`Sums` for exposure dictionaries). Scoring, ranking and the greedy loop over ten interacting
capacities: the books balance after every grant, nothing is overdrawn, each decision grants the most
that the policy allows on what better candidates left, no plan passes the policy's percentages or
the code's ceilings, the plan depends on the candidates and not on their order, and the reported
variance is a sound upper bound that is reached exactly when no new position hedges.

**Shadow outcomes and canonical decimals** (`Outcomes`, `DecimalText`). The bar scan is proved
against the sentence that describes it, stop before target, and a completed outcome is final.
Canonical text names the value of a decimal.

**Crypto portfolio risk** (`CryptoEvidence`, `CryptoMeasures`, `CryptoRiskPolicy`,
`CryptoAuthority`, `CryptoRun`, `CryptoHeat`, `CryptoOrderCount`, `CryptoSeen`). Broker orders and
durable intents are merged by identity, ceilings are derived from the aggregate and grant exactly
what fits every limit, and whole runs of reserving, submitting, filling and closing keep every limit
but two, for which the exact conditions are proved.

**Conviction, sizing, stop heat, candidates and targets** (`Conviction`, `ConvictionLimits`,
`Sizing`, `SizingLimits`, `StopHeat`, `CryptoCandidate`, `ProposalTarget`, with `Quotients` for
arithmetic). Better evidence never permits less risk, risk and size are permitted exactly within
every limit, revalidation never raises a size, heat and exposures equal their breakdowns, built
candidates meet the allocator's checks, and the proposal target is the lowest tick that keeps its
promise.

## What turned out differently

- A marked intent is never sent twice, but it can be returned to `retryable_pre_submission` when a
  lease lapses between reading its marker and writing its state (app/approval_workflow.py:517-540),
  or when the executor runs outside recovery, where it takes no lease at all.
  `LapsedLeaseMakesMarkedIntentRetryable` and `ExecutorWithoutLeaseMakesMarkedIntentRetryable` are
  such runs; `ReadyIntentsWereNeverSent` excludes it for all runs of recovery workers in which no
  lease lapses. At most one broker request holds either way, because the marker transaction compares
  and swaps the marker itself (app/execution.py:2925-2962).
- The crypto heat limit is not kept by fills: a reservation counts for its stop risk, the position
  it fills for its full market value (app/crypto_risk.py:366-368). `FilledOrderCanBreakHeat` is a
  three-step run from an empty account. `HeatIsSafeIffCommittedFits` says from which accounts no run
  can break it: those whose positions fit the limit together with, for each reserved buy, the larger
  of its stop risk and its notional, since a recorded fill lowers both in one ratio
  (app/crypto_paper_lane.py:3783-3796). `HeatStaysSafeIffReservationsLeaveRoom` gives the guard
  under which buys would have to be reserved for whole runs to keep it.
- The bound on unresolved crypto orders is checked for buys only (app/crypto_risk.py:962-969).
  `SellPassesOrderCount` is an allowed run that ends with three orders where two are allowed;
  `CountHoldsIffSellsFindSlots` says that a run keeps the bound exactly when its sells pass the test
  that buys must pass.
- A shadow trade can lose more than one R, exactly when its first event is a bar past the horizon
  that closes beyond its stop (app/crypto_outcomes.py:962-971, `LosesMoreThanRiskIffLate`).
- A portfolio snapshot fails the allocator's reconciliation exactly when a reserved symbol is not
  held, because reservations enter the exposed symbols but not the position count
  (app/cross_asset_runtime.py:603-604, 702; `SnapshotReconcilesIffReservedIsHeld`,
  `LoneClaimDoesNotReconcile`).
- At final revalidation a displayed quantity or stop risk adds its name to the expected ceilings,
  but not to the names that need no listed sidecar (app/adaptive_sizing.py:368-374, 430-437). Unless
  the caller lists `displayed_quantity` and `displayed_stop_risk` among the sizing-cap sidecars, the
  size is zero (`DisplayedCeilingNeedsListedSidecar`). The sizing-cap sidecars written at
  app/service.py:12885-12904 and 13097 do not list them.
- A target multiple of zero makes the guard behind the proposal target fire exactly when break-even
  is a price on the grid and the strategy asks for no more; for every positive multiple it cannot
  fire (`GuardFiresIffBreakEven`). The strategy policy demands a multiple of at least 1.25
  (app/crypto_strategies.py:260), so zero is not a configured input.

## Model

| member | source | states |
|---|---|---|
| `WorkflowTable.ApprovalWorkflowStore.constructor` | `app/approval_workflow.py:138-140` | a new store holds an empty table |
| `WorkflowTable.ApprovalWorkflowStore.CreateOrGet` | `app/approval_workflow.py:155-199` | the whole new table and the reply: the existing workflow of the approval or update, a conflict when the proposal already has a live one, or one new row; one `Create` transaction of the specification |
| `WorkflowTable.ApprovalWorkflowStore.AcceptApproval` | `app/approval_workflow.py:201-294` | the whole new table and the reply of accepting an approval, with the same three uniqueness rules and the states the row walks through |
| `WorkflowTable.ApprovalWorkflowStore.Transition` | `app/approval_workflow.py:296-349` | the whole new table and the reply of a compare-and-swap on version and owner: refused when stale, fenced or not an allowed transition, idempotent on the same state, otherwise one row rewritten with its version raised |
| `WorkflowTable.ApprovalWorkflowStore.ClaimNext` | `app/approval_workflow.py:351-378` | takes the oldest claimable row in (updated_at, id) order and leases it, or answers that there is none |
| `WorkflowTable.ApprovalWorkflowStore.ReleaseClaim` | `app/approval_workflow.py:380-396` | gives the row back only for the token that holds it |
| `WorkflowTable.ApprovalWorkflowStore.MarkUpdateProcessed` | `app/approval_workflow.py:398-423` | marks a row processed only when it has an intent or lies in a represented state |
| `WorkflowTable.ApprovalWorkflowStore.LinkIntent` | `app/execution.py:1138-1144` | the workflow update inside intent creation links the intent to an approved row, once |
| `WorkflowTable.StepExtends` | `app/approval_workflow.py:52-117` | every transaction of every caller only progresses each row: identities stay, the phase rank never falls, terminal states are never left, marks stay, each change raises the version |
| `WorkflowTable.StepWritesOneRow` | `app/approval_workflow.py:296-349` | a transaction writes at most the row it answers with and bumps that row's version by one |
| `WorkflowTable.StepKeepsUnique` | `app/approval_workflow.py:167-197` | approval ids, update ids and live workflows per proposal stay unique under every transaction |
| `WorkflowTable.StepKeepsProcessed` | `app/approval_workflow.py:398-423` | a processed row keeps an intent or a represented state |
| `WorkflowTable.ReachableTablesAreSound` | `app/approval_workflow.py:167-292` | in every reachable table: one workflow per approval id, one per update id, one live workflow per proposal, and processed rows stand for something durable |
| `WorkflowTable.HistoryOnlyProgresses` | `app/approval_workflow.py:52-117` | between any two moments of any history no row disappears, falls back in rank, leaves a terminal state or is unmarked |
| `WorkflowTable.LeaseIsExclusive` | `app/approval_workflow.py:351-396` | while a lease runs and its holder neither claims nor releases, no other claim returns the row and no other release touches it, in any history |
| `WorkflowTable.LostTokenIsFenced` | `app/approval_workflow.py:296-349` | after a row is lost, every transition or release with the old token is refused and changes nothing until its owner claims again |
| `WorkflowTable.ClaimDisplaces` | `app/approval_workflow.py:351-378` | a claim puts the row under the winner's lease and takes it from everybody else |
| `WorkflowTable.ReachableIsRankOrder` | `app/approval_workflow.py:52-117` | the transition table closed under repetition is exactly the rank order, except that a workflow that reached the broker can no longer be blocked |
| `WorkflowTable.AllowedByRule` | `app/approval_workflow.py:52-117` | the transition table exactly, as a rule: one stage at a time, closing from everywhere, blocking before the intent or while waiting for submission, uncertainty once the intent exists, and two pairs that alternate |
| `OrderStates.AllowedByRule` | `app/order_state.py:53-127` | the order table exactly, as a rule by target state |
| `OrderStates.NoWayBack` | `app/order_state.py:53-127` | no order state leads back before the broker, only a submission leads to it, and the dead ends are the closed states |
| `WorkflowAnswers.InsertionAnswers` | `app/approval_workflow.py:155-199` | exactly when a new row enters, an existing one answers, the display or the row id fails |
| `WorkflowAnswers.AcceptedApprovalStarts` | `app/approval_workflow.py:201-294` | the row an accepted approval leaves: its target resolved, no intent, unclaimed and untried |
| `WorkflowAnswers.MoveIsFenced` | `app/approval_workflow.py:296-349` | a transition succeeds exactly for a row with the expected state, version and owner and an allowed or equal target; what it writes and what it leaves |
| `WorkflowAnswers.ClaimTakesTheOldest` | `app/approval_workflow.py:351-378` | a claim takes the row that waited longest among those not closed and not under somebody else's running lease, for at least a second, or there is none |
| `WorkflowAnswers.ReleaseEndsTheClaim` | `app/approval_workflow.py:380-396` | a release succeeds exactly for the holder and ends the claim and nothing else |
| `WorkflowAnswers.MarkingNeedsARecord` | `app/approval_workflow.py:398-423` | an update is marked processed exactly when its row has an intent or is blocked, unknown, terminal or under manual review |
| `WorkflowAnswers.LinkingNeedsApproval` | `app/execution.py:1138-1144` | an intent is linked exactly to the approved row of its approval that has none |
| `RecoveryProtocol.StepKeepsTokens` | `app/execution.py:2925-2962` | each step of each worker keeps every set marker worth at most one broker request, in the hands of at most one worker |
| `RecoveryProtocol.AtMostOneBrokerRequest` | `app/approval_workflow.py:477-928` | in every run of any number of recovery workers and of executors called from outside recovery, with crashes and lost leases anywhere, an intent is sent to the broker at most once, and only marked; no proviso about leases is needed |
| `RecoveryProtocol.StepAfterTheBroker` | `app/approval_workflow.py:848-917` | no step of anybody adds a broker request for a workflow past submission, and no recovery step enters its submission callback |
| `RecoveryProtocol.NoRequestAfterTheBroker` | `app/approval_workflow.py:739-917` | from SUBMITTED, UNKNOWN or a closed state no number of steps of anybody reaches the broker again, and none of recovery reaches the submitter |
| `RecoveryProtocol.StepKeepsPhases` | `app/approval_workflow.py:477-928` | a worker stays on its row and its row's intent, whatever the others do |
| `RecoveryProtocol.LeasedRunsStayLeased` | `app/approval_workflow.py:351-378` | in runs of recovery workers in which no claim takes a row from a live worker, each worker holds the lease of its row and each row has one worker |
| `RecoveryProtocol.ReadyIntentsWereNeverSent` | `app/approval_workflow.py:517-540` | in runs of recovery workers without a lapsed lease an intent that is created, reserved or retryable has a clear marker and was never sent |
| `RecoveryProtocol.LapsedLeaseMakesMarkedIntentRetryable` | `app/approval_workflow.py:524-531` | the proviso about leases is needed: a concrete run in which a lapsed lease lets a second worker return a marked, sent intent to retryable |
| `RecoveryProtocol.ExecutorWithoutLeaseMakesMarkedIntentRetryable` | `app/execution.py:2853-2879` | so is the other one: the executor outside recovery holds no lease, and the same happens in a run in which none lapses |
| `RecoveryService.PassesAskAtMostOnce` | `app/approval_workflow.py:477-928` | any number of recovery passes, cut short anywhere, ask the broker at most once per intent |
| `RecoveryService.CallbackLeaves` | `app/approval_workflow.py:802-847` | what a ready, unmarked intent and its workflow are left as, by what the adapter answered: SUBMITTED exactly for a clear acknowledgement, with the acknowledged state; UNKNOWN exactly for every other answer but a proved no-request; rejected, expired and queued each for their causes |
| `RecoveryService.FollowingIsJustified` | `app/approval_workflow.py:672-738` | a followed intent queues its workflow only if provably unsent, closes it exactly when the order can change no more, and calls it submitted exactly when a live order is known |
| `RecoveryService.RowsEndWithCause` | `app/approval_workflow.py:500-923` | a processed row ends submitted or terminal exactly when there is a cause; an uncertain one is never queued, and nothing moves without a lookup callback |
| `RecoveryService.RefusalsLeave` | `app/approval_workflow.py:763-801` | what each refusal of the action callback leaves of the intent: expired, retryable if unmarked, or untouched |
| `RecoveryService.RecoveryService.constructor` | `app/approval_workflow.py:138-140` | a new service starts with an empty table, no intents and an empty log |
| `RecoveryService.RecoveryService.MoveRow` | `app/approval_workflow.py:296-349` | one fenced transition of the claimed row: it succeeds exactly for the same or an allowed state, and is one logged protocol step |
| `RecoveryService.RecoveryService.ClaimNextRow` | `app/approval_workflow.py:351-378` | a claim takes the next claimable row under a 30 second lease, or proves there is none |
| `RecoveryService.RecoveryService.ReleaseRow` | `app/approval_workflow.py:380-396` | releasing clears the claim and raises the version, and nothing else |
| `RecoveryService.RecoveryService.ReturnUnsent` | `app/approval_workflow.py:524-531` | an intent stuck in submitting with a clear marker becomes retryable; the table and the broker are left alone |
| `RecoveryService.RecoveryService.EnsureIntent` | `app/approval_workflow.py:426-475` | on success the workflow has its intent: the linked one with nothing changed, else any that its approval already has, else a new reserved one, the latter two in INTENT_CREATED; a refusal changes nothing |
| `RecoveryService.RecoveryService.Validate` | `app/approval_workflow.py:541-602` | each decision of the validation callback and the state it leads to; an unsupported decision changes nothing |
| `RecoveryService.RecoveryService.CreateAndQueue` | `app/approval_workflow.py:603-671` | each fate of an approved workflow and the state it ends in: MANUAL_REVIEW without its proposal, TERMINAL when blocked or ineligible, unchanged when deferred or unsupported, SUBMISSION_PENDING with its intent otherwise; nothing is sent |
| `RecoveryService.RecoveryService.QueueAgain` | `app/approval_workflow.py:674-698` | a ready or provably unsent intent is queued for submission and left ready |
| `RecoveryService.RecoveryService.FollowIntent` | `app/approval_workflow.py:672-738` | the workflow takes exactly the state its intent's state and marker stand for; nothing is sent |
| `RecoveryService.RecoveryService.ResumeIntent` | `app/approval_workflow.py:672-738` | without an intent the workflow goes to manual review, otherwise it follows the intent |
| `RecoveryService.RecoveryService.Reconstruct` | `app/approval_workflow.py:707-731` | a broker-relevant intent takes its workflow through SUBMISSION_STARTED to the state it shows |
| `RecoveryService.RecoveryService.Execute` | `app/service.py:438-500` | each course of the submission callback, with the adapter's answer if there was one: the exact intent, workflow state and broker requests it leaves; only an unmarked intent linked by its started workflow passes the marker, and it is requested at most once |
| `RecoveryService.RecoveryService.SendOnce` | `app/execution.py:2825-2962` | from submitting to the recorded answer, or to the rejection: the exact intent, workflow state and requests of each course, with the marker transaction before any request |
| `RecoveryService.RecoveryService.CallAdapter` | `app/execution.py:2989-3112` | an adapter that proves no request began leaves the intent rejected and unmarked and the workflow closed; a failure before the adapter leaves it rejected and marked; every other answer is one request |
| `RecoveryService.RecoveryService.RecordAnswer` | `app/execution.py:3003-3062` | a state other than unknown is recorded only if the adapter acknowledged that state, and an acknowledged submitted, partially filled or filled is recorded as such; the workflow becomes SUBMITTED or UNKNOWN with it; if recording fails, intent and workflow stay as they were; nothing is sent |
| `RecoveryService.RecoveryService.SubmitPending` | `app/approval_workflow.py:739-847` | each handling of a queued workflow and the intent, workflow state and requests it leaves: without an intent, not ready, held back by the action callback, or through the submission callback, whose outcome is always recorded |
| `RecoveryService.RecoveryService.HoldBack` | `app/approval_workflow.py:763-801` | each refusal of the action callback: the exact intent and workflow it leaves, with nothing sent |
| `RecoveryService.RecoveryService.Settle` | `app/approval_workflow.py:808-829` | an exception from the callback means retry exactly when the marker is clear, with an intent still submitting made retryable, and unknown otherwise; other outcomes change nothing |
| `RecoveryService.RecoveryService.Conclude` | `app/approval_workflow.py:830-847` | the outcome of the callback decides the workflow's state, or the transition is refused and nothing changes |
| `RecoveryService.RecoveryService.LookUp` | `app/approval_workflow.py:848-917` | broker-relevant workflows take the looked-up outcome and never send; without a lookup callback they stay as they are |
| `RecoveryService.RecoveryService.LinkExisting` | `app/approval_workflow.py:506-516` | an existing intent is linked exactly when the row has none |
| `RecoveryService.RecoveryService.RequeueUnsent` | `app/approval_workflow.py:517-540` | a started submission is queued again exactly when its intent is unmarked and submitting or retryable; otherwise nothing changes |
| `RecoveryService.RecoveryService.ProcessRow` | `app/approval_workflow.py:500-923` | the state in which one claimed row ends, by the intent found, what validation decided and the work done for its stage; requests are only those of the submission callback; no other row is touched |
| `RecoveryService.RecoveryService.TakeTurn` | `app/approval_workflow.py:492-499` | one turn claims the next row; a row seen before is only released, a new one is counted once |
| `RecoveryService.RecoveryService.Recover` | `app/approval_workflow.py:477-928` | a pass by a worker that runs alone is a run of the protocol, claims no row twice, touches no row it does not claim, and claims every row that was claimable at its start if max_items covers those that become due, for which those due at the start are enough when no other lease ends before the pass does |
| `RecoveryService.NothingNewLeft` | `app/approval_workflow.py:351-378` | processed rows are younger, so a claim that brings nothing new proves that nothing claimable is left |
| `RecoveryService.NextRowExists` | `app/approval_workflow.py:351-378` | a next row in claim order exists exactly when some row is claimable |
| `AllocationScore.ScoreIsPercentage` | `app/cross_asset_allocation.py:1076-1142` | the score of an accepted candidate lies in [0, 100] |
| `AllocationScore.ScoreRespectsDominance` | `app/cross_asset_allocation.py:1076-1142` | a candidate at least as good in all thirteen scored respects, in the same sleeve, scores at least as high |
| `AllocationScore.ComponentsInWords` | `app/cross_asset_allocation.py:1076-1142` | each component: rewards as shares of their targets, burdens as what is left of their limits, severe loss and correlation as complements |
| `AllocationScore.ScoreWeighsComponents` | `app/cross_asset_allocation.py:1076-1142` | candidates alike but in one component differ by its difference times its weight and the two multipliers |
| `AllocationScore.MultipliersScaleScore` | `app/cross_asset_allocation.py:1076-1142` | uncertainty and drawdown scale the score down in proportion, to zero at the drawdown limit |
| `AllocationScore.OnlyPerfectScoresHundred` | `app/cross_asset_allocation.py:1076-1142` | a candidate scores 100 exactly when it is certain, without drawdown and perfect in every weighted respect |
| `Arrangement.ArrangedIsSortedPermutation` | `app/cross_asset_allocation.py:1292` | sorting keeps every element and puts none after one it should precede |
| `Arrangement.StrictArrangementIsUnique` | `app/cross_asset_allocation.py:1292` | without ties there is one arrangement of the same elements |
| `AllocationRanking.RankingIsSortedPermutation` | `app/cross_asset_allocation.py:1292` | better scores first, equal scores by id, nobody lost |
| `AllocationRanking.RankingIgnoresArrivalOrder` | `app/cross_asset_allocation.py:1292` | the ranked list is the same for every order of arrival |
| `AllocationRanking.NewcomerKeepsPrefix` | `app/cross_asset_allocation.py:1292` | a newcomer moves nobody ranked ahead of it |
| `Allocation.DecisionIsExact` | `app/cross_asset_allocation.py:1335-1463` | a decision grants exactly the least of request and caps, or nothing; nothing exactly when there is a reason; otherwise at least the minimum |
| `Allocation.ChargeKeepsBalance` | `app/cross_asset_allocation.py:1441-1452` | granting any amount keeps cash, all breakdowns and the position counts reconciled |
| `Allocation.GrantFits` | `app/cross_asset_allocation.py:1345-1429` | what is granted fits every cap, including the four heats after conversion from notional |
| `Allocation.ChargeStaysWithinLimits` | `app/cross_asset_allocation.py:1441-1452` | no capacity passes the larger of its limit and its starting value |
| `Allocation.EveryPostingFits` | `app/cross_asset_allocation.py:1335-1452` | every posting of the loop fits the ledger that those before it left |
| `Allocation.LoopKeepsLedgerSound` | `app/cross_asset_allocation.py:1307-1452` | after every candidate of every ranked list the books balance and nothing is overdrawn |
| `AllocationVariance.VarianceBoundIsSound` | `app/cross_asset_allocation.py:1519-1544` | for all pairwise correlations in [-1, 1] and the given ones to the portfolio the true variance is at most the reported bound |
| `AllocationVariance.VarianceBoundIsReached` | `app/cross_asset_allocation.py:1519-1544` | correlations that reach the bound exist exactly when no new position that carries risk is negatively correlated with the portfolio |
| `AllocationPlan.PlanLeavesSoundLedger` | `app/cross_asset_allocation.py:1307-1452` | the state after any plan meets the reconciliation equations of an input snapshot, stays within limits, and cash spent equals gross added |
| `AllocationPlan.PlanDecisionsAreExact` | `app/cross_asset_allocation.py:1335-1463` | the k-th decision is exactly what the k better candidates left, or zero with a reason, and never below the minimum |
| `AllocationPlan.DominatingCandidateRanksAhead` | `app/cross_asset_allocation.py:1076-1292` | a dominating candidate is behind only on an equal score and a larger id |
| `AllocationPlan.PlanIgnoresArrivalOrder` | `app/cross_asset_allocation.py:1190-1292` | acceptance and plan are the same for every permutation of the candidates |
| `AllocationPlan.NewcomerKeepsDecisions` | `app/cross_asset_allocation.py:1335-1463` | a candidate that ranks at or below position k leaves the first k decisions unchanged |
| `AllocationPlan.PlanVarianceBoundIsSound` | `app/cross_asset_allocation.py:1519-1545` | the variance bound of every plan is sound |
| `AllocationPlan.GrantsAreLoaded` | `app/cross_asset_allocation.py:1519-1525` | every granted position enters the variance with its share of equity times its volatility and its own correlation |
| `AllocationPlan.CheckSnapshot` | `app/cross_asset_allocation.py:692-840` | the snapshot check accepts exactly the snapshots whose amounts are in range and reconcile |
| `AllocationPlan.Spend` | `app/cross_asset_allocation.py:1441-1452` | the bookkeeping of one grant moves every total by the granted amount and risk |
| `AllocationPlan.Walk` | `app/cross_asset_allocation.py:1335-1463` | the loop computes the decisions and the ledger of the specification |
| `AllocationPlan.Optimize` | `app/cross_asset_allocation.py:1145-1463` | the optimizer refuses exactly the inputs that validation refuses and otherwise computes the plan, whose limits, amounts, reasons and bookkeeping `AllocationLimits` states in terms of snapshot and policy |
| `AllocationLimits.PlanStaysWithinPolicy` | `app/cross_asset_allocation.py:1307-1452` | after any plan every symbol, cluster and sleeve exposure, every heat and every position count is within the policy's percentage of equity or where it began, gross and total heat under the throttle, and what is spent leaves the cash reserve and stays within buying power |
| `AllocationLimits.PlanGrantsMost` | `app/cross_asset_allocation.py:1335-1463` | the k-th best candidate gets the most that the policy allows on what the better ones left, or nothing and exactly the reasons that apply; the reasons are stated on candidate, snapshot and policy |
| `AllocationLimits.PlanIsInProportion` | `app/cross_asset_allocation.py:1430-1463` | rank, requested amount, verdict and scale of every decision, and its risks in proportion to what is granted |
| `AllocationLimits.PlanReportsBindingLimits` | `app/cross_asset_allocation.py:1439` | a limit is reported as binding exactly when the whole request would reach it on what the better candidates left |
| `AllocationLimits.PlanSpendsWhatItGrants` | `app/cross_asset_allocation.py:1440-1448` | what the first k candidates leave is the snapshot plus what they were granted, in every breakdown, and the deployable cash less that |
| `AllocationLimits.PlanCountsPlaces` | `app/cross_asset_allocation.py:1449-1452` | the places taken are exactly the symbols that had no exposure before, and the counts are those of exposed symbols |
| `AllocationLimits.PlanStaysUnderCodeCeilings` | `app/cross_asset_allocation.py:921-1044` | whatever policy is accepted, no plan passes the ceilings written in the code, and a fifth of equity stays in cash |
| `AllocationLimits.CodeHaltsStopGrants` | `app/cross_asset_allocation.py:921-1003` | whatever policy is accepted, nothing is granted past the code's halts, on an unhealthy system, or beyond its bounds on cost, volatility, liquidity and drawdown |
| `Outcomes.NormalizeBars` | `app/crypto_outcomes.py:778-790` | the bars after the signal, once each and in time order; an error exactly for an invalid bar or a repeated time |
| `Outcomes.Scan` | `app/crypto_outcomes.py:918-980` | the scan returns what the first gap, stop, target or horizon event decides; `StopComesBeforeTarget` and `UneventfulTradesMature` state it on the bars |
| `Outcomes.CalculateShadowOutcome` | `app/crypto_outcomes.py:897-980` | the observation is the normalized bars with the outcome of the first event, or the error of setup or bars; bars, outcome and amounts are stated on the input by `BarsAfterSignal`, `StopComesBeforeTarget`, `UneventfulTradesMature` and `CompletedAccounts` |
| `Outcomes.StopComesBeforeTarget` | `app/crypto_outcomes.py:921-971` | with the first bar that is not uneventful: a missing hour leaves the trade open; a stop reached by the deadline exits at the stop even if the target is reached too; a target only if the stop is not; anything else closes at the bar's close, due |
| `Outcomes.UneventfulTradesMature` | `app/crypto_outcomes.py:973-980` | while every bar is uneventful the trade matures, with the reason that fits |
| `Outcomes.BarsAfterSignal` | `app/crypto_outcomes.py:778-790` | the bars that count are exactly those of the input after the signal, in the order of their times |
| `Outcomes.CompletedAccounts` | `app/crypto_outcomes.py:818-848` | returns, profits, risk amount and R multiples of a completed trade, by its gain at the exit price, its costs and its distance to the stop |
| `Outcomes.OutcomeIsUnique` | `app/crypto_outcomes.py:921-980` | the first-event sentence determines the outcome |
| `Outcomes.ObservationIgnoresOrder` | `app/crypto_outcomes.py:778-790` | the order of the bars and the bars up to the signal do not matter |
| `Outcomes.CompletedOutcomeStays` | `app/crypto_outcomes.py:921-971` | a completed outcome is the same for every bar list that agrees between signal and exit |
| `Outcomes.LaterBarsChangeNothing` | `app/crypto_outcomes.py:921-971` | appending later bars changes no completed outcome |
| `Outcomes.HoldingIsBounded` | `app/crypto_outcomes.py:845-873` | holding time is above zero and below horizon + 1 hour; at least the horizon for a horizon close, at most it otherwise |
| `Outcomes.RMultiples` | `app/crypto_outcomes.py:824-848` | R multiples do not depend on quantity, and every exit pays the same costs in R |
| `Outcomes.PricesInR` | `app/crypto_outcomes.py:818-848` | on both sides the stop is worth -1 R, the target a positive R, and prices rank accordingly |
| `Outcomes.OutcomeInsideBarriers` | `app/crypto_outcomes.py:934-960` | up to the horizon gross R lies in [-1, target R]; -1 exactly for a stop, target R exactly for a target |
| `Outcomes.LosesMoreThanRiskIffLate` | `app/crypto_outcomes.py:962-971` | a trade loses more than its risk exactly when the first event among its bars is a bar past the horizon, with no hour missing before it, that closes beyond the stop |
| `Outcomes.LateCloseCanLoseMore` | `app/crypto_outcomes.py:962-971` | a concrete setup and bars that close at -2 R |
| `DecimalText.RoundTrip` | `app/crypto_outcomes.py:161-176` | reading the canonical text of any finite decimal gives its value |
| `DecimalText.SameTextIffSameValue` | `app/crypto_outcomes.py:161-176` | two decimals have the same text exactly when their values are equal |
| `DecimalText.CanonicalTextIsIdempotent` | `app/crypto_outcomes.py:161-176` | a canonical text is its own canonical text |
| `DecimalText.FixedPointKeepsValue` | `app/crypto_outcomes.py:173` | fixed-point formatting keeps the value for every exponent |
| `DecimalText.StrippingKeepsValue` | `app/crypto_outcomes.py:174-175` | zeros at the end of a fraction do not count |
| `DecimalText.CanonicalTextIsRendered` | `app/crypto_outcomes.py:170-176` | stripping the text strips the fraction and the point, never the whole part |
| `DecimalText.ShiftKeepsText` | `app/crypto_outcomes.py:161-176` | moving a zero between coefficient and exponent keeps the text |
| `DecimalText.NormalFormIsUnique` | `app/crypto_outcomes.py:161-176` | there is one decimal without trailing zeros for each nonzero value |
| `DecimalText.CanonicalTextIsPlain` | `app/crypto_outcomes.py:161-176` | a canonical text has a sign exactly for negative values and no superfluous zero in front or behind |
| `CryptoEvidence.FileOrders` | `app/crypto_risk.py:770-780` | the exposure groups after all broker orders hold, in each of four fields, the largest amount per identity |
| `CryptoEvidence.FileIntents` | `app/crypto_risk.py:781-790` | the same after the durable intents, merged by identity |
| `CryptoEvidence.CollectActive` | `app/crypto_risk.py:805-819` | the identities and symbols of unresolved crypto orders |
| `CryptoEvidence.AggregateEvidence` | `app/crypto_risk.py:734-847` | the aggregate that the evidence describes, or an error exactly when an amount is negative |
| `CryptoEvidence.LargestIsMaximum` | `app/crypto_risk.py:773-790` | what is filed under an identity is the largest of its amounts, and nothing else is filed |
| `CryptoEvidence.LargestOfTwoSources` | `app/crypto_risk.py:767-790` | filing both sources is filing each and taking the larger per identity |
| `CryptoEvidence.PendingIsBounded` | `app/crypto_risk.py:791-794` | a pending total is at most both sources together, and at least each source's own when its identities are distinct |
| `CryptoEvidence.RepeatedIdentityIsMerged` | `app/crypto_risk.py:772-780` | with a repeated identity a source can show more than the total keeps |
| `CryptoMeasures.PositionCounts` | `app/crypto_risk.py:741-765` | what a position counts for in each measure |
| `CryptoMeasures.OrderCounts` | `app/crypto_risk.py:771-780` | what an open broker order counts for in each measure |
| `CryptoMeasures.IntentCounts` | `app/crypto_risk.py:781-790` | what a durable intent counts for in each measure |
| `CryptoMeasures.IdentitiesInWords` | `app/crypto_risk.py:772-782` | a client id identifies orders and intents alike, else the record's own id does |
| `CryptoMeasures.NamelessRecordsStayApart` | `app/crypto_risk.py:772-782` | records without any id are never merged |
| `CryptoMeasures.AggregateNests` | `app/crypto_risk.py:734-847` | symbol amounts are part of crypto amounts and those of all amounts, held and pending, and open heat is the market value of held crypto |
| `CryptoMeasures.AverageIsBetween` | `app/crypto_risk.py:746-764` | the average entry lies between the lowest and the highest entry price |
| `CryptoMeasures.HoldingsAreCounted` | `app/crypto_risk.py:839` | the crypto positions with a quantity are the holdings that the position limit counts |
| `CryptoMeasures.HeldInWords` | `app/crypto_risk.py:745` | a symbol is held exactly if one of its crypto positions has a quantity |
| `CryptoMeasures.AverageIsKnown` | `app/crypto_risk.py:746-764` | the average entry is known exactly if one of those positions has an entry price |
| `CryptoRiskPolicy.Derive` | `app/crypto_risk.py:874-1006` | ceilings and failed checks of one request, with the order of the zeroing rules resolved |
| `CryptoRiskPolicy.BuyFitsEveryLimit` | `app/crypto_risk.py:929-969` | a buy at or below its ceiling fits total, sleeve, cluster, symbol, cash reserve, buying power and order size, and finds a free order slot |
| `CryptoRiskPolicy.UnthrottledCeilingIsExact` | `app/crypto_risk.py:929-969` | without a throttle the ceiling admits exactly the amounts that fit every limit and rule |
| `CryptoRiskPolicy.StopRiskFits` | `app/crypto_risk.py:970-974` | a stop risk at or below its ceiling fits the trade limit and the remaining heat |
| `CryptoRiskPolicy.NoBuyWhenHalted` | `app/crypto_risk.py:892-919` | no heat left, a loss halt, or a drawdown or volatility halt fails every buy |
| `CryptoRiskPolicy.SellsIgnoreOrderCount` | `app/crypto_risk.py:962-969` | a sell is judged without the number of unresolved orders; what follows for runs is in `CryptoOrderCount` |
| `CryptoAuthority.ThrottleInWords` | `app/crypto_risk.py:892-919` | the throttle is zero exactly when losses, drawdown or volatility halt; between start and halt it is the multiplier, the smaller of the two if both apply; before both starts it is one |
| `CryptoAuthority.GrantsNothing` | `app/crypto_risk.py:918-969` | no order is granted without an accepted policy and account, after a halt, or where it may not stand beside what there is |
| `CryptoAuthority.GrantsWhatFits` | `app/crypto_risk.py:929-938` | otherwise a positive amount is granted exactly when what it would be without the throttle keeps every limit in dollars, for every throttle |
| `CryptoAuthority.GrantsRiskThatFits` | `app/crypto_risk.py:970-974` | a positive stop risk is granted exactly when what it would be without the throttle keeps the limits of trade risk and heat |
| `CryptoAuthority.ChecksAreExact` | `app/crypto_risk.py:975-994` | the authority reports exactly the checks that fail, each stated on policy, account, aggregate and request |
| `CryptoRun.PutChangesOneGroup` | `app/crypto_risk.py:767-794` | changing one identity changes a pending total by what that identity counts for |
| `CryptoRun.StepKeepsExposure` | `app/crypto_risk.py:929-937` | reserve, submit, fill and close keep total, sleeve, cluster and every symbol limit |
| `CryptoRun.StepKeepsCash` | `app/crypto_risk.py:935` | every step keeps the cash reserve plus all pending crypto buys funded |
| `CryptoRun.StepKeepsOnePerSymbol` | `app/crypto_risk.py:963-969` | every step keeps at most one unresolved crypto order per symbol |
| `CryptoRun.StepKeepsOrderCount` | `app/crypto_risk.py:962-967` | every step keeps at most maximum_positions unresolved crypto buys; sells are the subject of `CryptoOrderCount` |
| `CryptoRun.RunKeepsLimits` | `app/crypto_risk.py:874-974` | total, sleeve, cluster, symbol and cash limits, one order per symbol and the bound on buys hold after every run from a state within them; heat and the count of all orders follow below |
| `CryptoRun.RunStaysUnderCodeCeilings` | `app/crypto_risk.py:195-234` | whatever the policy, total, sleeve and symbol exposure stay at or below 50%, 5% and 3% of equity |
| `CryptoHeat.HeatAfterStep` | `app/crypto_risk.py:366-368` | a buy fill replaces stop risk by market value; no other step takes heat above its limit |
| `CryptoHeat.CommittedAfterStep` | `app/crypto_paper_lane.py:3783-3796` | what is committed is heat plus, for each reserved buy, the excess of its notional over its stop risk; a fill, which lowers both by the ratio of the quantity left, never raises it, and a buy reservation raises it by the larger of the two |
| `CryptoHeat.FillEverything` | `app/crypto_paper_lane.py:3783-3788` | from every state some allowed run places what is not yet placed, fills open orders to the end, and so turns all that is committed into heat |
| `CryptoHeat.HeatIsSafeIffCommittedFits` | `app/crypto_paper_lane.py:3783-3796` | every allowed run without a new buy stays within the heat limit exactly when what is committed at its start fits the limit |
| `CryptoHeat.HeatStaysSafeIffReservationsLeaveRoom` | `app/crypto_risk.py:970-974` | a run with new buys keeps heat safe at every moment exactly when each buy is reserved with the committed amount and the larger of its stop risk and notional within the limit |
| `CryptoHeat.GuardedRunsKeepHeat` | `app/crypto_risk.py:970-974` | if buys are reserved under that guard, every run keeps the heat limit after every step |
| `CryptoHeat.HotLaneReservesNoBuy` | `app/crypto_risk.py:970-974` | at the heat limit no buy can be reserved |
| `CryptoHeat.SampleIsSound` | `app/crypto_risk.py:195-234` | the empty account of the counterexample is within all limits under an accepted policy |
| `CryptoHeat.SampleRunIsAllowed` | `app/crypto_risk.py:874-1006` | the reserve, submit and fill of every order of the counterexample's size or smaller are each allowed by the derived authority |
| `CryptoHeat.FilledOrderCanBreakHeat` | `app/crypto_risk.py:366-368` | the heat limit is not kept by fills: the run of an order of 1000 with a stop risk of 50 ends at a heat of 1000 against a limit of 200 |
| `CryptoOrderCount.StepKeepsCount` | `app/crypto_risk.py:962-969` | a step keeps the number of unresolved crypto orders within maximum_positions unless it reserves a sell without a free slot |
| `CryptoOrderCount.CountHoldsIffSellsFindSlots` | `app/crypto_risk.py:962-969` | a run keeps that bound throughout exactly when each sell is reserved while a buy would still find a slot |
| `CryptoOrderCount.GuardedRunsKeepEveryLimit` | `app/crypto_risk.py:929-974` | under the guard for buys and the guard for sells a run keeps every limit, heat and order count included |
| `CryptoOrderCount.SellPassesOrderCount` | `app/crypto_risk.py:967-969` | without the guard the bound fails: from a sound account with one holding an allowed run ends with three unresolved orders where two are allowed |
| `CryptoSeen.EvidenceIsSeen` | `app/crypto_risk.py:734-847` | the aggregate of any listing with distinct identities is the one that the run model reserves against |
| `Conviction.Evaluate` | `app/adaptive_conviction.py:387-439` | the first of the least caps binds; a rejected opportunity gets nothing; only timed buys are decided; `ConvictionLimits` states class, mode, request and caps on the derived scores |
| `Conviction.RecommendedIsBounded` | `app/adaptive_conviction.py:411-439` | permitted risk is nonnegative, at most 0.35, the mode's cap, the request and the heat still open |
| `Conviction.ModesNeedTheirClass` | `app/adaptive_conviction.py:371-385` | AGGRESSIVE needs EXCEPTIONAL, OPPORTUNISTIC at least HIGH_CONVICTION |
| `Conviction.ClassIsMonotone` | `app/adaptive_conviction.py:352-369` | better evidence never lowers the class |
| `Conviction.ModeIsMonotone` | `app/adaptive_conviction.py:371-385` | better evidence never lowers the mode |
| `Conviction.CapsAreMonotone` | `app/adaptive_conviction.py:403-437` | no cap falls when evidence, class and mode rise |
| `Conviction.BetterEvidencePermitsNoLess` | `app/adaptive_conviction.py:351-439` | pointwise better scores, setup and reward, all else equal, never lower class, mode or permitted risk |
| `Conviction.DecideAll` | `app/adaptive_conviction.py:498-499` | replay decides each buy in order, and fails exactly on an untimed one |
| `Conviction.Replay` | `app/adaptive_conviction.py:498-546` | each decision is counted once in its mode and its class, and the list of contradictions is empty |
| `ConvictionLimits.ClassNeedsEvidence` | `app/adaptive_conviction.py:351-369` | a class is reached exactly with its setup, reward and all but one or two of the eight signals at its level, each signal known |
| `ConvictionLimits.ModeNeedsCapacity` | `app/adaptive_conviction.py:371-385` | a mode is reached exactly with its class and capacity; what forces defence |
| `ConvictionLimits.RequestScalesBase` | `app/adaptive_conviction.py:403-409` | the request is the strategy's base risk times five factors, each interpolated or at its default when unknown |
| `ConvictionLimits.PermitsWhatIsAllowed` | `app/adaptive_conviction.py:411-439` | a positive risk is permitted exactly when the opportunity is not rejected and every limit allows it: request, authority, mode, heat, gross, symbol and cluster |
| `ConvictionLimits.ExposuresRestrain` | `app/adaptive_conviction.py:417-424` | a known gross, symbol or cluster exposure at or above its target permits nothing, below it at most the free part of the mode's cap, an unknown one at most three quarters |
| `ConvictionLimits.ModesRaiseTargets` | `app/adaptive_conviction.py:33-38` | the targets of the four modes, each above the mode below it |
| `ConvictionLimits.OperationalInWords` | `app/adaptive_conviction.py:440` | the operational risk that is reported is the one handed in, if positive |
| `Sizing.TakeListed` | `app/adaptive_sizing.py:433-445` | the listed ceilings are taken over, or refused exactly when one is expected and missing or negative; unreadable ones are passed over |
| `Sizing.ExactCeilings` | `app/adaptive_sizing.py:426-485` | the complete exact ceilings, or none when anything they need is not exact |
| `Sizing.Constrain` | `app/adaptive_sizing.py:490-499` | the fold yields the least of the request and all ceilings |
| `Sizing.EvaluateExactly` | `app/adaptive_sizing.py:402-536` | the exact decision: gated least, quantity, stop risk, displayed value and final size |
| `Sizing.Evaluate` | `app/adaptive_sizing.py:280-654` | the exact decision, the fail-closed one, or the error, each in exactly its case; `SizingLimits` states sizes and outcomes on the request |
| `Sizing.SizeOnlyFalls` | `app/adaptive_sizing.py:487-530` | no size is negative or above request or ceiling; the final one is not above what was displayed; missing or blocked leaves zero |
| `Sizing.ApprovedQuantityHolds` | `app/adaptive_sizing.py:477-480` | the final quantity is at most the approved quantity |
| `Sizing.StopRiskHolds` | `app/adaptive_sizing.py:512-514` | stop risk is at most the conviction dollars, the hard limit of an active strategy, the approved stop risk and the open heat |
| `Sizing.TargetsHold` | `app/adaptive_sizing.py:457-469` | heat and gross end at or below the larger of before and the mode's target |
| `Sizing.OutcomeTellsTheSize` | `app/adaptive_sizing.py:525-536` | what each recorded outcome says about the final size |
| `Sizing.ApprovalNeverGrows` | `app/adaptive_sizing.py:515-527` | revalidating a proposal never raises its size |
| `Sizing.DegradedInputsGiveNothing` | `app/adaptive_sizing.py:588-614` | every inexact, missing or blocked input gives size zero |
| `Sizing.DisplayedCeilingNeedsListedSidecar` | `app/adaptive_sizing.py:430-437` | a displayed quantity or risk without a listed ceiling sidecar of the same name fails closed |
| `SizingLimits.NamedCeilingHolds` | `app/adaptive_sizing.py:340-374` | a ceiling that the caller lists and the engine neither removes nor replaces holds for the size and the final size; a negative one leaves nothing |
| `SizingLimits.CeilingWithoutSidecarGivesNothing` | `app/adaptive_sizing.py:430-437` | a ceiling without its exact sidecar, unless it is one that the engine derives, gives size zero |
| `SizingLimits.GrantsWhatIsPermitted` | `app/adaptive_sizing.py:402-509` | a positive size is granted exactly when nothing is missing or blocked, request and every ceiling permit it, and they permit the least executable notional |
| `SizingLimits.RevalidationGrantsWhatWasDisplayed` | `app/adaptive_sizing.py:526-530` | revalidation grants exactly what is still granted and was displayed, and nothing if blocked |
| `SizingLimits.OutcomeInWords` | `app/adaptive_sizing.py:528-536` | exactly when each outcome of a revalidation is recorded |
| `SizingLimits.SizesAgree` | `app/adaptive_sizing.py:512-514` | shares and stop risk are those of the notional, and a proposal is not cut further |
| `SizingLimits.UnreadableInputGivesNothing` | `app/adaptive_sizing.py:402-524` | every exact value that a decision rests on must be readable; one that is missing, not a number or negative gives size zero |
| `StopHeat.SymbolHeat` | `app/cross_asset_runtime.py:364-458` | the heat of one symbol and what it adds to each strategy, or a refusal exactly when its lots are unusable or do not reconcile |
| `StopHeat.PositionStopHeat` | `app/cross_asset_runtime.py:307-458` | total heat equals its sum by asset and by strategy on every path, with the exact content of each |
| `StopHeat.KnownRiskIsBounded` | `app/cross_asset_runtime.py:416-417` | evidenced risk is the open part of each lot's initial risk, and at most the initial risk |
| `StopHeat.SymbolRiskIsConservative` | `app/cross_asset_runtime.py:336-360` | a fully evidenced symbol carries at most its initial risk; one with anything unknown at least its market value |
| `StopHeat.LotInWords` | `app/cross_asset_runtime.py:369-417` | a lot carries the share of its initial risk that is still open; exactly when it lacks evidence, and when its risk is unknown |
| `StopHeat.SymbolRiskInWords` | `app/cross_asset_runtime.py:364-437` | a symbol carries the sum of what its lots carry, at least its market value if an open lot does not say what it risks |
| `StopHeat.StrategyCarriesItsLots` | `app/cross_asset_runtime.py:418-423` | a strategy carries the risk of its own lots |
| `StopHeat.ExcessIsExternal` | `app/cross_asset_runtime.py:434-441` | what market value adds beyond the lots is the external strategy's |
| `StopHeat.AddReservations` | `app/cross_asset_runtime.py:495-551` | claims are added to both totals and all breakdowns, or refused exactly when one is inexact or unnamed |
| `StopHeat.ActiveReservations` | `app/cross_asset_runtime.py:460-553` | both lanes together, with totals equal to their breakdowns |
| `StopHeat.HeldExposures` | `app/cross_asset_runtime.py:592-602` | what is held by symbol, cluster and asset sums to gross, and the counts to the number of positions |
| `StopHeat.MergeExposures` | `app/cross_asset_runtime.py:586-611` | merging adds reservation to position amounts key by key |
| `StopHeat.PortfolioSnapshot` | `app/cross_asset_runtime.py:575-611` | gross and heat of the snapshot equal all their breakdowns, with the exact content of each |
| `StopHeat.SnapshotReconcilesIffReservedIsHeld` | `app/cross_asset_runtime.py:702-704` | the snapshot passes the allocator's reconciliation exactly when every reserved symbol is held |
| `StopHeat.LoneClaimDoesNotReconcile` | `app/cross_asset_runtime.py:603-604` | one reservation and nothing held: the snapshot is built, balances, and does not reconcile |
| `CryptoCandidate.DiscoveryCandidatesAreConsistent` | `app/cross_asset_runtime.py:1018-1092` | every built cold-start or exploration candidate passes all economic checks, and is accepted exactly when its volatility is at most 10 |
| `CryptoCandidate.VerifiedCandidatesAreConsistent` | `app/cross_asset_runtime.py:986-1092` | a candidate with verified profitability passes exactly when its severe-loss rate is at most one minus its win probability and its holding time is at least 1e-12 days, or its daily rate is reproduced all the same |
| `CryptoCandidate.ProposedWithinBudgets` | `app/cross_asset_runtime.py:1019-1030` | a proposal is positive, in whole cents, and within order, discovery, exposure and risk budgets |
| `CryptoCandidate.ProposesTheMost` | `app/cross_asset_runtime.py:1019-1030` | the proposal is the largest amount of whole cents within the budgets, and there is one exactly when a cent is within them |
| `CryptoCandidate.BuiltInWords` | `app/cross_asset_runtime.py:1031-1092` | quantity, gain, costs, downside, edges, rates, probabilities and eligibility of every built candidate, by its prices, evidence and fees |
| `CryptoCandidate.EdgeIsMonotone` | `app/cross_asset_runtime.py:1034-1037` | the conservative edge is at most the expected one |
| `ProposalTarget.TargetIsRoundedUp` | `app/crypto_proposals.py:255-256` | the target is at or above the raw target and less than one increment above it |
| `ProposalTarget.RewardKeptIffCostAdjusted` | `app/crypto_proposals.py:252-261` | a price keeps the promised multiple after both fees exactly when it reaches the cost-adjusted target |
| `ProposalTarget.TargetIsLowestTick` | `app/crypto_proposals.py:252-256` | a tick honours the strategy's target and the promise exactly when it is at or above the target |
| `ProposalTarget.GuardFiresIffBreakEven` | `app/crypto_proposals.py:264-265` | for a positive multiple the guard never fires; for zero it fires exactly when break-even is a whole number of increments and the strategy's target is no higher |
| `ProposalTarget.GuardCanFire` | `app/crypto_proposals.py:264-265` | a concrete proposal on which it fires |
| `ProposalTarget.BuiltTargetKeepsPromise` | `app/crypto_proposals.py:246-265` | a built target keeps the multiple, a positive net reward and the strategy's target |
| `ProposalTarget.RewardsInWords` | `app/crypto_proposals.py:257-263` | gross and net reward of a built target, its execution cost on both legs, and the net multiple |

## Left out

- Decimal arithmetic is exact: amounts are reals, and the 28-digit rounding of the decimal context, `round(..., 8)` and the float projections beside exact values are not modelled.
- Text identifiers that are only compared are numbers, except where their text matters (order identities, ceiling names); hashes, fingerprints, JSON, SQL text, schema versions and the checks of all of these are one flag of the record that carries them.
- Times are whole numbers; ISO texts, time zones and the parsing of timestamps are not modelled, nor are ties between equal clock readings inside a recovery pass, whose clock moves on between transactions.
- Broker, Telegram, AI review, market data and callbacks in general are arbitrary answers; a callback that raises an exception `recover` does not catch is not modelled.
- Other columns of the workflow table (safe_detail, validation_status, last_error, batch and message ids), the approvals and telegram_updates rows written beside it, and audit events.
- The manual-review upsert of app/service.py:553, and what an executor outside recovery does before its durable steps; those steps themselves are in `RecoveryProtocol`.
- RecoveryService.RecoveryService.Recover: describes a worker that runs alone; interleaved workers are the subject of `RecoveryProtocol`, whose lemmas need no such assumption.
- RecoveryService.RecoveryService.ProcessRow: states the end state for a row whose processing succeeds; after an exception that the loop catches, it states the requests made and that no other row is touched.
- RecoveryProtocol.ReadyIntentsWereNeverSent: covers recovery workers; an executor outside recovery holds no lease, and the lemma fails with one.
- Reconciliation is assumed to touch only the intent it is asked about and to report broker outcomes.
- AllocationPlan.Spend: states the whole new ledger through the specification function; the lemmas about that function carry the properties.
- The summary text of the allocation plan other than its decisions, ledger and variance bound, and the verification of stored candidate sources.
- DecimalText.RoundTrip: reads plain numerals only; the exponent notation, plus signs, underscores and blanks that the decimal constructor also reads are not modelled, since no canonical text contains them.
- The evidence fingerprint of an outcome, and outcomes of actual fills.
- Crypto durable intents of the general order table count in exposures but not among unresolved orders, as in the source; runs only create intents of the crypto tables.
- Runs of the crypto lane keep equity and prices fixed; a fill takes what it pays and is worth out of its reservation, and lowers the broker's pending amount with it, which an order placed by notional does not. A reserved buy without a quantity is never filled, since its fill could not be recorded.
- A fill and its record are one step: in the source positions are read from the broker (app/crypto_risk.py:1137) and reservations from the database (app/crypto_risk.py:1171-1176), so between a broker fill and its record both count.
- CryptoRun.StepKeepsOrderCount: counts buys only, because the source checks the bound for buys only; `CryptoOrderCount` has the exact condition for all orders.
- CryptoRun.RunKeepsLimits: leaves out heat and the count of all orders, which fail without the guards of `CryptoOrderCount.GuardedRunsKeepEveryLimit`.
- How positions, orders, loss metrics and volatility are read from the broker, and the sizing that picks an amount below the ceilings.
- Conviction.Evaluate: starts from the derived scores; how raw inputs are turned into clamped scores, and the reason texts, are not modelled.
- The order in which sizing ceilings are folded decides only the name of the binding ceiling and the recorded path, which are left out; so are comparison direction, confidence, drift and the hypothetical exposures.
- The drawdown, health and volatility fields of the portfolio snapshot, and equity candidates.
- Configuration, capability, market-data and profitability checks, each a chain of independent conditions.
- The crypto check `long_only` and the buying-power half of `cash_funded` (app/crypto_risk.py:977-978) always pass, since a negative quantity or buying power is refused before, so they are not among the modelled checks.
