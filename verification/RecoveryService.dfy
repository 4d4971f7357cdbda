/**
The recovery pass itself: `recover` of app/approval_workflow.py, with the submission callback of
app/service.py and the executor behind it.  Every durable write it makes is logged as a step of
the protocol in RecoveryProtocol, so what is proved of all runs there holds of every pass here, and
of every pass cut short by a crash.

What the callbacks answer is arbitrary.  They are taken to answer, or to raise an exception that
`recover` catches; that no other exception arises inside the pass is proved, not assumed.
*/
module RecoveryService {
  import opened Wrappers
  import opened WorkflowTable
  import opened RecoveryProtocol
  import O = OrderStates

  datatype Decision = Approved | BlockedNow | ManualReviewNow | Retry | Unsupported | Raised

  datatype Outcome = SubmittedNow | TerminalNow | UnknownNow | RetryLater | RaisedOut

  datatype AdapterAnswer = Acknowledged(outcome: O.State) | MayHaveReachedBroker | NeverSent

  datatype Callbacks = Callbacks(validator: bool, actionValidator: bool, submitter: bool, lookup: bool)

  datatype Summary = Summary(
    claimed: nat, intentCreated: nat, existingIntentLinked: nat, submissionPending: nat,
    externalAmbiguity: nat, blocked: nat, failedRetryable: nat)

  /** Where a workflow with a linked intent goes: the broker may have the order unless the intent is ready or provably unsent. */
  function FollowedTo(intent: Intent): State {
    if O.IsReady(intent.state) || (intent.state == O.Submitting && !intent.invoked) then SubmissionPending
    else if intent.state in {O.Submitting, O.Unknown, O.ReconciliationRequired} then Unknown
    else if intent.state in {O.Submitted, O.PartiallyFilled, O.CancelPending} then Submitted
    else Terminal
  }

  /** Following an intent queues it only if it was provably never sent, closes its workflow exactly when the order
      can change no more, and calls it submitted exactly when the broker is known to have a live order. */
  lemma FollowingIsJustified(intent: Intent)
    ensures var state := FollowedTo(intent);
      && (state == SubmissionPending <==> O.IsReady(intent.state) || (intent.state == O.Submitting && !intent.invoked))
      && (state == Terminal <==> O.Allowed(intent.state) == {})
      && (state == Submitted <==> O.Filled in O.Allowed(intent.state) && intent.state !in {O.Submitting, O.Unknown, O.ReconciliationRequired})
      && (state == Unknown <==> O.Filled in O.Allowed(intent.state) && (intent.state == O.Submitting ==> intent.invoked) && state != Submitted)
      && state in {SubmissionPending, Terminal, Submitted, Unknown}
  {
  }

  /** An intent stuck in "submitting" with a clear marker becomes retryable; every other one stays as it is. */
  function ReturnedIfUnsent(intent: Intent): Intent {
    if intent.state == O.Submitting && !intent.invoked then intent.(state := O.RetryablePreSubmission) else intent
  }

  function ConcludedAs(outcome: Outcome): State {
    match outcome
    case SubmittedNow => Submitted
    case TerminalNow => Terminal
    case UnknownNow => Unknown
    case _ => SubmissionPending
  }

  /** An answer that is no clear acknowledgement is recorded as unknown. */
  function Recorded(answer: AdapterAnswer): O.State {
    if answer.Acknowledged? && answer.outcome in {O.Submitted, O.PartiallyFilled, O.Filled} then answer.outcome else O.Unknown
  }

  // ----- approving and queueing -----

  /** What becomes of an approved workflow that has no queued submission yet. */
  datatype Fate = ProposalGone | ActionBlocked | ActionDeferred | ActionUnsupported | Ineligible | Eligible

  function QueuedAs(fate: Fate): State {
    match fate
    case ProposalGone => ManualReview
    case ActionBlocked => Terminal
    case Ineligible => Terminal
    case Eligible => SubmissionPending
    case _ => ApprovedPendingIntent
  }

  function ValidatedAs(before: State, decision: Decision): State {
    match decision
    case Approved => ApprovedPendingIntent
    case BlockedNow => Terminal
    case ManualReviewNow => ManualReview
    case _ => before
  }

  /** The workflow has its intent: the one it had, one that its approval already had, or a new reserved one. */
  ghost predicate IntentEnsured(s: Sys, s': Sys, w: WorkflowId, newIntent: IntentId)
    requires w in s.table && w in s'.table
  {
    if s.table[w].intentId.Some? then s'.table == s.table && s'.intents == s.intents
    else
      && s'.table[w].state == IntentCreated && s'.table[w].intentId.Some?
      && if exists i :: i in s.intents && s.intents[i].approvalId == s.table[w].approvalId then
           s'.intents == s.intents && BelongsTo(s, s'.table[w].intentId.value, w)
         else
           && s'.table[w].intentId == Some(newIntent) && newIntent !in s.intents
           && s'.intents == s.intents[newIntent := Intent(s.table[w].approvalId, O.Reserved, false)]
  }

  // ----- submitting -----

  /** How far the submission callback gets with an intent. */
  datatype Course =
    | FailedFirst                  // an exception before the executor starts
    | BrokerAway                   // there is no broker client
    | NotExecutable                // authority is lost, or the executor does not start
    | ControlsFailed               // rejected before the marker
    | FailedAfterMarker            // rejected under the marker, before the adapter
    | ProvedUnsent                 // the adapter proves that no request began
    | AnswerLost                   // requested, but the answer is not recorded
    | Answered(result: O.State)    // requested, and the answer is recorded

  /** What the adapter answered, if it was called, and the course that is taken: only a clear acknowledgement is recorded as such. */
  predicate AnswerFits(course: Course, answer: Option<AdapterAnswer>) {
    match course
    case Answered(result) =>
      && answer.Some? && !answer.value.NeverSent? && result in {O.Submitted, O.PartiallyFilled, O.Filled, O.Unknown}
      && (result != O.Unknown ==> answer.value == Acknowledged(result))
      && (answer.value.Acknowledged? && answer.value.outcome in {O.Submitted, O.PartiallyFilled, O.Filled} ==> result == answer.value.outcome)
    case AnswerLost => answer.Some? && !answer.value.NeverSent?
    case ProvedUnsent => answer == Some(NeverSent)
    case _ => answer.None?
  }

  predicate Requested(course: Course) {
    course.AnswerLost? || course.Answered?
  }

  function IntentAfter(before: Intent, course: Course): Intent {
    match course
    case FailedFirst => before
    case BrokerAway => before
    case NotExecutable => if O.IsReady(before.state) then before.(state := O.Expired) else before
    case ControlsFailed => before.(state := O.Rejected)
    case FailedAfterMarker => before.(state := O.Rejected, invoked := true)
    case ProvedUnsent => before.(state := O.Rejected, invoked := false)
    case AnswerLost => before.(state := O.Submitting, invoked := true)
    case Answered(result) => before.(state := result, invoked := true)
  }

  function StateAfter(before: State, course: Course): State {
    match course
    case ControlsFailed => if before == SubmissionStarted then Terminal else before
    case FailedAfterMarker => Terminal
    case ProvedUnsent => Terminal
    case Answered(result) => if result == O.Unknown then Unknown else Submitted
    case _ => before
  }

  function CallsAfter(calls: map<IntentId, nat>, i: IntentId, course: Course): map<IntentId, nat> {
    if Requested(course) then calls[i := (if i in calls then calls[i] else 0) + 1] else calls
  }

  function OutcomeOf(course: Course): Outcome {
    match course
    case FailedFirst => RaisedOut
    case AnswerLost => RaisedOut
    case BrokerAway => RetryLater
    case Answered(result) => if result == O.Unknown then UnknownNow else SubmittedNow
    case _ => TerminalNow
  }

  /** What the executor does under this course to intent i of workflow w, to its workflow and at the broker. */
  ghost predicate Took(s: Sys, s': Sys, w: WorkflowId, i: IntentId, course: Course)
    requires w in s.table && w in s'.table && i in s.intents
  {
    && s'.intents == s.intents[i := IntentAfter(s.intents[i], course)]
    && s'.calls == CallsAfter(s.calls, i, course)
    && s'.table[w].state == StateAfter(s.table[w].state, course)
    && (course.Answered? ==> course.result in {O.Submitted, O.PartiallyFilled, O.Filled, O.Unknown})
  }

  /** Only an unmarked intent that its started workflow links gets as far as the marker. */
  predicate MayPassMarker(row: Row, intent: Intent, i: IntentId, course: Course) {
    Requested(course) || course.FailedAfterMarker? || course.ProvedUnsent? ==>
      row.state == SubmissionStarted && row.intentId == Some(i) && !intent.invoked
  }

  /** An exception from the callback counts as a retry exactly when the marker is clear. */
  function SettledAs(before: Intent, course: Course): Outcome {
    if !OutcomeOf(course).RaisedOut? then OutcomeOf(course)
    else if IntentAfter(before, course).invoked then UnknownNow
    else RetryLater
  }

  function SettledIntent(before: Intent, course: Course): Intent {
    var after := IntentAfter(before, course);
    if OutcomeOf(course).RaisedOut? then ReturnedIfUnsent(after) else after
  }

  /** Where the executor leaves a workflow, the settled outcome may always be recorded. */
  lemma SettledMayConclude(before: Intent, course: Course)
    ensures var state, target := StateAfter(SubmissionStarted, course), ConcludedAs(SettledAs(before, course));
      state == target || target in Allowed(state)
  {
  }

  predicate ClearlyAcknowledged(answer: Option<AdapterAnswer>) {
    answer.Some? && answer.value.Acknowledged? && answer.value.outcome in {O.Submitted, O.PartiallyFilled, O.Filled}
  }

  /** What a ready, unmarked intent and its workflow are left as, in terms of what the adapter answered. */
  lemma CallbackLeaves(before: Intent, course: Course, answer: Option<AdapterAnswer>)
    requires AnswerFits(course, answer) && O.IsReady(before.state) && !before.invoked
    ensures var after, state := SettledIntent(before, course), ConcludedAs(SettledAs(before, course));
      && (state == Submitted <==> course.Answered? && ClearlyAcknowledged(answer))
      && (state == Submitted ==> after == before.(state := answer.value.outcome, invoked := true))
      && (state == Unknown <==> answer.Some? && !answer.value.NeverSent? && state != Submitted)
      && (state == Unknown ==> after.state in {O.Submitting, O.Unknown} && after.invoked)
      && (state == SubmissionPending ==> answer.None? && after == before)
      && (state == Terminal ==> !Requested(course) && after.state in {O.Expired, O.Rejected})
      && (after.state == O.Expired <==> course == NotExecutable)
      && (after.state == O.Rejected <==> course in {ControlsFailed, FailedAfterMarker, ProvedUnsent})
      && (answer == Some(NeverSent) ==> state == Terminal && after == before.(state := O.Rejected))
      && state in {Submitted, Unknown, SubmissionPending, Terminal}
  {
  }

  function HeldIntent(before: Intent, decision: Decision): Intent {
    if decision.BlockedNow? then before.(state := O.Expired)
    else if decision.Retry? && !before.invoked then before.(state := O.RetryablePreSubmission)
    else before
  }

  /** What happens to a queued workflow. */
  datatype Handling = WithoutIntent | AlreadyRelevant | Held(decision: Decision) | Called(course: Course, answer: Option<AdapterAnswer>)

  function HandledAs(intent: Option<Intent>, handling: Handling): State {
    match handling
    case WithoutIntent => ManualReview
    case AlreadyRelevant => Unknown
    case Held(decision) => if decision.BlockedNow? then Terminal else SubmissionPending
    case Called(course, _) => if intent.Some? then ConcludedAs(SettledAs(intent.value, course)) else SubmissionPending
  }

  function HandledIntent(before: Intent, handling: Handling): Intent {
    match handling
    case Held(decision) => HeldIntent(before, decision)
    case Called(course, _) => SettledIntent(before, course)
    case _ => before
  }

  predicate HandlingFits(intent: Option<Intent>, callbacks: Callbacks, handling: Handling) {
    match handling
    case WithoutIntent => intent.None?
    case AlreadyRelevant => intent.Some? && !O.IsReady(intent.value.state)
    case Held(decision) => intent.Some? && O.IsReady(intent.value.state) && callbacks.actionValidator && !decision.Approved?
    case Called(course, answer) =>
      intent.Some? && O.IsReady(intent.value.state) && (Requested(course) ==> !intent.value.invoked) && AnswerFits(course, answer)
  }

  /** What each refusal leaves of the intent: a block expires it, a deferral makes an unmarked one retryable, anything else and every
      refusal without one leaves it alone. */
  lemma RefusalsLeave(before: Intent, decision: Decision)
    ensures HandledIntent(before, Held(BlockedNow)) == before.(state := O.Expired)
    ensures HandledIntent(before, Held(Retry)) == if before.invoked then before else before.(state := O.RetryablePreSubmission)
    ensures decision !in {BlockedNow, Retry} ==> HandledIntent(before, Held(decision)) == before
    ensures HandledIntent(before, WithoutIntent) == before && HandledIntent(before, AlreadyRelevant) == before
  {
  }

  // ----- one row -----

  datatype Work = Untouched | Queued(fate: Fate) | Resumed | Handled(handling: Handling) | LookedUp(outcome: Outcome)

  /** The intent that was found, what validation decided if it was asked, and the work that followed. */
  datatype Report = Report(found: Option<IntentId>, decision: Option<Decision>, work: Work)

  predicate WorkFits(stage: State, intent: Option<Intent>, callbacks: Callbacks, work: Work) {
    && (work.Handled? ==> HandlingFits(intent, callbacks, work.handling))
    && (work.Queued? <==> stage == ApprovedPendingIntent)
    && (work.Resumed? <==> stage == IntentCreated)
    && (work.Handled? <==> stage == SubmissionPending && callbacks.submitter)
    && (work.LookedUp? <==> stage in {SubmissionStarted, Submitted, Unknown})
  }

  function WorkedTo(stage: State, intent: Option<Intent>, callbacks: Callbacks, work: Work): State {
    match work
    case Untouched => stage
    case Queued(fate) => QueuedAs(fate)
    case Resumed => if intent.None? then ManualReview else FollowedTo(intent.value)
    case Handled(handling) => HandledAs(intent, handling)
    case LookedUp(outcome) => if callbacks.lookup then ConcludedAs(outcome) else stage
  }

  function CallsAfterWork(calls: map<IntentId, nat>, found: Option<IntentId>, work: Work): map<IntentId, nat> {
    if found.Some? && work.Handled? && work.handling.Called? then CallsAfter(calls, found.value, work.handling.course) else calls
  }

  /** From the state it was in, by what validation decided, a row is worked on and ends in this state. */
  predicate Advanced(before: State, intent: Option<Intent>, after: State, callbacks: Callbacks, report: Report) {
    var stage := if report.decision.Some? then ValidatedAs(before, report.decision.value) else before;
    && (report.decision.Some? <==> callbacks.validator && before in {Received, Authorized, TargetResolved, Validating})
    && WorkFits(stage, intent, callbacks, report.work)
    && after == WorkedTo(stage, intent, callbacks, report.work)
  }

  /** The broker's live order stands behind a row that ends submitted: its intent showed it, the adapter just acknowledged it,
      or the lookup found it; a row that was submitted and is not looked up stays so. */
  predicate SubmittedWithCause(before: State, intent: Option<Intent>, callbacks: Callbacks, work: Work) {
    || (work.Resumed? && intent.Some? && intent.value.state in {O.Submitted, O.PartiallyFilled, O.CancelPending})
    || (work.Handled? && work.handling.Called? && work.handling.course.Answered? && ClearlyAcknowledged(work.handling.answer))
    || (work.LookedUp? && if callbacks.lookup then work.outcome.SubmittedNow? else before == Submitted)
  }

  /** A row is closed for one of these causes: it was closed, validation or the action refused it, its intent is closed, it was
      refused before the broker was asked, or the lookup found it closed. */
  predicate ClosedWithCause(before: State, intent: Option<Intent>, callbacks: Callbacks, report: Report) {
    || before == Terminal
    || report.decision == Some(BlockedNow)
    || (report.work.Queued? && report.work.fate in {ActionBlocked, Ineligible})
    || (report.work.Resumed? && intent.Some? && intent.value.state in {O.Filled, O.Cancelled, O.Rejected, O.Expired})
    || (report.work.Handled? && report.work.handling == Held(BlockedNow))
    || (report.work.Handled? && report.work.handling.Called? && report.work.handling.course in {NotExecutable, ControlsFailed, FailedAfterMarker, ProvedUnsent})
    || (report.work.LookedUp? && callbacks.lookup && report.work.outcome.TerminalNow?)
  }

  /** A row that a pass has worked on ends submitted or closed exactly when there is a cause, and an uncertain one is never
      queued for submission. */
  lemma RowsEndWithCause(before: State, intent: Option<Intent>, after: State, callbacks: Callbacks, report: Report)
    requires Advanced(before, intent, after, callbacks, report)
    ensures after == Submitted <==> SubmittedWithCause(before, intent, callbacks, report.work)
    ensures after == Terminal <==> ClosedWithCause(before, intent, callbacks, report)
    ensures before in {Unknown, Submitted} ==> after in {Unknown, Submitted, Terminal} || (report.work.LookedUp? && report.work.outcome !in {SubmittedNow, TerminalNow, UnknownNow})
    ensures report.work.LookedUp? && !callbacks.lookup ==> after == before
  {
  }

  /** A found intent is the approval's, and one is found if there is one. */
  ghost predicate FoundFor(s: Sys, w: WorkflowId, found: Option<IntentId>)
    requires w in s.table
  {
    if found.Some? then BelongsTo(s, found.value, w) else forall i :: i in s.intents ==> s.intents[i].approvalId != s.table[w].approvalId
  }

  ghost predicate StartedUnsent(s: Sys, w: WorkflowId, found: Option<IntentId>) {
    && w in s.table && s.table[w].state == SubmissionStarted && found.Some? && found.value in s.intents
    && !s.intents[found.value].invoked && s.intents[found.value].state in {O.Submitting, O.RetryablePreSubmission}
  }

  /** The state in which work on a row begins: an intent is linked first, an unsent submission queued again. */
  ghost function EntryState(s: Sys, w: WorkflowId, found: Option<IntentId>): State
    requires w in s.table
  {
    if found.Some? && s.table[w].intentId.None? then IntentCreated
    else if StartedUnsent(s, w, found) then SubmissionPending
    else s.table[w].state
  }

  ghost function EntryIntent(s: Sys, w: WorkflowId, found: Option<IntentId>): Option<Intent>
    requires w in s.table
  {
    if found.Some? && s.table[w].intentId.Some? && StartedUnsent(s, w, found)
    then Some(s.intents[found.value].(state := O.RetryablePreSubmission))
    else FoundIn(s, found)
  }

  ghost predicate EntryOf(s: Sys, s': Sys, w: WorkflowId, found: Option<IntentId>)
    requires w in s.table && w in s'.table
  {
    s'.table[w].state == EntryState(s, w, found) && FoundIn(s', found) == EntryIntent(s, w, found)
  }

  /** All that is done with one row, by the intent that was found and what the callbacks decided. */
  ghost predicate WorkedOn(s: Sys, s': Sys, w: WorkflowId, callbacks: Callbacks, report: Report)
    requires w in s.table && w in s'.table
  {
    Advanced(EntryState(s, w, report.found), EntryIntent(s, w, report.found), s'.table[w].state, callbacks, report)
  }

  function FoundIn(s: Sys, found: Option<IntentId>): Option<Intent> {
    if found.Some? && found.value in s.intents then Some(s.intents[found.value]) else None
  }

  /** What the work on one row leaves alone: every other row and this row's claim. */
  ghost predicate Kept(s: Sys, s': Sys, o: Owner, w: WorkflowId) {
    && s.clock <= s'.clock
    && s'.table.Keys == s.table.Keys
    && w in s.table
    && (forall x :: x in s.table && x != w ==> s'.table[x] == s.table[x])
    && s'.table[w].approvalId == s.table[w].approvalId
    && s'.table[w].claimOwner == s.table[w].claimOwner
    && (s'.table[w].intentId == s.table[w].intentId || s.table[w].intentId.None?)
    && o in s.phase && o in s'.phase && s'.phase[o].w == s.phase[o].w == w
  }

  ghost predicate LinksAreOwn(s: Sys) {
    forall w :: w in s.table && s.table[w].intentId.Some? ==> BelongsTo(s, s.table[w].intentId.value, w)
  }

  lemma LinksStay(s: Sys, s': Sys, i: IntentId, intent: Intent)
    requires LinksAreOwn(s) && s'.table == s.table && s'.intents == s.intents[i := intent]
    requires i in s.intents && intent.approvalId == s.intents[i].approvalId
    ensures LinksAreOwn(s')
  {
  }

  lemma KeptTwice(s: Sys, s': Sys, s'': Sys, o: Owner, w: WorkflowId)
    requires Kept(s, s', o, w) && Kept(s', s'', o, w)
    ensures Kept(s, s'', o, w)
  {
  }

  lemma TookFromMarked(s: Sys, marked: Sys, s': Sys, w: WorkflowId, i: IntentId, course: Course)
    requires w in s.table && w in marked.table && w in s'.table && i in s.intents && i in marked.intents
    requires marked.table == s.table && marked.calls == s.calls
    requires marked.intents == s.intents[i := s.intents[i].(invoked := true)] && s.intents[i].state == O.Submitting
    requires Took(marked, s', w, i, course) && (course.FailedAfterMarker? || course.ProvedUnsent? || Requested(course))
    ensures Took(s, s', w, i, course)
  {
  }

  lemma TookFromCleared(s: Sys, cleared: Sys, s': Sys, w: WorkflowId, i: IntentId)
    requires w in s.table && w in s'.table && i in s.intents && i in cleared.intents
    requires cleared.calls == s.calls && cleared.intents == s.intents[i := s.intents[i].(invoked := false)]
    requires s'.calls == cleared.calls && s'.intents == cleared.intents[i := cleared.intents[i].(state := O.Rejected)]
    requires s'.table[w].state == Terminal
    ensures Took(s, s', w, i, ProvedUnsent)
  {
  }

  lemma TookFromSent(s: Sys, sent: Sys, s': Sys, w: WorkflowId, i: IntentId, course: Course)
    requires w in s.table && w in s'.table && i in s.intents && s.table[w].state == SubmissionStarted
    requires sent.intents == s.intents && sent.calls == s.calls[i := Calls(s, i) + 1]
    requires s'.intents == s.intents[i := IntentAfter(s.intents[i], course)] && s'.calls == sent.calls
    requires s'.table[w].state == StateAfter(SubmissionStarted, course)
    requires Requested(course) && (course.Answered? ==> course.result in {O.Submitted, O.PartiallyFilled, O.Filled, O.Unknown})
    ensures Took(s, s', w, i, course)
  {
  }

  lemma RejectedUnderMarker(s: Sys, s': Sys, w: WorkflowId, i: IntentId)
    requires w in s.table && w in s'.table && i in s.intents && s.intents[i].invoked && s.table[w].state == SubmissionStarted
    requires Took(s, s', w, i, ControlsFailed)
    ensures Took(s, s', w, i, FailedAfterMarker)
  {
  }

  lemma TookFromSending(s: Sys, sending: Sys, s': Sys, w: WorkflowId, i: IntentId, course: Course)
    requires w in s.table && w in sending.table && w in s'.table && i in s.intents && i in sending.intents
    requires sending.table == s.table && sending.calls == s.calls
    requires sending.intents == s.intents[i := s.intents[i].(state := O.Submitting)]
    requires Took(sending, s', w, i, course) && !course.FailedFirst? && !course.BrokerAway? && !course.NotExecutable?
    ensures Took(s, s', w, i, course)
  {
  }

  class RecoveryService {
    const store: ApprovalWorkflowStore
    var intents: map<IntentId, Intent>
    var clock: int
    var counts: Summary
    ghost var calls: map<IntentId, nat>
    ghost var phase: map<Owner, Phase>
    ghost const origin: Sys
    ghost var log: seq<Step>

    ghost function Now(): Sys
      reads this, store
    {
      Sys(clock, store.rows, intents, calls, phase)
    }

    /** The state is what the logged steps lead to, and linked intents are the row's own. */
    ghost predicate Valid()
      reads this, store
    {
      && store.Valid()
      && LeadsTo(origin, log, Now())
      && LinksAreOwn(Now())
    }

    ghost predicate Works(o: Owner, w: WorkflowId)
      reads this, store
    {
      Valid() && o in phase && phase[o].w == w && w in store.rows && store.rows[w].claimOwner == Some(o)
    }

    constructor (startTime: int)
      ensures Valid() && Now() == Initial(startTime) && fresh(store)
    {
      store := new ApprovalWorkflowStore();
      intents, clock, counts := map[], startTime, Summary(0, 0, 0, 0, 0, 0, 0);
      calls, phase, origin, log := map[], map[], Initial(startTime), [];
      LeadsToIsExec(Initial(startTime), [], Initial(startTime));
    }

    /** The clock moves on between any two transactions. */
    method ReadClock() returns (now: int)
      ensures now > clock
    {
      var gap: int := *;
      now := clock + 1 + if gap < 0 then -gap else gap;
    }

    ghost method Append(s: Sys, step: Step)
      requires LeadsTo(origin, log, s) && Next(s, step) == Now()
      modifies this`log
      ensures log == old(log) + [step] && LeadsTo(origin, log, Now())
    {
      LeadsToStep(origin, log, s, step);
      log := log + [step];
    }

    // ----- single steps ------------------------------------------------------------------

    /** A step on intent i and on the worker's memory. */
    method Commit(ghost a: Action, o: Owner, w: WorkflowId, i: IntentId, intent: Intent, ghost calls': map<IntentId, nat>,
                  ghost p: Phase)
      requires Works(o, w) && i in intents && intent.approvalId == intents[i].approvalId && p.w == w
      requires TableOp(Now(), a).None?
      requires Effect(Now(), a, store.rows, Nothing) == Now().(intents := intents[i := intent], calls := calls', phase := phase[o := p])
      modifies this
      ensures Works(o, w) && Kept(old(Now()), Now(), o, w) && store.rows == old(store.rows)
      ensures intents == old(intents)[i := intent] && calls == calls' && phase == old(phase)[o := p]
      ensures counts == old(counts) && clock > old(clock)
      ensures log == old(log) + [Step(clock, a)]
    {
      ghost var s := Now();
      var now := ReadClock();
      intents, clock := intents[i := intent], now;
      calls, phase := calls', phase[o := p];
      LinksStay(s, Now(), i, intent);
      NextCommit(s, a, now);
      Append(s, Step(now, a));
    }

    /** One workflow transition, fenced by owner's token if it is given. */
    method MoveRow(o: Owner, w: WorkflowId, target: State, token: Option<Owner>, intentId: Option<IntentId>) returns (ok: bool)
      requires Works(o, w) && (token.Some? ==> token == Some(o))
      requires intentId.Some? ==> BelongsTo(Now(), intentId.value, w) && store.rows[w].intentId.None?
      modifies this, store
      ensures Works(o, w) && Kept(old(Now()), Now(), o, w)
      ensures intents == old(intents) && calls == old(calls) && phase == old(phase) && counts == old(counts)
      ensures ok <==> old(store.rows)[w].state == target || target in Allowed(old(store.rows)[w].state)
      ensures ok ==> store.rows[w].state == target && (intentId.Some? ==> store.rows[w].intentId == intentId)
      ensures !ok ==> store.rows == old(store.rows)
      ensures clock > old(clock)
      ensures log == old(log) + [Step(clock, TableWrite(Move(w, target, None, None, token, intentId)))]
    {
      ghost var s := Now();
      ghost var op := Move(w, target, None, None, token, intentId);
      var now := ReadClock();
      var reply := store.Transition(w, target, None, None, token, intentId, now);
      clock := now;
      ok := reply.Done?;
      assert Next(s, Step(now, TableWrite(op))) == Now();
      Append(s, Step(now, TableWrite(op)));
    }

    /** The transition that enters the submission callback. */
    method EnterSubmitter(o: Owner, w: WorkflowId, i: IntentId) returns (ok: bool)
      requires Works(o, w) && phase[o].SawReady? && phase[o].i == i && i in intents
      modifies this, store
      ensures Works(o, w) && Kept(old(Now()), Now(), o, w) && old(log) <= log
      ensures intents == old(intents) && counts == old(counts) && calls == old(calls)
      ensures ok <==> old(store.rows)[w].state == SubmissionStarted || SubmissionStarted in Allowed(old(store.rows)[w].state)
      ensures ok ==> phase[o] == Entered(w, i) && store.rows[w].state == SubmissionStarted
      ensures !ok ==> phase == old(phase) && store.rows == old(store.rows)
    {
      ghost var s := Now();
      var now := ReadClock();
      NextEnter(s, o, now);
      var reply := store.Transition(w, SubmissionStarted, None, None, Some(o), None, now);
      clock := now;
      ok := reply.Done?;
      if ok {
        phase := phase[o := Entered(w, i)];
      }
      assert Next(s, Step(now, Enter(o))) == Now();
      Append(s, Step(now, Enter(o)));
    }

    method ClaimNextRow(o: Owner) returns (claimed: Option<WorkflowId>)
      requires Valid() && o !in phase
      modifies this, store
      ensures Valid() && clock > old(clock)
      ensures intents == old(intents) && calls == old(calls) && counts == old(counts)
      ensures log == old(log) + [Step(clock, ClaimRow(o))]
      ensures claimed.None? ==> store.rows == old(store.rows) && phase == old(phase)
      ensures claimed.None? ==> forall x :: x in store.rows ==> !Claimable(store.rows[x], o, clock)
      ensures claimed.Some? ==> var w := claimed.value;
        && Works(o, w) && phase == old(phase)[o := Holding(w)]
        && IsNext(old(store.rows), w, o, clock)
        && store.rows == old(store.rows)[w := ClaimedRow(old(store.rows)[w], o, LEASE_SECONDS, clock)]
    {
      ghost var s := Now();
      var now := ReadClock();
      NextRowExists(store.rows, o, now);
      var reply := store.ClaimNext(o, LEASE_SECONDS, now);
      clock := now;
      if reply.Done? {
        claimed := Some(reply.id);
        phase := phase[o := Holding(reply.id)];
      } else {
        claimed := None;
      }
      assert Next(s, Step(now, ClaimRow(o))) == Now();
      Append(s, Step(now, ClaimRow(o)));
    }

    method ReleaseRow(o: Owner, w: WorkflowId)
      requires Works(o, w) && phase[o].Holding?
      modifies this, store
      ensures Valid() && clock > old(clock)
      ensures intents == old(intents) && calls == old(calls) && counts == old(counts)
      ensures phase == old(phase) - {o}
      ensures store.rows == old(store.rows)[w := old(store.rows)[w].(claimOwner := None, claimUntil := None, updatedAt := clock,
                                                                     version := old(store.rows)[w].version + 1)]
      ensures log == old(log) + [Step(clock, FinishRow(o))]
    {
      ghost var s := Now();
      var now := ReadClock();
      var reply := store.ReleaseClaim(w, o, now);
      clock := now;
      phase := phase - {o};
      assert Next(s, Step(now, FinishRow(o))) == Now();
      Append(s, Step(now, FinishRow(o)));
    }

    /** create_or_get_intent: the reserved intent and the workflow's link, in one transaction. */
    method CreateReservedIntent(o: Owner, w: WorkflowId, i: IntentId)
      requires Works(o, w) && i !in intents
      requires store.rows[w].state == ApprovedPendingIntent && store.rows[w].intentId.None?
      modifies this, store
      ensures Works(o, w) && Kept(old(Now()), Now(), o, w)
      ensures intents == old(intents)[i := Intent(store.rows[w].approvalId, O.Reserved, false)]
      ensures calls == old(calls) && phase == old(phase) && counts == old(counts)
      ensures store.rows[w].state == IntentCreated && store.rows[w].intentId == Some(i)
      ensures clock > old(clock)
      ensures log == old(log) + [Step(clock, CreateIntent(i, store.rows[w].approvalId))]
    {
      ghost var s := Now();
      var now := ReadClock();
      var approvalId := store.rows[w].approvalId;
      assert HasApproval(store.rows, w, approvalId);
      var reply := store.LinkIntent(approvalId, i, now);
      clock := now;
      intents := intents[i := Intent(approvalId, O.Reserved, false)];
      assert Next(s, Step(now, CreateIntent(i, approvalId))) == Now();
      Append(s, Step(now, CreateIntent(i, approvalId)));
    }

    method FindIntent(approvalId: ApprovalId) returns (found: Option<IntentId>)
      ensures found.Some? ==> found.value in intents && intents[found.value].approvalId == approvalId
      ensures found.None? ==> forall i :: i in intents ==> intents[i].approvalId != approvalId
    {
      var remaining := intents.Keys;
      while remaining != {}
        invariant remaining <= intents.Keys
        invariant forall i :: i in intents && i !in remaining ==> intents[i].approvalId != approvalId
      {
        var i :| i in remaining;
        if intents[i].approvalId == approvalId {
          return Some(i);
        }
        remaining := remaining - {i};
      }
      return None;
    }

    // ----- one claimed row ---------------------------------------------------------------

    ghost predicate Steady(o: Owner, w: WorkflowId)
      reads this, store
    {
      Works(o, w) && phase[o] == Holding(w)
    }

    /** Between reading an unmarked "submitting" intent and returning it nothing can intervene
        in a pass that runs alone. */
    method ReturnUnsent(o: Owner, w: WorkflowId, i: IntentId)
      requires Steady(o, w) && BelongsTo(Now(), i, w)
      requires intents[i].state == O.Submitting && !intents[i].invoked
      modifies this, store
      ensures Steady(o, w) && Kept(old(Now()), Now(), o, w) && old(log) <= log && counts == old(counts)
      ensures store.rows == old(store.rows) && calls == old(calls)
      ensures intents == old(intents)[i := old(intents)[i].(state := O.RetryablePreSubmission)]
    {
      Commit(ReadSubmitting(o, i), o, w, i, intents[i], calls, SawSubmitting(w, i));
      Commit(ReturnToRetryable(o), o, w, i, intents[i].(state := O.RetryablePreSubmission), calls, Holding(w));
    }

    /** An intent that was provably never sent is made retryable if need be, and its workflow queued for submission. */
    method Requeue(o: Owner, w: WorkflowId, i: IntentId)
      requires Steady(o, w) && store.rows[w].state in {IntentCreated, SubmissionStarted} && BelongsTo(Now(), i, w)
      requires intents[i].state == O.Submitting ==> !intents[i].invoked
      modifies this, store
      ensures Steady(o, w) && Kept(old(Now()), Now(), o, w) && old(log) <= log && calls == old(calls) && counts == old(counts)
      ensures store.rows[w].state == SubmissionPending
      ensures intents == old(intents)[i := ReturnedIfUnsent(old(intents)[i])]
    {
      ghost var start := Now();
      MakeRetryable(o, w, i);
      ghost var returned := Now();
      MoveHeld(o, w, SubmissionPending);
      KeptTwice(start, returned, Now(), o, w);
    }

    method MakeRetryable(o: Owner, w: WorkflowId, i: IntentId)
      requires Steady(o, w) && BelongsTo(Now(), i, w) && (intents[i].state == O.Submitting ==> !intents[i].invoked)
      modifies this, store
      ensures Steady(o, w) && Kept(old(Now()), Now(), o, w) && old(log) <= log && counts == old(counts)
      ensures store.rows == old(store.rows) && calls == old(calls)
      ensures intents == old(intents)[i := ReturnedIfUnsent(old(intents)[i])]
    {
      if intents[i].state == O.Submitting {
        ReturnUnsent(o, w, i);
      }
    }

    /** A transition that is allowed and fenced by the claim. */
    method MoveHeld(o: Owner, w: WorkflowId, target: State)
      requires Steady(o, w) && target in Allowed(store.rows[w].state)
      modifies this, store
      ensures Steady(o, w) && Kept(old(Now()), Now(), o, w) && old(log) <= log
      ensures intents == old(intents) && calls == old(calls) && counts == old(counts) && store.rows[w].state == target
    {
      var ok := MoveRow(o, w, target, Some(o), None);
    }

    /** The walk of an approved workflow through the states it has not reached yet. */
    method Advance(o: Owner, w: WorkflowId)
      requires Steady(o, w) && store.rows[w].state in {Received, Authorized, TargetResolved, Validating}
      modifies this, store
      ensures Steady(o, w) && Kept(old(Now()), Now(), o, w) && old(log) <= log
      ensures intents == old(intents) && counts == old(counts) && calls == old(calls)
      ensures store.rows[w].state == ApprovedPendingIntent
    {
      ghost var start := Now();
      var targets := [Authorized, TargetResolved, Validating, ApprovedPendingIntent];
      for k := 0 to 4
        invariant Steady(o, w) && Kept(start, Now(), o, w) && old(log) <= log
        invariant intents == old(intents) && counts == old(counts) && calls == old(calls)
        invariant k <= Rank(store.rows[w].state) <= 4
      {
        ghost var before := Now();
        var state, target := store.rows[w].state, targets[k];
        StageReached(k, state, target);
        if state != target && target in Allowed(state) {
          var ok := MoveRow(o, w, target, Some(o), None);
          KeptTwice(start, before, Now(), o, w);
        }
      }
    }

    /** The validation callback and what it decides (lines 541-602). */
    method Validate(o: Owner, w: WorkflowId) returns (ok: bool, decision: Decision)
      requires Steady(o, w) && store.rows[w].state in {Received, Authorized, TargetResolved, Validating}
      modifies this, store
      ensures Steady(o, w) && Kept(old(Now()), Now(), o, w) && old(log) <= log
      ensures intents == old(intents) && calls == old(calls)
      ensures ok <==> !decision.Unsupported? && !decision.Raised?
      ensures match decision
        case Approved => store.rows[w].state == ApprovedPendingIntent
        case BlockedNow => store.rows[w].state == Terminal
        case ManualReviewNow => store.rows[w].state == ManualReview
        case _ => store.rows == old(store.rows)
      ensures counts.claimed == old(counts.claimed) && counts.failedRetryable == old(counts.failedRetryable)
    {
      ok := true;
      decision := *;
      match decision
      case Approved => Advance(o, w);
      case BlockedNow =>
        ok := MoveRow(o, w, Terminal, Some(o), None);
        counts := counts.(blocked := counts.blocked + 1);
      case ManualReviewNow =>
        ok := MoveRow(o, w, ManualReview, Some(o), None);
        counts := counts.(externalAmbiguity := counts.externalAmbiguity + 1);
      case Retry =>
      case _ => ok := false;
    }

    /** ensure_intent (lines 425-475); `newIntent` is the id that a new intent would get. */
    method EnsureIntent(o: Owner, w: WorkflowId, newIntent: IntentId) returns (ok: bool)
      requires Steady(o, w)
      modifies this, store
      ensures Steady(o, w) && Kept(old(Now()), Now(), o, w) && old(log) <= log && counts == old(counts) && calls == old(calls)
      ensures if ok then IntentEnsured(old(Now()), Now(), w, newIntent) else store.rows == old(store.rows) && intents == old(intents)
    {
      if store.rows[w].intentId.Some? {
        return true;
      }
      var found := FindIntent(store.rows[w].approvalId);
      if found.Some? {
        ok := MoveRow(o, w, IntentCreated, None, found);
        return;
      }
      var refused: bool := *;
      if store.rows[w].state != ApprovedPendingIntent || newIntent in intents || refused {
        return false;
      }
      CreateReservedIntent(o, w, newIntent);
      ok := true;
    }

    /** An approved workflow gets its intent and is queued (lines 603-671). */
    method CreateAndQueue(o: Owner, w: WorkflowId, callbacks: Callbacks, newIntent: IntentId) returns (ok: bool, fate: Fate)
      requires Steady(o, w) && store.rows[w].state == ApprovedPendingIntent
      modifies this, store
      ensures Steady(o, w) && Kept(old(Now()), Now(), o, w) && old(log) <= log && calls == old(calls)
      ensures counts.claimed == old(counts.claimed) && counts.failedRetryable == old(counts.failedRetryable)
      ensures fate in {ActionBlocked, ActionDeferred, ActionUnsupported} ==> callbacks.actionValidator
      ensures ok ==> store.rows[w].state == QueuedAs(fate)
      ensures fate == Eligible && ok ==> store.rows[w].intentId.Some?
      ensures fate != Eligible ==> intents == old(intents) && (ok <==> fate != ActionUnsupported)
      ensures fate in {ActionDeferred, ActionUnsupported} ==> store.rows == old(store.rows)
      ensures intents == old(intents)
        || (newIntent !in old(intents) && intents == old(intents)[newIntent := Intent(store.rows[w].approvalId, O.Reserved, false)])
    {
      fate := DecideFate(callbacks);
      if fate in {ProposalGone, ActionBlocked, Ineligible} {
        CloseUnqueued(o, w, fate);
        ok := true;
      } else if fate.Eligible? {
        ok := QueueNew(o, w, newIntent);
      } else {
        ok := fate.ActionDeferred?;
      }
    }

    method CloseUnqueued(o: Owner, w: WorkflowId, fate: Fate)
      requires Steady(o, w) && store.rows[w].state == ApprovedPendingIntent && fate in {ProposalGone, ActionBlocked, Ineligible}
      modifies this, store
      ensures Steady(o, w) && Kept(old(Now()), Now(), o, w) && old(log) <= log && calls == old(calls) && intents == old(intents)
      ensures counts.claimed == old(counts.claimed) && counts.failedRetryable == old(counts.failedRetryable)
      ensures store.rows[w].state == QueuedAs(fate)
    {
      var ok := MoveRow(o, w, QueuedAs(fate), Some(o), None);
      if fate.ProposalGone? {
        counts := counts.(externalAmbiguity := counts.externalAmbiguity + 1);
      } else {
        counts := counts.(blocked := counts.blocked + 1);
      }
    }

    /** What the proposal and the action callback say of an approved workflow. */
    method DecideFate(callbacks: Callbacks) returns (fate: Fate)
      ensures fate in {ActionBlocked, ActionDeferred, ActionUnsupported} ==> callbacks.actionValidator
    {
      var proposalLoads: bool := *;
      if !proposalLoads {
        return ProposalGone;
      }
      if callbacks.actionValidator {
        var decision: Decision := *;
        match decision
        case BlockedNow => return ActionBlocked;
        case Retry => return ActionDeferred;
        case Approved =>
        case _ => return ActionUnsupported;
      }
      var ineligible: bool := *;
      return if ineligible then Ineligible else Eligible;
    }

    method QueueNew(o: Owner, w: WorkflowId, newIntent: IntentId) returns (ok: bool)
      requires Steady(o, w) && store.rows[w].state == ApprovedPendingIntent
      modifies this, store
      ensures Steady(o, w) && Kept(old(Now()), Now(), o, w) && old(log) <= log && calls == old(calls)
      ensures counts.claimed == old(counts.claimed) && counts.failedRetryable == old(counts.failedRetryable)
      ensures ok ==> store.rows[w].state == SubmissionPending && store.rows[w].intentId.Some?
      ensures intents == old(intents)
        || (newIntent !in old(intents) && intents == old(intents)[newIntent := Intent(store.rows[w].approvalId, O.Reserved, false)])
    {
      ghost var start := Now();
      ok := EnsureIntent(o, w, newIntent);
      if !ok {
        return;
      }
      ghost var ensured := Now();
      counts := counts.(intentCreated := counts.intentCreated + 1);
      ok := MoveRow(o, w, SubmissionPending, Some(o), None);
      KeptTwice(start, ensured, Now(), o, w);
      if ok {
        counts := counts.(submissionPending := counts.submissionPending + 1);
      }
    }

    /** A workflow whose intent exists is queued, or follows what the intent already shows
        (lines 672-738). */
    method ResumeIntent(o: Owner, w: WorkflowId, found: Option<IntentId>) returns (ok: bool)
      requires Steady(o, w) && store.rows[w].state == IntentCreated && (found.Some? ==> BelongsTo(Now(), found.value, w))
      modifies this, store
      ensures Steady(o, w) && Kept(old(Now()), Now(), o, w) && old(log) <= log && calls == old(calls)
      ensures ok && store.rows[w].state == if found.None? then ManualReview else FollowedTo(old(intents)[found.value])
      ensures intents == if found.None? then old(intents) else old(intents)[found.value := ReturnedIfUnsent(old(intents)[found.value])]
      ensures counts.claimed == old(counts.claimed) && counts.failedRetryable == old(counts.failedRetryable)
    {
      if found.None? {
        ok := MoveRow(o, w, ManualReview, Some(o), None);
        counts := counts.(externalAmbiguity := counts.externalAmbiguity + 1);
        return;
      }
      ok := FollowIntent(o, w, found.value);
    }

    /** An intent that is ready, or provably unsent, is queued for submission. */
    method QueueAgain(o: Owner, w: WorkflowId, i: IntentId) returns (ok: bool)
      requires Steady(o, w) && store.rows[w].state == IntentCreated && BelongsTo(Now(), i, w)
      requires O.IsReady(intents[i].state) || (intents[i].state == O.Submitting && !intents[i].invoked)
      modifies this, store
      ensures Steady(o, w) && Kept(old(Now()), Now(), o, w) && old(log) <= log && calls == old(calls)
      ensures ok && store.rows[w].state == SubmissionPending
      ensures intents == old(intents)[i := ReturnedIfUnsent(old(intents)[i])]
      ensures counts.claimed == old(counts.claimed) && counts.failedRetryable == old(counts.failedRetryable)
    {
      Requeue(o, w, i);
      counts := counts.(submissionPending := counts.submissionPending + 1);
      ok := true;
    }

    method FollowIntent(o: Owner, w: WorkflowId, i: IntentId) returns (ok: bool)
      requires Steady(o, w) && store.rows[w].state == IntentCreated && BelongsTo(Now(), i, w)
      modifies this, store
      ensures Steady(o, w) && Kept(old(Now()), Now(), o, w) && old(log) <= log && calls == old(calls)
      ensures ok && store.rows[w].state == FollowedTo(old(intents)[i])
      ensures intents == old(intents)[i := ReturnedIfUnsent(old(intents)[i])]
      ensures counts.claimed == old(counts.claimed) && counts.failedRetryable == old(counts.failedRetryable)
    {
      var intent := intents[i];
      if O.IsReady(intent.state) || (intent.state == O.Submitting && !intent.invoked) {
        ok := QueueAgain(o, w, i);
      } else if intent.state in {O.Submitting, O.Unknown, O.ReconciliationRequired} {
        ok := MoveRow(o, w, Unknown, Some(o), None);
        if ok {
          counts := counts.(externalAmbiguity := counts.externalAmbiguity + 1);
        }
      } else {
        ok := Reconstruct(o, w, if intent.state in {O.Submitted, O.PartiallyFilled, O.CancelPending} then Submitted else Terminal);
      }
    }

    method Reconstruct(o: Owner, w: WorkflowId, target: State) returns (ok: bool)
      requires Steady(o, w) && store.rows[w].state == IntentCreated && target in {Submitted, Terminal}
      modifies this, store
      ensures Steady(o, w) && Kept(old(Now()), Now(), o, w) && old(log) <= log && counts == old(counts)
      ensures intents == old(intents) && calls == old(calls) && ok && store.rows[w].state == target
    {
      ok := MoveRow(o, w, SubmissionStarted, Some(o), None);
      if ok {
        ok := MoveRow(o, w, target, Some(o), None);
      }
    }

    /** The executor gave up before its marker, or the adapter proved no request began: the
        workflow closes if it is still waiting (app/execution.py:2974-2978, 3083-3086). */
    method CloseIfStarted(o: Owner, w: WorkflowId)
      requires Works(o, w)
      modifies this, store
      ensures Works(o, w) && Kept(old(Now()), Now(), o, w) && old(log) <= log
      ensures intents == old(intents) && phase == old(phase) && calls == old(calls) && counts == old(counts)
      ensures store.rows[w].state == if old(store.rows)[w].state == SubmissionStarted then Terminal else old(store.rows)[w].state
    {
      if store.rows[w].state == SubmissionStarted {
        var ok := MoveRow(o, w, Terminal, None, None);
      }
    }

    /** What the marker transaction checks, read off the worker's own row. */
    lemma MayMarkHere(o: Owner, w: WorkflowId, i: IntentId)
      requires Works(o, w) && BelongsTo(Now(), i, w)
      ensures MayMark(Now(), i) <==>
        intents[i].state == O.Submitting && !intents[i].invoked
        && store.rows[w].state == SubmissionStarted && store.rows[w].intentId == Some(i)
    {
      assert HasApproval(store.rows, w, intents[i].approvalId);
    }

    /** The submission callback and the executor's durable steps
        (app/service.py:438-500, app/execution.py:2825-3112). */
    method Execute(o: Owner, w: WorkflowId, i: IntentId) returns (course: Course, answer: Option<AdapterAnswer>)
      requires Works(o, w) && phase[o] == Entered(w, i) && BelongsTo(Now(), i, w)
      modifies this, store
      ensures Works(o, w) && InPhase(Now(), o) && BelongsTo(Now(), i, w)
      ensures Kept(old(Now()), Now(), o, w) && old(log) <= log && counts == old(counts)
      ensures Took(old(Now()), Now(), w, i, course) && AnswerFits(course, answer) && MayPassMarker(old(store.rows)[w], old(intents)[i], i, course)
    {
      var authorityLost: bool := *;
      var brokerAbsent: bool := *;
      var prepared: bool := *;
      var raised: bool := *;
      if raised {
        return FailedFirst, None;
      }
      if !authorityLost && brokerAbsent {
        return BrokerAway, None;
      }
      if authorityLost || !prepared || !(intents[i].state in {O.Reserved, O.RetryablePreSubmission} && !intents[i].invoked) {
        if O.IsReady(intents[i].state) {
          Commit(ExpireInside(o), o, w, i, intents[i].(state := O.Expired), calls, Entered(w, i));
        }
        return NotExecutable, None;
      }
      ghost var start := Now();
      Commit(StartSending(o), o, w, i, intents[i].(state := O.Submitting), calls, Sending(w, i));
      ghost var sending := Now();
      course, answer := SendOnce(o, w, i);
      KeptTwice(start, sending, Now(), o, w);
      TookFromSending(start, sending, Now(), w, i, course);
    }

    /** Final controls failed, or something failed before the adapter was called. */
    method Reject(o: Owner, w: WorkflowId, i: IntentId)
      requires Works(o, w) && (phase[o] == Sending(w, i) || phase[o] == Marked(w, i))
      requires BelongsTo(Now(), i, w) && intents[i].state == O.Submitting
      modifies this, store
      ensures Works(o, w) && InPhase(Now(), o) && BelongsTo(Now(), i, w)
      ensures Kept(old(Now()), Now(), o, w) && old(log) <= log && counts == old(counts)
      ensures Took(old(Now()), Now(), w, i, ControlsFailed)
    {
      Commit(AbandonSend(o), o, w, i, intents[i].(state := O.Rejected), calls, Entered(w, i));
      CloseIfStarted(o, w);
    }

    /** The adapter proved that no request began. */
    method RejectNeverSent(o: Owner, w: WorkflowId, i: IntentId)
      requires Works(o, w) && phase[o] == Marked(w, i) && BelongsTo(Now(), i, w) && intents[i].state == O.Submitting
      requires store.rows[w].state == SubmissionStarted
      modifies this, store
      ensures Works(o, w) && InPhase(Now(), o) && BelongsTo(Now(), i, w)
      ensures Kept(old(Now()), Now(), o, w) && old(log) <= log && counts == old(counts)
      ensures Took(old(Now()), Now(), w, i, ProvedUnsent)
    {
      ghost var start := Now();
      ClearMarker(o, w, i);
      ghost var cleared := Now();
      RejectCleared(o, w, i);
      KeptTwice(start, cleared, Now(), o, w);
      TookFromCleared(start, cleared, Now(), w, i);
    }

    method ClearMarker(o: Owner, w: WorkflowId, i: IntentId)
      requires Works(o, w) && phase[o] == Marked(w, i) && BelongsTo(Now(), i, w)
      modifies this, store
      ensures Works(o, w) && phase[o] == Unsent(w, i) && BelongsTo(Now(), i, w)
      ensures Kept(old(Now()), Now(), o, w) && old(log) <= log && counts == old(counts)
      ensures intents == old(intents)[i := old(intents)[i].(invoked := false)] && calls == old(calls) && store.rows == old(store.rows)
    {
      Commit(ProveUnsent(o), o, w, i, intents[i].(invoked := false), calls, Unsent(w, i));
    }

    method RejectCleared(o: Owner, w: WorkflowId, i: IntentId)
      requires Works(o, w) && phase[o] == Unsent(w, i) && BelongsTo(Now(), i, w) && intents[i].state == O.Submitting
      requires store.rows[w].state == SubmissionStarted
      modifies this, store
      ensures Works(o, w) && InPhase(Now(), o) && BelongsTo(Now(), i, w)
      ensures Kept(old(Now()), Now(), o, w) && old(log) <= log && counts == old(counts)
      ensures intents == old(intents)[i := old(intents)[i].(state := O.Rejected)] && calls == old(calls)
      ensures store.rows[w].state == Terminal
    {
      ghost var start := Now();
      Commit(RejectUnsent(o), o, w, i, intents[i].(state := O.Rejected), calls, Entered(w, i));
      ghost var rejected := Now();
      CloseIfStarted(o, w);
      KeptTwice(start, rejected, Now(), o, w);
    }

    /** From "submitting" to the recorded broker answer. */
    method SendOnce(o: Owner, w: WorkflowId, i: IntentId) returns (course: Course, answer: Option<AdapterAnswer>)
      requires Works(o, w) && phase[o] == Sending(w, i) && BelongsTo(Now(), i, w) && intents[i].state == O.Submitting
      modifies this, store
      ensures Works(o, w) && InPhase(Now(), o) && BelongsTo(Now(), i, w)
      ensures Kept(old(Now()), Now(), o, w) && old(log) <= log && counts == old(counts)
      ensures Took(old(Now()), Now(), w, i, course) && AnswerFits(course, answer) && MayPassMarker(old(store.rows)[w], old(intents)[i], i, course)
      ensures !course.FailedFirst? && !course.BrokerAway? && !course.NotExecutable?
    {
      var controlsPass: bool := *;
      if !controlsPass || intents[i].invoked || store.rows[w].state != SubmissionStarted || store.rows[w].intentId != Some(i) {
        Reject(o, w, i);
        return ControlsFailed, None;
      }
      course, answer := SendMarked(o, w, i);
    }

    /** The marker transaction, and the adapter behind it. */
    method SendMarked(o: Owner, w: WorkflowId, i: IntentId) returns (course: Course, answer: Option<AdapterAnswer>)
      requires Works(o, w) && phase[o] == Sending(w, i) && BelongsTo(Now(), i, w) && intents[i].state == O.Submitting
      requires !intents[i].invoked && store.rows[w].state == SubmissionStarted && store.rows[w].intentId == Some(i)
      modifies this, store
      ensures Works(o, w) && InPhase(Now(), o) && BelongsTo(Now(), i, w)
      ensures Kept(old(Now()), Now(), o, w) && old(log) <= log && counts == old(counts)
      ensures Took(old(Now()), Now(), w, i, course) && AnswerFits(course, answer)
      ensures course.FailedAfterMarker? || course.ProvedUnsent? || Requested(course)
    {
      MayMarkHere(o, w, i);
      ghost var start := Now();
      Commit(Mark(o), o, w, i, intents[i].(invoked := true), calls, Marked(w, i));
      ghost var marked := Now();
      course, answer := CallAdapter(o, w, i);
      KeptTwice(start, marked, Now(), o, w);
      TookFromMarked(start, marked, Now(), w, i, course);
    }

    method CallAdapter(o: Owner, w: WorkflowId, i: IntentId) returns (course: Course, answer: Option<AdapterAnswer>)
      requires Works(o, w) && phase[o] == Marked(w, i) && BelongsTo(Now(), i, w) && intents[i].state == O.Submitting
      requires intents[i].invoked && store.rows[w].state == SubmissionStarted
      modifies this, store
      ensures Works(o, w) && InPhase(Now(), o) && BelongsTo(Now(), i, w)
      ensures Kept(old(Now()), Now(), o, w) && old(log) <= log && counts == old(counts)
      ensures Took(old(Now()), Now(), w, i, course) && AnswerFits(course, answer)
      ensures course.FailedAfterMarker? || course.ProvedUnsent? || Requested(course)
    {
      var failsBeforeAdapter: bool := *;
      var reply: AdapterAnswer := *;
      if failsBeforeAdapter {
        ghost var start := Now();
        Reject(o, w, i);
        RejectedUnderMarker(start, Now(), w, i);
        course, answer := FailedAfterMarker, None;
      } else if reply.NeverSent? {
        RejectNeverSent(o, w, i);
        course, answer := ProvedUnsent, Some(reply);
      } else {
        course := AskBroker(o, w, i, reply);
        answer := Some(reply);
      }
    }

    /** The one broker request, and its answer. */
    method AskBroker(o: Owner, w: WorkflowId, i: IntentId, answer: AdapterAnswer) returns (course: Course)
      requires Works(o, w) && phase[o] == Marked(w, i) && BelongsTo(Now(), i, w) && intents[i].state == O.Submitting
      requires !answer.NeverSent? && intents[i].invoked && store.rows[w].state == SubmissionStarted
      modifies this, store
      ensures Works(o, w) && InPhase(Now(), o) && BelongsTo(Now(), i, w)
      ensures Kept(old(Now()), Now(), o, w) && old(log) <= log && counts == old(counts)
      ensures Took(old(Now()), Now(), w, i, course) && Requested(course) && AnswerFits(course, Some(answer))
    {
      ghost var start := Now();
      SendRequest(o, w, i);
      ghost var sent := Now();
      course := RecordAnswer(o, w, i, answer);
      KeptTwice(start, sent, Now(), o, w);
      TookFromSent(start, sent, Now(), w, i, course);
    }

    method SendRequest(o: Owner, w: WorkflowId, i: IntentId)
      requires Works(o, w) && phase[o] == Marked(w, i) && BelongsTo(Now(), i, w)
      modifies this, store
      ensures Works(o, w) && phase[o] == Sent(w, i) && BelongsTo(Now(), i, w)
      ensures Kept(old(Now()), Now(), o, w) && old(log) <= log && counts == old(counts)
      ensures intents == old(intents) && calls == old(calls)[i := Calls(old(Now()), i) + 1] && store.rows == old(store.rows)
    {
      Commit(Send(o), o, w, i, intents[i], calls[i := Calls(Now(), i) + 1], Sent(w, i));
    }

    method RecordAnswer(o: Owner, w: WorkflowId, i: IntentId, answer: AdapterAnswer) returns (course: Course)
      requires Works(o, w) && phase[o] == Sent(w, i) && BelongsTo(Now(), i, w) && intents[i].state == O.Submitting
      requires !answer.NeverSent? && intents[i].invoked && store.rows[w].state == SubmissionStarted
      modifies this, store
      ensures Works(o, w) && InPhase(Now(), o) && BelongsTo(Now(), i, w)
      ensures Kept(old(Now()), Now(), o, w) && old(log) <= log && counts == old(counts)
      ensures course == AnswerLost || (course.Answered? && course.result in {O.Submitted, O.PartiallyFilled, O.Filled, O.Unknown})
      ensures course.Answered? && course.result != O.Unknown ==> answer == Acknowledged(course.result)
      ensures course.Answered? && answer.Acknowledged? && answer.outcome in {O.Submitted, O.PartiallyFilled, O.Filled} ==>
                course.result == answer.outcome
      ensures calls == old(calls) && intents == old(intents)[i := IntentAfter(old(intents)[i], course)]
      ensures store.rows[w].state == StateAfter(SubmissionStarted, course)
    {
      var recordingFails: bool := *;
      if recordingFails {
        return AnswerLost;
      }
      RecordResult(o, w, i, Recorded(answer));
      course := Answered(Recorded(answer));
    }

    method RecordResult(o: Owner, w: WorkflowId, i: IntentId, result: O.State)
      requires Works(o, w) && phase[o] == Sent(w, i) && BelongsTo(Now(), i, w) && intents[i].state == O.Submitting
      requires result in {O.Submitted, O.PartiallyFilled, O.Filled, O.Unknown} && store.rows[w].state == SubmissionStarted
      modifies this, store
      ensures Works(o, w) && InPhase(Now(), o) && BelongsTo(Now(), i, w)
      ensures Kept(old(Now()), Now(), o, w) && old(log) <= log && counts == old(counts)
      ensures calls == old(calls) && intents == old(intents)[i := old(intents)[i].(state := result)]
      ensures store.rows[w].state == if result == O.Unknown then Unknown else Submitted
    {
      ghost var start := Now();
      Commit(Record(o, result), o, w, i, intents[i].(state := result), calls, Entered(w, i));
      ghost var recorded := Now();
      var ok := MoveRow(o, w, if result == O.Unknown then Unknown else Submitted, None, None);
      KeptTwice(start, recorded, Now(), o, w);
    }

    /** A queued workflow meets the submission callback (lines 739-847). */
    method SubmitPending(o: Owner, w: WorkflowId, found: Option<IntentId>, callbacks: Callbacks) returns (ok: bool, handling: Handling)
      requires Steady(o, w) && store.rows[w].state == SubmissionPending && (found.Some? ==> BelongsTo(Now(), found.value, w))
      modifies this, store
      ensures Steady(o, w) && Kept(old(Now()), Now(), o, w) && old(log) <= log
      ensures counts.claimed == old(counts.claimed) && counts.failedRetryable == old(counts.failedRetryable)
      ensures HandlingFits(FoundIn(old(Now()), found), callbacks, handling)
      ensures store.rows[w].state == HandledAs(FoundIn(old(Now()), found), handling)
      ensures intents == if found.None? then old(intents)
                         else old(intents)[found.value := HandledIntent(old(intents)[found.value], handling)]
      ensures calls == CallsAfterWork(old(calls), found, Handled(handling))
      ensures ok <==> !handling.Held? || handling.decision in {BlockedNow, Retry}
    {
      if found.None? {
        ok := MoveRow(o, w, ManualReview, Some(o), None);
        counts := counts.(externalAmbiguity := counts.externalAmbiguity + 1);
        return ok, WithoutIntent;
      }
      var i := found.value;
      if !O.IsReady(intents[i].state) {
        ok := MoveRow(o, w, Unknown, Some(o), None);
        counts := counts.(externalAmbiguity := counts.externalAmbiguity + 1);
        return ok, AlreadyRelevant;
      }
      ok, handling := SubmitReady(o, w, i, callbacks);
    }

    /** The intent is ready: the action callback holds it back, or the submission callback gets it. */
    method SubmitReady(o: Owner, w: WorkflowId, i: IntentId, callbacks: Callbacks) returns (ok: bool, handling: Handling)
      requires Steady(o, w) && store.rows[w].state == SubmissionPending && BelongsTo(Now(), i, w) && O.IsReady(intents[i].state)
      modifies this, store
      ensures Steady(o, w) && Kept(old(Now()), Now(), o, w) && old(log) <= log
      ensures counts.claimed == old(counts.claimed) && counts.failedRetryable == old(counts.failedRetryable)
      ensures (handling.Held? || handling.Called?) && HandlingFits(Some(old(intents)[i]), callbacks, handling)
      ensures store.rows[w].state == HandledAs(Some(old(intents)[i]), handling)
      ensures intents == old(intents)[i := HandledIntent(old(intents)[i], handling)]
      ensures calls == CallsAfterWork(old(calls), Some(i), Handled(handling))
      ensures ok <==> !handling.Held? || handling.decision in {BlockedNow, Retry}
    {
      ghost var start := Now();
      ReadIntent(o, w, i);
      ghost var read := Now();
      var decision: Decision := *;
      if callbacks.actionValidator && !decision.Approved? {
        ok := HoldBack(o, w, i, decision);
        handling := Held(decision);
      } else {
        var course, answer;
        ok, course, answer := Submit(o, w, i);
        handling := Called(course, answer);
      }
      KeptTwice(start, read, Now(), o, w);
    }

    method ReadIntent(o: Owner, w: WorkflowId, i: IntentId)
      requires Steady(o, w) && BelongsTo(Now(), i, w) && O.IsReady(intents[i].state)
      modifies this, store
      ensures Works(o, w) && BelongsTo(Now(), i, w) && phase[o] == SawReady(w, i, intents[i].state, !intents[i].invoked)
      ensures Kept(old(Now()), Now(), o, w) && old(log) <= log && counts == old(counts)
      ensures intents == old(intents) && calls == old(calls) && store.rows == old(store.rows)
    {
      Commit(ReadReady(o, i), o, w, i, intents[i], calls, SawReady(w, i, intents[i].state, !intents[i].invoked));
    }

    /** Back in the recovery loop, nothing more remembered. */
    method Return(o: Owner, w: WorkflowId, i: IntentId)
      requires Works(o, w) && InPhase(Now(), o) && i in intents
      modifies this, store
      ensures Steady(o, w) && Kept(old(Now()), Now(), o, w) && old(log) <= log && counts == old(counts)
      ensures intents == old(intents) && store.rows == old(store.rows) && calls == old(calls)
    {
      Commit(Leave(o), o, w, i, intents[i], calls, Holding(w));
    }

    method DeferIntent(o: Owner, w: WorkflowId, i: IntentId)
      requires Works(o, w) && BelongsTo(Now(), i, w)
      requires phase[o] == SawReady(w, i, intents[i].state, true)
      modifies this, store
      ensures Steady(o, w) && Kept(old(Now()), Now(), o, w) && old(log) <= log && counts == old(counts)
      ensures intents == old(intents)[i := old(intents)[i].(state := O.RetryablePreSubmission)]
      ensures store.rows == old(store.rows) && calls == old(calls)
    {
      Commit(Defer(o), o, w, i, intents[i].(state := O.RetryablePreSubmission), calls, Holding(w));
    }

    method ExpireIntent(o: Owner, w: WorkflowId, i: IntentId)
      requires Works(o, w) && BelongsTo(Now(), i, w)
      requires phase[o] == SawReady(w, i, intents[i].state, !intents[i].invoked)
      modifies this, store
      ensures Steady(o, w) && Kept(old(Now()), Now(), o, w) && old(log) <= log && counts == old(counts)
      ensures intents == old(intents)[i := old(intents)[i].(state := O.Expired)]
      ensures store.rows == old(store.rows) && calls == old(calls)
    {
      Commit(Expire(o), o, w, i, intents[i].(state := O.Expired), calls, Holding(w));
    }

    /** The callback blocked the submission for good: the intent expires and the workflow ends. */
    method Block(o: Owner, w: WorkflowId, i: IntentId) returns (ok: bool)
      requires Works(o, w) && BelongsTo(Now(), i, w)
      requires phase[o] == SawReady(w, i, intents[i].state, !intents[i].invoked)
      modifies this, store
      ensures Steady(o, w) && Kept(old(Now()), Now(), o, w) && old(log) <= log
      ensures counts.claimed == old(counts.claimed) && counts.failedRetryable == old(counts.failedRetryable)
      ensures intents == old(intents)[i := old(intents)[i].(state := O.Expired)] && calls == old(calls)
      ensures ok <==> old(store.rows)[w].state == Terminal || Terminal in Allowed(old(store.rows)[w].state)
      ensures if ok then store.rows[w].state == Terminal else store.rows == old(store.rows)
    {
      ghost var start := Now();
      ExpireIntent(o, w, i);
      ghost var expired := Now();
      ok := MoveRow(o, w, Terminal, Some(o), None);
      KeptTwice(start, expired, Now(), o, w);
      counts := counts.(blocked := counts.blocked + 1);
    }

    /** The action callback did not approve the submission (lines 763-801). */
    method HoldBack(o: Owner, w: WorkflowId, i: IntentId, decision: Decision) returns (ok: bool)
      requires Works(o, w) && BelongsTo(Now(), i, w) && O.IsReady(intents[i].state)
      requires phase[o] == SawReady(w, i, intents[i].state, !intents[i].invoked)
      modifies this, store
      ensures Steady(o, w) && Kept(old(Now()), Now(), o, w) && old(log) <= log
      ensures counts.claimed == old(counts.claimed) && counts.failedRetryable == old(counts.failedRetryable)
      ensures calls == old(calls)
      ensures intents == old(intents)[i := HeldIntent(old(intents)[i], decision)]
      ensures decision.BlockedNow? ==> (ok <==> old(store.rows)[w].state == Terminal || Terminal in Allowed(old(store.rows)[w].state))
      ensures decision.BlockedNow? && ok ==> store.rows[w].state == Terminal
      ensures !decision.BlockedNow? ==> store.rows == old(store.rows) && (ok <==> decision.Retry?)
    {
      if decision.BlockedNow? {
        ok := Block(o, w, i);
      } else if decision.Retry? && !intents[i].invoked {
        DeferIntent(o, w, i);
        ok := true;
      } else {
        Return(o, w, i);
        ok := decision.Retry?;
      }
    }

    /** Back from the callback: an exception means "retry" exactly when the marker is clear
        (lines 814-829). */
    method Settle(o: Owner, w: WorkflowId, i: IntentId, outcome: Outcome) returns (settled: Outcome)
      requires Works(o, w) && InPhase(Now(), o) && BelongsTo(Now(), i, w)
      modifies this, store
      ensures Steady(o, w) && Kept(old(Now()), Now(), o, w) && old(log) <= log && counts == old(counts)
      ensures settled == if outcome.RaisedOut? then (if old(intents)[i].invoked then UnknownNow else RetryLater) else outcome
      ensures intents == old(intents)[i := if outcome.RaisedOut? then ReturnedIfUnsent(old(intents)[i]) else old(intents)[i]]
      ensures store.rows == old(store.rows) && calls == old(calls)
    {
      settled := outcome;
      Return(o, w, i);
      if outcome.RaisedOut? {
        settled := if intents[i].invoked then UnknownNow else RetryLater;
        if !intents[i].invoked && intents[i].state == O.Submitting {
          ReturnUnsent(o, w, i);
        }
      }
    }

    method Submit(o: Owner, w: WorkflowId, i: IntentId) returns (ok: bool, course: Course, answer: Option<AdapterAnswer>)
      requires Works(o, w) && phase[o].SawReady? && phase[o].i == i && BelongsTo(Now(), i, w)
      requires store.rows[w].state == SubmissionPending
      modifies this, store
      ensures Steady(o, w) && Kept(old(Now()), Now(), o, w) && old(log) <= log
      ensures counts.claimed == old(counts.claimed) && counts.failedRetryable == old(counts.failedRetryable)
      ensures ok && AnswerFits(course, answer) && (Requested(course) ==> !old(intents)[i].invoked)
      ensures intents == old(intents)[i := SettledIntent(old(intents)[i], course)] && calls == CallsAfter(old(calls), i, course)
      ensures store.rows[w].state == ConcludedAs(SettledAs(old(intents)[i], course))
    {
      ghost var start := Now();
      ok := EnterSubmitter(o, w, i);
      ghost var entered := Now();
      ok, course, answer := RunCallback(o, w, i);
      KeptTwice(start, entered, Now(), o, w);
    }

    method RunCallback(o: Owner, w: WorkflowId, i: IntentId) returns (ok: bool, course: Course, answer: Option<AdapterAnswer>)
      requires Works(o, w) && phase[o] == Entered(w, i) && BelongsTo(Now(), i, w) && store.rows[w].state == SubmissionStarted
      modifies this, store
      ensures Steady(o, w) && Kept(old(Now()), Now(), o, w) && old(log) <= log
      ensures counts.claimed == old(counts.claimed) && counts.failedRetryable == old(counts.failedRetryable)
      ensures ok && AnswerFits(course, answer) && (Requested(course) ==> !old(intents)[i].invoked)
      ensures intents == old(intents)[i := SettledIntent(old(intents)[i], course)] && calls == CallsAfter(old(calls), i, course)
      ensures store.rows[w].state == ConcludedAs(SettledAs(old(intents)[i], course))
    {
      ghost var start := Now();
      var outcome;
      course, answer, outcome := ExecuteAndSettle(o, w, i);
      ghost var settled := Now();
      SettledMayConclude(start.intents[i], course);
      ok := Conclude(o, w, outcome);
      KeptTwice(start, settled, Now(), o, w);
    }

    method ExecuteAndSettle(o: Owner, w: WorkflowId, i: IntentId)
      returns (course: Course, answer: Option<AdapterAnswer>, outcome: Outcome)
      requires Works(o, w) && phase[o] == Entered(w, i) && BelongsTo(Now(), i, w) && store.rows[w].state == SubmissionStarted
      modifies this, store
      ensures Steady(o, w) && Kept(old(Now()), Now(), o, w) && old(log) <= log && counts == old(counts)
      ensures AnswerFits(course, answer) && (Requested(course) ==> !old(intents)[i].invoked) && outcome == SettledAs(old(intents)[i], course)
      ensures intents == old(intents)[i := SettledIntent(old(intents)[i], course)] && calls == CallsAfter(old(calls), i, course)
      ensures store.rows[w].state == StateAfter(SubmissionStarted, course)
    {
      ghost var start := Now();
      course, answer := Execute(o, w, i);
      ghost var returned := Now();
      outcome := Settle(o, w, i, OutcomeOf(course));
      KeptTwice(start, returned, Now(), o, w);
    }

    /** The workflow takes the outcome of the callback (lines 830-847). */
    method Conclude(o: Owner, w: WorkflowId, outcome: Outcome) returns (ok: bool)
      requires Steady(o, w)
      modifies this, store
      ensures Steady(o, w) && Kept(old(Now()), Now(), o, w) && old(log) <= log
      ensures counts.claimed == old(counts.claimed) && counts.failedRetryable == old(counts.failedRetryable)
      ensures intents == old(intents) && calls == old(calls)
      ensures ok <==> old(store.rows)[w].state == ConcludedAs(outcome) || ConcludedAs(outcome) in Allowed(old(store.rows)[w].state)
      ensures if ok then store.rows[w].state == ConcludedAs(outcome) else store.rows == old(store.rows)
    {
      var target := ConcludedAs(outcome);
      ok := MoveRow(o, w, target, Some(o), None);
      if ok && target == Unknown {
        counts := counts.(externalAmbiguity := counts.externalAmbiguity + 1);
      } else if ok && target == SubmissionPending {
        counts := counts.(submissionPending := counts.submissionPending + 1);
      }
    }

    /** Reconciliation may find out what became of the order; it never sends one. */
    method ReconcileIntent(o: Owner, w: WorkflowId, i: IntentId)
      requires Steady(o, w) && BelongsTo(Now(), i, w)
      modifies this, store
      ensures Steady(o, w) && Kept(old(Now()), Now(), o, w) && old(log) <= log
      ensures counts == old(counts) && calls == old(calls) && store.rows == old(store.rows)
    {
      var fate: O.State := *;
      if fate in O.Allowed(intents[i].state) && O.IsBrokerOutcome(fate) {
        Commit(Reconcile(i, fate), o, w, i, intents[i].(state := fate), calls, Holding(w));
      }
    }

    /** What the lookup found is where the workflow goes, unless it is there already (lines 866-912). */
    method MoveAsFound(o: Owner, w: WorkflowId, outcome: Outcome)
      requires Steady(o, w) && store.rows[w].state in {SubmissionStarted, Submitted, Unknown}
      requires outcome in {SubmittedNow, TerminalNow, UnknownNow}
      modifies this, store
      ensures Steady(o, w) && Kept(old(Now()), Now(), o, w) && old(log) <= log && calls == old(calls) && counts == old(counts)
      ensures store.rows[w].state == ConcludedAs(outcome)
    {
      if store.rows[w].state != ConcludedAs(outcome) {
        MoveHeld(o, w, ConcludedAs(outcome));
      }
    }

    method ReconcileFound(o: Owner, w: WorkflowId, found: Option<IntentId>)
      requires Steady(o, w) && (found.Some? ==> BelongsTo(Now(), found.value, w))
      modifies this, store
      ensures Steady(o, w) && Kept(old(Now()), Now(), o, w) && old(log) <= log
      ensures counts == old(counts) && calls == old(calls) && store.rows == old(store.rows)
    {
      if found.Some? {
        ReconcileIntent(o, w, found.value);
      }
    }

    /** Broker-relevant workflows are looked up and never submitted (lines 848-917). */
    method LookUp(o: Owner, w: WorkflowId, found: Option<IntentId>, callbacks: Callbacks) returns (ok: bool, outcome: Outcome)
      requires Steady(o, w) && (found.Some? ==> BelongsTo(Now(), found.value, w))
      requires store.rows[w].state in {SubmissionStarted, Submitted, Unknown}
      modifies this, store
      ensures Steady(o, w) && Kept(old(Now()), Now(), o, w) && old(log) <= log && calls == old(calls)
      ensures counts.claimed == old(counts.claimed) && counts.failedRetryable == old(counts.failedRetryable)
      ensures !callbacks.lookup ==> ok && store.rows == old(store.rows) && intents == old(intents)
      ensures ok <==> !callbacks.lookup || outcome in {SubmittedNow, TerminalNow, UnknownNow}
      ensures callbacks.lookup && ok ==> store.rows[w].state == ConcludedAs(outcome)
      ensures callbacks.lookup && outcome.SubmittedNow? ==> store.rows[w].state == Submitted
      ensures callbacks.lookup && outcome.TerminalNow? ==> store.rows[w].state == Terminal
      ensures callbacks.lookup && outcome.UnknownNow? ==> store.rows[w].state == Unknown
      ensures callbacks.lookup && outcome !in {SubmittedNow, TerminalNow, UnknownNow} ==> store.rows == old(store.rows)
    {
      outcome := *;
      ok := !callbacks.lookup || outcome in {SubmittedNow, TerminalNow, UnknownNow};
      if callbacks.lookup {
        ghost var start := Now();
        ReconcileFound(o, w, found);
        if ok {
          ghost var reconciled := Now();
          MoveAsFound(o, w, outcome);
          KeptTwice(start, reconciled, Now(), o, w);
        }
      }
      if ok && (!callbacks.lookup || outcome.UnknownNow?) {
        counts := counts.(externalAmbiguity := counts.externalAmbiguity + 1);
      }
    }

    /** An intent that exists but is not linked yet is linked first (lines 506-516). */
    method LinkExisting(o: Owner, w: WorkflowId, found: Option<IntentId>) returns (ok: bool)
      requires Steady(o, w) && (found.Some? ==> BelongsTo(Now(), found.value, w))
      modifies this, store
      ensures Steady(o, w) && Kept(old(Now()), Now(), o, w) && old(log) <= log
      ensures intents == old(intents)
      ensures counts.claimed == old(counts.claimed) && counts.failedRetryable == old(counts.failedRetryable)
      ensures calls == old(calls) && (found.Some? ==> BelongsTo(Now(), found.value, w))
      ensures found.None? || old(store.rows)[w].intentId.Some? ==> ok && store.rows == old(store.rows)
      ensures ok <==> found.None? || old(store.rows)[w].intentId.Some? || old(store.rows)[w].state in {ApprovedPendingIntent, IntentCreated}
      ensures ok && found.Some? && old(store.rows)[w].intentId.None? ==> store.rows[w].state == IntentCreated && store.rows[w].intentId == found
    {
      ok := true;
      if found.Some? && store.rows[w].intentId.None? {
        ok := MoveRow(o, w, IntentCreated, Some(o), found);
        if ok {
          counts := counts.(existingIntentLinked := counts.existingIntentLinked + 1);
        }
      }
    }

    /** A started submission whose intent proves the broker was never asked is queued again
        (lines 517-540). */
    method RequeueUnsent(o: Owner, w: WorkflowId, found: Option<IntentId>) returns (ok: bool)
      requires Steady(o, w) && (found.Some? ==> BelongsTo(Now(), found.value, w))
      modifies this, store
      ensures Steady(o, w) && Kept(old(Now()), Now(), o, w) && old(log) <= log && counts == old(counts)
      ensures found.Some? ==> BelongsTo(Now(), found.value, w)
      ensures calls == old(calls)
      ensures if StartedUnsent(old(Now()), w, found) then
                ok && store.rows[w].state == SubmissionPending && intents == old(intents)[found.value := old(intents)[found.value].(state := O.RetryablePreSubmission)]
              else ok && store.rows == old(store.rows) && intents == old(intents)
    {
      ok := true;
      if store.rows[w].state == SubmissionStarted && found.Some? {
        var i := found.value;
        if !intents[i].invoked && intents[i].state in {O.Submitting, O.RetryablePreSubmission} {
          Requeue(o, w, i);
        }
      }
    }

    /** Everything `recover` does with one claimed row (lines 500-923).  False stands for an
        exception that the loop catches. */
    method ProcessRow(o: Owner, w: WorkflowId, callbacks: Callbacks, newIntent: IntentId) returns (ok: bool, report: Report)
      requires Steady(o, w)
      modifies this, store
      ensures Steady(o, w) && Kept(old(Now()), Now(), o, w) && old(log) <= log
      ensures counts.claimed == old(counts.claimed) && counts.failedRetryable == old(counts.failedRetryable)
      ensures FoundFor(old(Now()), w, report.found)
      ensures calls == CallsAfterWork(old(calls), report.found, report.work)
      ensures ok ==> WorkedOn(old(Now()), Now(), w, callbacks, report)
    {
      ghost var start := Now();
      var found := FindIntent(store.rows[w].approvalId);
      report := Report(found, None, Untouched);
      ok := LinkExisting(o, w, found);
      if !ok {
        return;
      }
      ghost var before := Now();
      ok := RequeueUnsent(o, w, found);
      KeptTwice(start, before, Now(), o, w);
      if !ok {
        return;
      }
      before := Now();
      assert EntryOf(start, before, w, found);
      ok, report := ProcessState(o, w, found, callbacks, newIntent);
      KeptTwice(start, before, Now(), o, w);
    }

    method ValidateFirst(o: Owner, w: WorkflowId, callbacks: Callbacks) returns (ok: bool, decision: Option<Decision>)
      requires Steady(o, w)
      modifies this, store
      ensures Steady(o, w) && Kept(old(Now()), Now(), o, w) && old(log) <= log && intents == old(intents) && calls == old(calls)
      ensures counts.claimed == old(counts.claimed) && counts.failedRetryable == old(counts.failedRetryable)
      ensures decision.Some? <==> callbacks.validator && old(store.rows)[w].state in {Received, Authorized, TargetResolved, Validating}
      ensures ok && decision.None? ==> store.rows == old(store.rows)
      ensures ok && decision.Some? ==> store.rows[w].state == ValidatedAs(old(store.rows)[w].state, decision.value)
    {
      ok, decision := true, None;
      if callbacks.validator && store.rows[w].state in {Received, Authorized, TargetResolved, Validating} {
        var decided;
        ok, decided := Validate(o, w);
        decision := Some(decided);
      }
    }

    method ProcessState(o: Owner, w: WorkflowId, found: Option<IntentId>, callbacks: Callbacks, newIntent: IntentId)
      returns (ok: bool, report: Report)
      requires Steady(o, w) && (found.Some? ==> BelongsTo(Now(), found.value, w))
      modifies this, store
      ensures Steady(o, w) && Kept(old(Now()), Now(), o, w) && old(log) <= log
      ensures counts.claimed == old(counts.claimed) && counts.failedRetryable == old(counts.failedRetryable)
      ensures report.found == found
      ensures calls == CallsAfterWork(old(calls), found, report.work)
      ensures ok ==> Advanced(old(store.rows)[w].state, FoundIn(old(Now()), found), store.rows[w].state, callbacks, report)
    {
      ghost var start := Now();
      var decision, work;
      ok, decision := ValidateFirst(o, w, callbacks);
      report := Report(found, decision, Untouched);
      if ok {
        ghost var before := Now();
        ok, work := WorkOnState(o, w, found, callbacks, newIntent);
        report := Report(found, decision, work);
        KeptTwice(start, before, Now(), o, w);
      }
    }

    method WorkOnState(o: Owner, w: WorkflowId, found: Option<IntentId>, callbacks: Callbacks, newIntent: IntentId)
      returns (ok: bool, work: Work)
      requires Steady(o, w) && (found.Some? ==> BelongsTo(Now(), found.value, w))
      modifies this, store
      ensures Steady(o, w) && Kept(old(Now()), Now(), o, w) && old(log) <= log
      ensures counts.claimed == old(counts.claimed) && counts.failedRetryable == old(counts.failedRetryable)
      ensures WorkFits(old(store.rows)[w].state, FoundIn(old(Now()), found), callbacks, work)
      ensures calls == CallsAfterWork(old(calls), found, work)
      ensures ok ==> store.rows[w].state == WorkedTo(old(store.rows)[w].state, FoundIn(old(Now()), found), callbacks, work)
    {
      ok, work := true, Untouched;
      if store.rows[w].state == ApprovedPendingIntent {
        var fate;
        ok, fate := CreateAndQueue(o, w, callbacks, newIntent);
        work := Queued(fate);
      } else if store.rows[w].state == IntentCreated {
        ok := ResumeIntent(o, w, found);
        work := Resumed;
      } else if store.rows[w].state == SubmissionPending && callbacks.submitter {
        var handling;
        ok, handling := SubmitPending(o, w, found, callbacks);
        work := Handled(handling);
      } else if store.rows[w].state in {SubmissionStarted, Submitted, Unknown} {
        var outcome;
        ok, outcome := LookUp(o, w, found, callbacks);
        work := LookedUp(outcome);
      }
    }

    // ----- the pass ------------------------------------------------------------------------

    /** A row that is new to this pass is counted and processed. */
    method ServeNew(o: Owner, w: WorkflowId, callbacks: Callbacks)
      requires Steady(o, w)
      modifies this, store
      ensures Steady(o, w) && Kept(old(Now()), Now(), o, w) && old(log) <= log
      ensures counts.claimed == old(counts).claimed + 1 && counts.failedRetryable <= old(counts).failedRetryable + 1
    {
      counts := counts.(claimed := counts.claimed + 1);
      var newIntent: IntentId := *;
      var ok, report := ProcessRow(o, w, callbacks, newIntent);
      if !ok {
        counts := counts.(failedRetryable := counts.failedRetryable + 1);
      }
    }

    /** One turn of the loop.  `claimed` is the row that came up, if any; if it was seen before,
        it is only released again. */
    method TakeTurn(o: Owner, callbacks: Callbacks, seen: set<WorkflowId>)
      returns (claimed: Option<WorkflowId>, ghost claimTime: int)
      requires Valid() && o !in phase
      modifies this, store
      ensures Valid() && o !in phase && old(log) <= log
      ensures old(clock) < claimTime <= clock
      ensures claimed.None? ==> store.rows == old(store.rows) && forall x :: x in store.rows ==> !Claimable(store.rows[x], o, claimTime)
      ensures claimed.Some? ==>
        IsNext(old(store.rows), claimed.value, o, claimTime) && Rewrites(old(store.rows), store.rows, claimed.value, clock)
      ensures claimed.Some? && claimed.value !in seen ==>
        counts.claimed == old(counts).claimed + 1 && counts.failedRetryable <= old(counts).failedRetryable + 1 && claimTime < clock
      ensures claimed.None? || claimed.value in seen ==> counts == old(counts)
    {
      claimed := ClaimNextRow(o);
      claimTime := clock;
      if claimed.Some? {
        var w := claimed.value;
        if w !in seen {
          ServeNew(o, w, callbacks);
        }
        ReleaseRow(o, w);
      }
    }

    /** One recovery pass by a worker that runs alone.

        Everything it does is a run of the protocol.  It claims no row twice, touches no row it
        does not claim (PassSoFar), and if max_items covers the rows whose turn can come before
        it ends, it claims every row that was claimable when it started. */
    method Recover(o: Owner, callbacks: Callbacks, maxItems: nat) returns (summary: Summary, ghost processed: seq<WorkflowId>)
      requires Valid() && o !in phase
      requires forall x :: x in store.rows ==> store.rows[x].updatedAt <= clock
      modifies this, store
      ensures Valid() && o !in phase && old(log) <= log
      ensures PassSoFar(old(store.rows), store.rows, old(clock), clock, o, processed)
      ensures summary.claimed == |processed| <= maxItems && summary.failedRetryable <= summary.claimed
      ensures |Due(old(store.rows), o, clock)| <= maxItems ==> forall x :: x in Due(old(store.rows), o, old(clock)) ==> x in processed
      ensures NoOtherLeaseEnds(old(store.rows), o, old(clock), clock) && |Due(old(store.rows), o, old(clock))| <= maxItems ==>
                forall x :: x in Due(old(store.rows), o, old(clock)) ==> x in processed
    {
      counts := Summary(0, 0, 0, 0, 0, 0, 0);
      var seen: set<WorkflowId> := {};
      processed := [];
      ghost var rows0, clock0 := store.rows, clock;
      for n := 0 to maxItems
        invariant Valid() && o !in phase && old(log) <= log
        invariant PassSoFar(rows0, store.rows, clock0, clock, o, processed)
        invariant |processed| == n && counts.claimed == n && counts.failedRetryable <= n
        invariant forall x :: x in seen <==> x in processed
      {
        ghost var rows1, clock1 := store.rows, clock;
        var claimed, claimTime := TakeTurn(o, callbacks, seen);
        if claimed.None? || claimed.value in seen {
          NothingNewLeft(rows0, rows1, clock0, clock1, claimTime, o, processed, claimed);
          PassEnds(rows0, rows1, store.rows, clock0, clock1, clock, o, processed, claimed);
          DueStays(rows0, o, clock0, clock);
          summary := counts;
          return;
        }
        seen := seen + {claimed.value};
        PassGoesOn(rows0, rows1, store.rows, clock0, clock1, claimTime, clock, o, processed, claimed.value);
        processed := processed + [claimed.value];
      }
      summary := counts;
      DueStays(rows0, o, clock0, clock);
      ItemsCovered(rows0, store.rows, clock0, clock, o, processed, maxItems);
    }
  }

  /** Any number of passes, each cut short anywhere, ask the broker at most once per intent. */
  lemma PassesAskAtMostOnce(service: RecoveryService, startTime: int, i: IntentId)
    requires service.Valid() && service.origin == Initial(startTime)
    ensures Calls(service.Now(), i) <= 1
    ensures Calls(service.Now(), i) == 1 ==> i in service.intents && service.intents[i].invoked
  {
    LeadsToIsExec(service.origin, service.log, service.Now());
    AtMostOneBrokerRequest(startTime, service.log, i);
  }

  /** The rows whose turn may come for owner o at the given time. */
  ghost function Due(t: Table, o: Owner, now: int): set<WorkflowId> {
    set x | x in t && Claimable(t[x], o, now)
  }

  /** No lease of another owner runs out between the two moments. */
  ghost predicate NoOtherLeaseEnds(t: Table, o: Owner, from: int, to: int) {
    forall x :: x in t && IsRecoverable(t[x].state) && t[x].claimUntil.Some? && t[x].claimOwner != Some(o) ==>
      !(from < t[x].claimUntil.value <= to)
  }

  lemma DueStays(t: Table, o: Owner, from: int, to: int)
    requires from <= to
    ensures Due(t, o, from) <= Due(t, o, to)
    ensures NoOtherLeaseEnds(t, o, from, to) ==> Due(t, o, from) == Due(t, o, to)
  {
  }

  ghost predicate Rewrites(before: Table, after: Table, w: WorkflowId, now: int) {
    && after.Keys == before.Keys && w in before
    && (forall x :: x in before && x != w ==> after[x] == before[x])
    && after[w].updatedAt == now
  }

  /** What a pass has done to the table once it has finished with the rows `processed`. */
  ghost predicate PassSoFar(rows0: Table, rows: Table, clock0: int, clock: int, o: Owner, processed: seq<WorkflowId>) {
    && rows.Keys == rows0.Keys && clock0 <= clock
    && (forall x :: x in rows0 ==> rows0[x].updatedAt <= clock0)
    && (forall j, k :: 0 <= j < k < |processed| ==> processed[j] != processed[k])
    && (forall x :: x in processed ==> x in rows && Claimable(rows0[x], o, clock) && clock0 < rows[x].updatedAt)
    && (forall x :: x in rows && x !in processed ==> rows[x] == rows0[x])
    && (forall x :: x in rows ==> rows[x].updatedAt <= clock)
  }

  /** Rows that a pass has finished with are younger than those it has not reached: if the next
      claim brings up nothing new, then nothing that was claimable at the start is left. */
  lemma NothingNewLeft(rows0: Table, rows: Table, clock0: int, clock: int, now: int, o: Owner, processed: seq<WorkflowId>,
                       claimed: Option<WorkflowId>)
    requires PassSoFar(rows0, rows, clock0, clock, o, processed) && clock <= now
    requires claimed.None? ==> forall x :: x in rows ==> !Claimable(rows[x], o, now)
    requires claimed.Some? ==> claimed.value in processed && IsNext(rows, claimed.value, o, now)
    ensures forall x :: x in Due(rows0, o, clock0) ==> x in processed
  {
    forall x | x in Due(rows0, o, clock0)
      ensures x in processed
    {
      assert x !in processed ==> rows[x] == rows0[x] && Claimable(rows[x], o, now);
    }
  }

  lemma PassGoesOn(rows0: Table, rows1: Table, rows2: Table, clock0: int, clock1: int, claimTime: int, clock2: int, o: Owner,
                   processed: seq<WorkflowId>, w: WorkflowId)
    requires PassSoFar(rows0, rows1, clock0, clock1, o, processed) && clock1 <= claimTime < clock2
    requires w !in processed && IsNext(rows1, w, o, claimTime)
    requires Rewrites(rows1, rows2, w, clock2)
    ensures PassSoFar(rows0, rows2, clock0, clock2, o, processed + [w])
  {
    forall x | x in processed + [w]
      ensures x in rows2 && Claimable(rows0[x], o, clock2) && clock0 < rows2[x].updatedAt
    {
      assert x in processed || x == w;
    }
    forall x | x in rows2 && x !in processed + [w]
      ensures rows2[x] == rows0[x]
    {
      assert w in processed + [w] && x !in processed;
    }
  }

  lemma ElementsOf(s: seq<WorkflowId>) returns (elements: set<WorkflowId>)
    requires forall j, k :: 0 <= j < k < |s| ==> s[j] != s[k]
    ensures |elements| == |s| && forall x :: x in elements <==> x in s
  {
    if s == [] {
      elements := {};
    } else {
      var last := |s| - 1;
      var rest := ElementsOf(s[..last]);
      elements := rest + {s[last]};
      assert s == s[..last] + [s[last]];
    }
  }

  lemma SubsetOfSameSize<T>(a: set<T>, b: set<T>)
    requires a <= b && |b| <= |a|
    ensures a == b
  {
    assert b == a + (b - a);
  }

  lemma ItemsCovered(rows0: Table, rows: Table, clock0: int, clock: int, o: Owner, processed: seq<WorkflowId>, maxItems: nat)
    requires PassSoFar(rows0, rows, clock0, clock, o, processed) && |processed| == maxItems
    ensures |Due(rows0, o, clock)| <= maxItems ==> forall x :: x in Due(rows0, o, clock0) ==> x in processed
  {
    var due := Due(rows0, o, clock);
    if |due| <= maxItems {
      var elements := ElementsOf(processed);
      assert elements <= due;
      SubsetOfSameSize(elements, due);
      assert Due(rows0, o, clock0) <= due;
    }
  }

  /** The last turn brought up nothing, or a row the pass had finished with. */
  lemma PassEnds(rows0: Table, rows1: Table, rows2: Table, clock0: int, clock1: int, clock2: int, o: Owner,
                 processed: seq<WorkflowId>, claimed: Option<WorkflowId>)
    requires PassSoFar(rows0, rows1, clock0, clock1, o, processed) && clock1 < clock2
    requires claimed.None? ==> rows2 == rows1
    requires claimed.Some? ==> claimed.value in processed && Rewrites(rows1, rows2, claimed.value, clock2)
    ensures PassSoFar(rows0, rows2, clock0, clock2, o, processed)
  {
  }

  /** A step without a table transaction. */
  lemma NextCommit(s: Sys, a: Action, now: int)
    requires TableOp(s, a).None? && s.clock <= now
    ensures Next(s, Step(now, a)) == Effect(s, a, s.table, Nothing).(clock := now)
  {
  }

  lemma NextEnter(s: Sys, o: Owner, now: int)
    requires o in s.phase && s.phase[o].SawReady? && s.phase[o].i in s.intents && s.clock <= now
    ensures var p := s.phase[o];
      var (t, reply) := Apply(s.table, Move(p.w, SubmissionStarted, None, None, Some(o), None), now);
      Next(s, Step(now, Enter(o))) ==
        if reply.Done? then s.(clock := now, table := t, phase := s.phase[o := Entered(p.w, p.i)]) else s.(clock := now)
    ensures var w := s.phase[o].w; var (t, reply) := Apply(s.table, Move(w, SubmissionStarted, None, None, Some(o), None), now);
      && (!reply.Done? ==> t == s.table)
      && (w in s.table && s.table[w].claimOwner == Some(o) ==>
           (reply.Done? <==> s.table[w].state == SubmissionStarted || SubmissionStarted in Allowed(s.table[w].state)))
      && (reply.Done? ==> w in t && t[w].state == SubmissionStarted)
  {
  }

  lemma StageReached(k: nat, state: State, target: State)
    requires k < 4 && target == [Authorized, TargetResolved, Validating, ApprovedPendingIntent][k]
    requires k <= Rank(state) <= 4
    ensures Rank(target) == k + 1 && (state == target || target in Allowed(state) || k + 1 <= Rank(state))
  {
  }

  /** A claim finds a row exactly when some row is claimable. */
  lemma NextRowExists(t: Table, o: Owner, now: int)
    ensures (exists x :: x in t && Claimable(t[x], o, now)) ==> exists x :: IsNext(t, x, o, now)
  {
    if x :| x in t && Claimable(t[x], o, now) {
      var candidates := set y | y in t && Claimable(t[y], o, now);
      assert x in candidates;
      var best := FirstOf(t, candidates);
      assert forall other :: other in t && Claimable(t[other], o, now) ==> other in candidates;
      assert IsNext(t, best, o, now);
    }
  }

  lemma {:induction false} FirstOf(t: Table, ids: set<WorkflowId>) returns (best: WorkflowId)
    requires ids != {} && ids <= t.Keys
    ensures best in ids && forall other :: other in ids ==> Precedes(t, best, other)
    decreases |ids|
  {
    best :| best in ids;
    var others := ids - {best};
    assert ids == others + {best};
    if others != {} {
      var rest := FirstOf(t, others);
      if Precedes(t, rest, best) {
        best := rest;
      }
    }
  }
}
