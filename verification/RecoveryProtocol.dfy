/**
The recovery protocol of app/approval_workflow.py (recover) together with the durable steps of
the executor it calls (app/execution.py) and of the reconciler (app/reconciliation.py).

Any number of recovery workers run at once.  A step is one committed transaction, one read, or
one broker request; workers interleave at every step and may crash between any two.  What a
worker remembers between its steps is its `Phase`; what a crash leaves is everything else.

The executor may also be called from outside recovery. Such a process enters the same durable steps
without a claim (`Execute`); afterwards it may do whatever a worker may, which is more than it does.
*/
module RecoveryProtocol {
  import opened Wrappers
  import opened WorkflowTable
  import O = OrderStates

  const LEASE_SECONDS := 30

  datatype Intent = Intent(approvalId: ApprovalId, state: O.State, invoked: bool)

  datatype Phase =
    | Holding(w: WorkflowId)                                               // claimed the row
    | SawSubmitting(w: WorkflowId, i: IntentId)                            // read "submitting", marker clear
    | SawReady(w: WorkflowId, i: IntentId, seen: O.State, clear: bool)     // read a ready intent
    | Entered(w: WorkflowId, i: IntentId)                                  // inside the submission callback
    | Sending(w: WorkflowId, i: IntentId)                                  // intent put to "submitting"
    | Marked(w: WorkflowId, i: IntentId)                                   // marker committed, request not begun
    | Sent(w: WorkflowId, i: IntentId)                                     // the broker may have the order
    | Unsent(w: WorkflowId, i: IntentId)                                   // adapter proved no request, marker cleared

  /** `calls` counts broker requests per intent; nothing in the system can read it. */
  datatype Sys = Sys(
    clock: int,
    table: Table,
    intents: map<IntentId, Intent>,
    calls: map<IntentId, nat>,
    phase: map<Owner, Phase>)

  datatype Action =
    | TableWrite(op: Op)                              // any process
    | CreateIntent(i: IntentId, approvalId: ApprovalId)
    | Reconcile(i: IntentId, outcome: O.State)
    | ClaimRow(o: Owner)
    | ReadSubmitting(o: Owner, i: IntentId)
    | ReturnToRetryable(o: Owner)
    | ReadReady(o: Owner, i: IntentId)
    | Defer(o: Owner)
    | Expire(o: Owner)
    | Enter(o: Owner)
    | StartSending(o: Owner)
    | ExpireInside(o: Owner)
    | Mark(o: Owner)
    | AbandonSend(o: Owner)
    | Send(o: Owner)
    | ProveUnsent(o: Owner)
    | RejectUnsent(o: Owner)
    | Record(o: Owner, outcome: O.State)
    | Leave(o: Owner)                                 // callback over, back to the recovery loop
    | FinishRow(o: Owner)
    | Crash(o: Owner)
    | Execute(o: Owner, w: WorkflowId, i: IntentId)   // the executor, called from outside recovery

  datatype Step = Step(now: int, action: Action)

  function Calls(s: Sys, i: IntentId): nat {
    if i in s.calls then s.calls[i] else 0
  }

  function WithPhase(s: Sys, o: Owner, p: Phase): Sys {
    s.(phase := s.phase[o := p])
  }

  function WithState(s: Sys, i: IntentId, state: O.State): Sys
    requires i in s.intents
  {
    s.(intents := s.intents[i := s.intents[i].(state := state)])
  }

  function WithMarker(s: Sys, i: IntentId, invoked: bool): Sys
    requires i in s.intents
  {
    s.(intents := s.intents[i := s.intents[i].(invoked := invoked)])
  }

  predicate BelongsTo(s: Sys, i: IntentId, w: WorkflowId) {
    i in s.intents && w in s.table && s.intents[i].approvalId == s.table[w].approvalId
  }

  /** The condition under which the marker transaction commits (app/execution.py:2925-2962). */
  ghost predicate MayMark(s: Sys, i: IntentId) {
    && i in s.intents && s.intents[i].state == O.Submitting && !s.intents[i].invoked
    && exists w :: HasApproval(s.table, w, s.intents[i].approvalId)
         && s.table[w].state == SubmissionStarted && s.table[w].intentId == Some(i)
  }

  predicate InPhase(s: Sys, o: Owner) {
    o in s.phase && (s.phase[o].Holding? || s.phase[o].i in s.intents)
  }

  predicate IsEnvironmentWrite(op: Op) {
    !op.Claim? && !op.Release? && !op.LinkNewIntent?
  }

  /** The workflow-table transaction a step runs, if it runs one. */
  function TableOp(s: Sys, a: Action): Option<Op> {
    match a
    case TableWrite(op) => if IsEnvironmentWrite(op) then Some(op) else None
    case CreateIntent(i, approvalId) => Some(LinkNewIntent(approvalId, i))
    case ClaimRow(o) => Some(Claim(o, LEASE_SECONDS))
    case Enter(o) =>
      if InPhase(s, o) then Some(Move(s.phase[o].w, SubmissionStarted, None, None, Some(o), None)) else None
    case FinishRow(o) => if InPhase(s, o) then Some(Release(s.phase[o].w, o)) else None
    case _ => None
  }

  ghost function TableAnswer(t: Table, op: Option<Op>, now: int): (Table, Reply) {
    if op.Some? then Apply(t, op.value, now) else (t, Nothing)
  }

  /** What one step does, when its table transaction leaves table t and answers `reply`.
      A step that is not possible changes nothing. */
  ghost function Effect(s: Sys, a: Action, t: Table, reply: Reply): Sys {
    match a
    case TableWrite(_) => s.(table := t)
    case CreateIntent(i, approvalId) =>
      if i !in s.intents && reply.Done? then
        s.(table := t, intents := s.intents[i := Intent(approvalId, O.Reserved, false)])
      else s
    case Reconcile(i, outcome) =>
      if i in s.intents && outcome in O.Allowed(s.intents[i].state) && O.IsBrokerOutcome(outcome) then
        WithState(s, i, outcome)
      else s
    case ClaimRow(o) =>
      if o !in s.phase && reply.Done? then WithPhase(s.(table := t), o, Holding(reply.id)) else s
    case Crash(o) => s.(phase := s.phase - {o})
    case Execute(o, w, i) => if o !in s.phase && BelongsTo(s, i, w) then WithPhase(s, o, Entered(w, i)) else s
    case _ =>
      if !InPhase(s, a.o) then s
      else WorkerEffect(s, a, s.phase[a.o], t, reply)
  }

  predicate IsWorkerAction(a: Action) {
    !a.TableWrite? && !a.CreateIntent? && !a.Reconcile? && !a.ClaimRow? && !a.Crash? && !a.Execute?
  }

  ghost function WorkerEffect(s: Sys, a: Action, p: Phase, t: Table, reply: Reply): Sys
    requires IsWorkerAction(a)
    requires InPhase(s, a.o) && p == s.phase[a.o]
  {
    match a
    case ReadSubmitting(o, i) =>
      if p.Holding? && BelongsTo(s, i, p.w) && s.intents[i].state == O.Submitting && !s.intents[i].invoked then
        WithPhase(s, o, SawSubmitting(p.w, i))
      else s
    case ReturnToRetryable(o) =>   // compare-and-swap on the state alone; the marker is not read again
      if p.SawSubmitting? && s.intents[p.i].state == O.Submitting then
        WithPhase(WithState(s, p.i, O.RetryablePreSubmission), o, Holding(p.w))
      else s
    case ReadReady(o, i) =>
      if p.Holding? && BelongsTo(s, i, p.w) && O.IsReady(s.intents[i].state) then
        WithPhase(s, o, SawReady(p.w, i, s.intents[i].state, !s.intents[i].invoked))
      else s
    case Defer(o) =>
      if p.SawReady? && p.clear && s.intents[p.i].state == p.seen then
        WithPhase(WithState(s, p.i, O.RetryablePreSubmission), o, Holding(p.w))
      else s
    case Expire(o) =>
      if p.SawReady? && s.intents[p.i].state == p.seen then
        WithPhase(WithState(s, p.i, O.Expired), o, Holding(p.w))
      else s
    case Enter(o) =>
      if p.SawReady? && reply.Done? then WithPhase(s.(table := t), o, Entered(p.w, p.i)) else s
    case StartSending(o) =>        // the marker read just before is not relied on
      if p.Entered? && s.intents[p.i].state in {O.Reserved, O.RetryablePreSubmission, O.Submitting} then
        WithPhase(WithState(s, p.i, O.Submitting), o, Sending(p.w, p.i))
      else s
    case ExpireInside(o) =>
      if p.Entered? && O.IsReady(s.intents[p.i].state) then WithState(s, p.i, O.Expired) else s
    case Mark(o) =>
      if p.Sending? && MayMark(s, p.i) then WithPhase(WithMarker(s, p.i, true), o, Marked(p.w, p.i)) else s
    case AbandonSend(o) =>         // final controls failed: reject while still "submitting"
      if (p.Sending? || p.Marked?) && s.intents[p.i].state == O.Submitting then
        WithPhase(WithState(s, p.i, O.Rejected), o, Entered(p.w, p.i))
      else s
    case Send(o) =>
      if p.Marked? then WithPhase(s.(calls := s.calls[p.i := Calls(s, p.i) + 1]), o, Sent(p.w, p.i)) else s
    case ProveUnsent(o) =>
      if p.Marked? then WithPhase(WithMarker(s, p.i, false), o, Unsent(p.w, p.i)) else s
    case RejectUnsent(o) =>
      if p.Unsent? && O.Rejected in O.Allowed(s.intents[p.i].state) then
        WithPhase(WithState(s, p.i, O.Rejected), o, Entered(p.w, p.i))
      else s
    case Record(o, outcome) =>
      if p.Sent? && outcome in O.Allowed(s.intents[p.i].state) && O.IsBrokerOutcome(outcome) then
        WithPhase(WithState(s, p.i, outcome), o, Entered(p.w, p.i))
      else s
    case Leave(o) => WithPhase(s, o, Holding(p.w))
    case FinishRow(o) =>
      if p.Holding? then s.(table := t, phase := s.phase - {o}) else s
  }

  ghost function Next(s: Sys, step: Step): Sys {
    if step.now < s.clock then s
    else
      var (t, reply) := TableAnswer(s.table, TableOp(s, step.action), step.now);
      Effect(s, step.action, t, reply).(clock := step.now)
  }

  ghost function Exec(s: Sys, steps: seq<Step>): Sys {
    if steps == [] then s else Next(Exec(s, steps[..|steps| - 1]), steps[|steps| - 1])
  }

  ghost function ExecFirst(s: Sys, steps: seq<Step>, n: nat): Sys
    requires n <= |steps|
  {
    Exec(s, steps[..n])
  }

  /** Exec(s, steps) == s', in a form the verifier opens only when it is asked to. */
  ghost predicate LeadsTo(s: Sys, steps: seq<Step>, s': Sys) {
    forall n {:trigger ExecFirst(s, steps, n)} :: n == |steps| ==> ExecFirst(s, steps, n) == s'
  }

  lemma LeadsToIsExec(s: Sys, steps: seq<Step>, s': Sys)
    ensures LeadsTo(s, steps, s') <==> Exec(s, steps) == s'
  {
    assert steps[..|steps|] == steps;
    assert ExecFirst(s, steps, |steps|) == Exec(s, steps);
  }

  lemma LeadsToStep(s: Sys, steps: seq<Step>, s': Sys, step: Step)
    requires LeadsTo(s, steps, s')
    ensures LeadsTo(s, steps + [step], Next(s', step))
  {
    LeadsToIsExec(s, steps, s');
    LeadsToIsExec(s, steps + [step], Next(s', step));
    assert (steps + [step])[..|steps|] == steps;
  }

  ghost function Initial(clock: int): Sys {
    Sys(clock, map[], map[], map[], map[])
  }

  // ----- at most one broker request per intent ------------------------------------------

  /** Each set marker is worth one broker request: it is either still in the hands of the one
      worker that set it, or spent, or lost in a crash. */
  ghost predicate MarkersAreTokens(s: Sys) {
    && (forall i :: i in s.calls ==> i in s.intents)
    && (forall i :: i in s.intents ==> Calls(s, i) <= if s.intents[i].invoked then 1 else 0)
    && (forall o :: o in s.phase && s.phase[o].Marked? ==>
         s.phase[o].i in s.intents && s.intents[s.phase[o].i].invoked && Calls(s, s.phase[o].i) == 0)
    && (forall o, p :: o in s.phase && p in s.phase && s.phase[o].Marked? && s.phase[p].Marked? && s.phase[o].i == s.phase[p].i ==> o == p)
  }

  predicate MovesTokens(a: Action) {
    a.Mark? || a.Send? || a.ProveUnsent?
  }

  ghost predicate TokensUntouched(s: Sys, s': Sys) {
    && s'.calls == s.calls
    && (forall i :: i in s.intents ==> i in s'.intents && s'.intents[i].invoked == s.intents[i].invoked)
    && (forall i :: i in s'.intents && i !in s.intents ==> !s'.intents[i].invoked)
    && (forall o :: o in s'.phase && s'.phase[o].Marked? ==> o in s.phase && s.phase[o] == s'.phase[o])
  }

  lemma QuietWork(s: Sys, a: Action, p: Phase, t: Table, reply: Reply)
    requires IsWorkerAction(a) && !MovesTokens(a) && InPhase(s, a.o) && p == s.phase[a.o]
    ensures TokensUntouched(s, WorkerEffect(s, a, p, t, reply))
  {
  }

  lemma QuietStep(s: Sys, a: Action, t: Table, reply: Reply)
    requires !MovesTokens(a)
    ensures TokensUntouched(s, Effect(s, a, t, reply))
  {
    if IsWorkerAction(a) && InPhase(s, a.o) {
      QuietWork(s, a, s.phase[a.o], t, reply);
    }
  }

  lemma UntouchedKeepsTokens(s: Sys, s': Sys)
    requires MarkersAreTokens(s) && TokensUntouched(s, s')
    ensures MarkersAreTokens(s')
  {
  }

  lemma MovingKeepsTokens(s: Sys, a: Action, p: Phase, t: Table, reply: Reply)
    requires MarkersAreTokens(s) && MovesTokens(a) && InPhase(s, a.o) && p == s.phase[a.o]
    ensures MarkersAreTokens(WorkerEffect(s, a, p, t, reply))
  {
  }

  lemma MovingIsWork(s: Sys, a: Action, t: Table, reply: Reply)
    requires MovesTokens(a)
    ensures Effect(s, a, t, reply) == if InPhase(s, a.o) then WorkerEffect(s, a, s.phase[a.o], t, reply) else s
  {
  }

  lemma EffectKeepsTokens(s: Sys, a: Action, t: Table, reply: Reply)
    requires MarkersAreTokens(s)
    ensures MarkersAreTokens(Effect(s, a, t, reply))
  {
    if !MovesTokens(a) {
      QuietStep(s, a, t, reply);
      UntouchedKeepsTokens(s, Effect(s, a, t, reply));
    } else {
      MovingIsWork(s, a, t, reply);
      if InPhase(s, a.o) {
        MovingKeepsTokens(s, a, s.phase[a.o], t, reply);
      }
    }
  }

  lemma StepKeepsTokens(s: Sys, step: Step)
    requires MarkersAreTokens(s)
    ensures MarkersAreTokens(Next(s, step))
  {
    var (t, reply) := TableAnswer(s.table, TableOp(s, step.action), step.now);
    EffectKeepsTokens(s, step.action, t, reply);
  }

  lemma {:induction false} RunKeepsTokens(s: Sys, steps: seq<Step>)
    requires MarkersAreTokens(s)
    ensures MarkersAreTokens(Exec(s, steps))
  {
    if steps != [] {
      RunKeepsTokens(s, steps[..|steps| - 1]);
      StepKeepsTokens(Exec(s, steps[..|steps| - 1]), steps[|steps| - 1]);
    }
  }

  /** Whatever workers do, however they interleave, crash or lose their leases, the broker is
      asked at most once per intent, and an intent it was asked about stays marked. */
  lemma AtMostOneBrokerRequest(clock: int, steps: seq<Step>, i: IntentId)
    ensures var s := Exec(Initial(clock), steps);
      Calls(s, i) <= 1 && (Calls(s, i) == 1 ==> i in s.intents && s.intents[i].invoked)
  {
    RunKeepsTokens(Initial(clock), steps);
  }

  // ----- nothing is submitted once the broker may have the order ---------------------------

  lemma EffectTable(s: Sys, a: Action, t: Table, reply: Reply)
    ensures Effect(s, a, t, reply).table in {s.table, t}
  {
  }

  lemma StepKeepsTable(s: Sys, step: Step)
    ensures Extends(s.table, Next(s, step).table)
    ensures Unique(s.table) ==> Unique(Next(s, step).table)
  {
    var op := TableOp(s, step.action);
    var (t, reply) := TableAnswer(s.table, op, step.now);
    EffectTable(s, step.action, t, reply);
    if op.Some? {
      StepExtends(s.table, op.value, step.now);
      if Unique(s.table) {
        StepKeepsUnique(s.table, op.value, step.now);
      }
    }
  }

  predicate InsideSubmitter(p: Phase) {
    p.Entered? || p.Sending? || p.Marked? || p.Sent? || p.Unsent?
  }

  ghost predicate PhasesBelong(s: Sys) {
    forall o :: o in s.phase ==>
      && s.phase[o].w in s.table
      && (s.phase[o].Holding? || BelongsTo(s, s.phase[o].i, s.phase[o].w))
      && (s.phase[o].SawReady? ==> O.IsReady(s.phase[o].seen))
  }

  lemma StepKeepsIntents(s: Sys, step: Step)
    ensures forall i :: i in s.intents ==>
      i in Next(s, step).intents && Next(s, step).intents[i].approvalId == s.intents[i].approvalId
  {
    var (t, reply) := TableAnswer(s.table, TableOp(s, step.action), step.now);
    EffectKeepsIntents(s, step.action, t, reply);
  }

  lemma EffectKeepsIntents(s: Sys, a: Action, t: Table, reply: Reply)
    ensures forall i :: i in s.intents ==>
      i in Effect(s, a, t, reply).intents && Effect(s, a, t, reply).intents[i].approvalId == s.intents[i].approvalId
  {
  }

  /** A worker's phase changes only by its own steps, and stays on its row and its row's intent. */
  lemma WorkOnPhase(s: Sys, a: Action, p: Phase, t: Table, reply: Reply, o: Owner)
    requires IsWorkerAction(a) && InPhase(s, a.o) && p == s.phase[a.o] && o in WorkerEffect(s, a, p, t, reply).phase
    ensures o in s.phase
    ensures var p' := WorkerEffect(s, a, p, t, reply).phase[o];
      && p'.w == s.phase[o].w
      && (p'.Holding? || (!s.phase[o].Holding? && p'.i == s.phase[o].i) || BelongsTo(s, p'.i, p'.w))
      && (p'.SawReady? ==> p' == s.phase[o] || O.IsReady(p'.seen))
  {
  }

  lemma EffectOnPhase(s: Sys, a: Action, t: Table, reply: Reply, o: Owner)
    requires o in Effect(s, a, t, reply).phase
    ensures var p' := Effect(s, a, t, reply).phase[o];
      if o in s.phase then
        && p'.w == s.phase[o].w
        && (p'.Holding? || (!s.phase[o].Holding? && p'.i == s.phase[o].i) || BelongsTo(s, p'.i, p'.w))
        && (p'.SawReady? ==> p' == s.phase[o] || O.IsReady(p'.seen))
      else
        || (reply.Done? && p' == Holding(reply.id) && a == ClaimRow(o) && Effect(s, a, t, reply).table == t)
        || (p'.Entered? && BelongsTo(s, p'.i, p'.w) && a == Execute(o, p'.w, p'.i))
  {
    if IsWorkerAction(a) && InPhase(s, a.o) {
      WorkOnPhase(s, a, s.phase[a.o], t, reply, o);
    }
  }

  lemma StepKeepsPhases(s: Sys, step: Step)
    requires PhasesBelong(s)
    ensures PhasesBelong(Next(s, step))
  {
    StepKeepsTable(s, step);
    StepKeepsIntents(s, step);
    var (t, reply) := TableAnswer(s.table, TableOp(s, step.action), step.now);
    var s' := Next(s, step);
    if step.now >= s.clock {
      forall o | o in s'.phase
        ensures s'.phase[o].w in s'.table && (s'.phase[o].Holding? || BelongsTo(s', s'.phase[o].i, s'.phase[o].w))
        ensures s'.phase[o].SawReady? ==> O.IsReady(s'.phase[o].seen)
      {
        EffectOnPhase(s, step.action, t, reply, o);
        if o !in s.phase && step.action.ClaimRow? {
          StepWritesOneRow(s.table, Claim(o, LEASE_SECONDS), step.now);
        }
      }
    }
  }

  ghost predicate PastSubmission(s: Sys, w: WorkflowId) {
    w in s.table && Rank(s.table[w].state) >= 7
  }

  ghost predicate NobodyHoldsMarker(s: Sys, i: IntentId) {
    forall o :: o in s.phase && s.phase[o].Marked? ==> s.phase[o].i != i
  }

  ghost predicate NobodyInsideSubmitter(s: Sys, w: WorkflowId) {
    forall o :: o in s.phase && s.phase[o].w == w ==> !InsideSubmitter(s.phase[o])
  }

  lemma StepAfterTheBroker(s: Sys, step: Step, w: WorkflowId, i: IntentId)
    requires Unique(s.table) && PhasesBelong(s) && PastSubmission(s, w) && BelongsTo(s, i, w)
    requires NobodyHoldsMarker(s, i)
    ensures var s' := Next(s, step);
      NobodyHoldsMarker(s', i) && Calls(s', i) == Calls(s, i) && (NobodyInsideSubmitter(s, w) && !step.action.Execute? ==> NobodyInsideSubmitter(s', w))
  {
    assert !MayMark(s, i);
    var (t, reply) := TableAnswer(s.table, TableOp(s, step.action), step.now);
    EnterIsRefused(s, step.action, step.now, w);
    EffectAfterTheBroker(s, step.action, t, reply, w, i);
  }

  lemma EnterIsRefused(s: Sys, a: Action, now: int, w: WorkflowId)
    requires PastSubmission(s, w)
    ensures a.Enter? && InPhase(s, a.o) && s.phase[a.o].w == w ==> !TableAnswer(s.table, TableOp(s, a), now).1.Done?
  {
  }

  lemma WorkAfterTheBroker(s: Sys, a: Action, p: Phase, t: Table, reply: Reply, w: WorkflowId, i: IntentId)
    requires IsWorkerAction(a) && InPhase(s, a.o) && p == s.phase[a.o]
    requires NobodyHoldsMarker(s, i) && !MayMark(s, i) && (a.Enter? && p.w == w ==> !reply.Done?)
    ensures var s' := WorkerEffect(s, a, p, t, reply);
      NobodyHoldsMarker(s', i) && Calls(s', i) == Calls(s, i) && (NobodyInsideSubmitter(s, w) ==> NobodyInsideSubmitter(s', w))
  {
  }

  lemma EffectAfterTheBroker(s: Sys, a: Action, t: Table, reply: Reply, w: WorkflowId, i: IntentId)
    requires NobodyHoldsMarker(s, i) && !MayMark(s, i)
    requires a.Enter? && InPhase(s, a.o) && s.phase[a.o].w == w ==> !reply.Done?
    ensures var s' := Effect(s, a, t, reply);
      NobodyHoldsMarker(s', i) && Calls(s', i) == Calls(s, i) && (NobodyInsideSubmitter(s, w) && !a.Execute? ==> NobodyInsideSubmitter(s', w))
  {
    if IsWorkerAction(a) && InPhase(s, a.o) {
      WorkAfterTheBroker(s, a, s.phase[a.o], t, reply, w, i);
    }
  }

  predicate WithinRecovery(steps: seq<Step>) {
    forall k :: 0 <= k < |steps| ==> !steps[k].action.Execute?
  }

  /** Once a workflow is submitted, unknown or closed, and no worker is between its marker and
      its request, no number of steps by anybody asks the broker about its intent again, and no
      recovery worker enters the submission callback for it. */
  lemma {:induction false} NoRequestAfterTheBroker(s: Sys, steps: seq<Step>, w: WorkflowId, i: IntentId)
    requires Unique(s.table) && PhasesBelong(s) && PastSubmission(s, w) && BelongsTo(s, i, w)
    requires NobodyHoldsMarker(s, i)
    ensures var s' := Exec(s, steps);
      && Unique(s'.table) && PhasesBelong(s') && PastSubmission(s', w) && BelongsTo(s', i, w) && NobodyHoldsMarker(s', i)
      && Calls(s', i) == Calls(s, i)
      && (NobodyInsideSubmitter(s, w) && WithinRecovery(steps) ==> NobodyInsideSubmitter(s', w))
  {
    if steps != [] {
      var before, step := Exec(s, steps[..|steps| - 1]), steps[|steps| - 1];
      NoRequestAfterTheBroker(s, steps[..|steps| - 1], w, i);
      StepKeepsTable(before, step);
      StepKeepsIntents(before, step);
      StepKeepsPhases(before, step);
      StepAfterTheBroker(before, step, w, i);
    }
  }

  // ----- a ready intent was never sent, as long as no lease lapses --------------------------

  ghost predicate WorkersHoldLeases(s: Sys) {
    forall o :: o in s.phase ==>
      s.phase[o].w in s.table && s.table[s.phase[o].w].claimOwner == Some(o) && s.table[s.phase[o].w].claimUntil.Some?
  }

  /** No lease lapses under a live worker: whenever a row is claimed, the lease of a worker still
      at work on that row runs beyond that moment. */
  ghost predicate NoLapse(s: Sys, step: Step) {
    step.action.ClaimRow? ==>
      forall o :: o in s.phase && IsNext(s.table, s.phase[o].w, step.action.o, step.now) && s.table[s.phase[o].w].claimUntil.Some? ==>
        step.now < s.table[s.phase[o].w].claimUntil.value
  }

  ghost predicate NeverLapses(s: Sys, steps: seq<Step>) {
    forall k :: 0 <= k < |steps| ==> NoLapse(Exec(s, steps[..k]), steps[k])
  }

  ghost predicate ReadyMeansUnsent(s: Sys) {
    && (forall i :: i in s.intents && O.IsReady(s.intents[i].state) ==> !s.intents[i].invoked)
    && (forall o :: o in s.phase && s.phase[o].SawSubmitting? && s.phase[o].i in s.intents ==> !s.intents[s.phase[o].i].invoked)
  }

  ghost predicate Leased(s: Sys) {
    Unique(s.table) && PhasesBelong(s) && WorkersHoldLeases(s) && ReadyMeansUnsent(s)
  }

  lemma StepKeepsLeases(s: Sys, step: Step)
    requires PhasesBelong(s) && WorkersHoldLeases(s) && NoLapse(s, step) && !step.action.Execute?
    ensures WorkersHoldLeases(Next(s, step))
  {
    var (t, reply) := TableAnswer(s.table, TableOp(s, step.action), step.now);
    var s' := Next(s, step);
    EffectTable(s, step.action, t, reply);
    if step.now >= s.clock {
      forall o | o in s'.phase
        ensures s'.phase[o].w in s'.table && s'.table[s'.phase[o].w].claimOwner == Some(o) && s'.table[s'.phase[o].w].claimUntil.Some?
      {
        EffectOnPhase(s, step.action, t, reply, o);
        if step.action == FinishRow(o) {
          assert Effect(s, step.action, t, reply) == s;
        } else if o in s.phase {
          ClaimFieldsStay(s, step.action, step.now, o);
        } else {
          ClaimTakesRow(s.table, o, step.now);
        }
      }
    }
  }

  lemma ClaimTakesRow(t: Table, o: Owner, now: int)
    ensures var (t', reply) := Apply(t, Claim(o, LEASE_SECONDS), now);
      reply.Done? ==> reply.id in t' && t'[reply.id].claimOwner == Some(o) && t'[reply.id].claimUntil.Some?
  {
  }

  /** Only a claim or the holder's own release touches the claim of a live worker's row. */
  lemma ClaimFieldsStay(s: Sys, a: Action, now: int, o: Owner)
    requires WorkersHoldLeases(s) && o in s.phase && NoLapse(s, Step(now, a)) && !a.Execute?
    requires a != FinishRow(o)
    ensures var t, w := TableAnswer(s.table, TableOp(s, a), now).0, s.phase[o].w;
      Effect(s, a, t, TableAnswer(s.table, TableOp(s, a), now).1).table == s.table
      || (w in t && t[w].claimOwner == Some(o) && t[w].claimUntil.Some?)
  {
    var op := TableOp(s, a);
    if op.Some? {
      StepWritesOneRow(s.table, op.value, now);
    }
  }

  lemma RowHasOneWorker(s: Sys, o: Owner, p: Owner, i: IntentId)
    requires Leased(s) && o in s.phase && p in s.phase
    requires BelongsTo(s, i, s.phase[o].w) && BelongsTo(s, i, s.phase[p].w)
    ensures o == p
  {
  }

  predicate Marks(s: Sys, a: Action, i: IntentId) {
    a.Mark? && InPhase(s, a.o) && s.phase[a.o] == Sending(s.phase[a.o].w, i) && i in s.intents && s.intents[i].state == O.Submitting
  }

  predicate Returns(s: Sys, a: Action, i: IntentId) {
    a.ReturnToRetryable? && InPhase(s, a.o) && s.phase[a.o] == SawSubmitting(s.phase[a.o].w, i)
  }

  lemma WorkOnIntent(s: Sys, a: Action, p: Phase, t: Table, reply: Reply, i: IntentId)
    requires PhasesBelong(s) && IsWorkerAction(a) && InPhase(s, a.o) && p == s.phase[a.o] && i in WorkerEffect(s, a, p, t, reply).intents
    ensures var after := WorkerEffect(s, a, p, t, reply).intents[i];
      && i in s.intents
      && (after.invoked ==> s.intents[i].invoked || (Marks(s, a, i) && after.state == O.Submitting))
      && (O.IsReady(after.state) ==> O.IsReady(s.intents[i].state) || Returns(s, a, i))
  {
  }

  /** An intent gets marked only by Mark, and becomes ready only when created, when it already
      was, or when a worker that saw it unmarked returns it. */
  lemma EffectOnIntent(s: Sys, a: Action, t: Table, reply: Reply, i: IntentId)
    requires PhasesBelong(s) && i in Effect(s, a, t, reply).intents
    ensures var after := Effect(s, a, t, reply).intents[i];
      if i !in s.intents then !after.invoked
      else
        && (after.invoked ==> s.intents[i].invoked || (Marks(s, a, i) && after.state == O.Submitting))
        && (O.IsReady(after.state) ==> O.IsReady(s.intents[i].state) || Returns(s, a, i))
  {
    if IsWorkerAction(a) && InPhase(s, a.o) {
      WorkOnIntent(s, a, s.phase[a.o], t, reply, i);
    }
  }

  lemma WorkOnSight(s: Sys, a: Action, p: Phase, t: Table, reply: Reply, o: Owner)
    requires IsWorkerAction(a) && InPhase(s, a.o) && p == s.phase[a.o]
    requires o in WorkerEffect(s, a, p, t, reply).phase && WorkerEffect(s, a, p, t, reply).phase[o].SawSubmitting?
    ensures var s' := WorkerEffect(s, a, p, t, reply);
      (o in s.phase && s.phase[o] == s'.phase[o] && !(a.Mark? && a.o == o && s' != s))
      || (s'.phase[o].i in s.intents && !s.intents[s'.phase[o].i].invoked && a.ReadSubmitting?)
  {
  }

  lemma EffectOnSight(s: Sys, a: Action, t: Table, reply: Reply, o: Owner)
    requires o in Effect(s, a, t, reply).phase && Effect(s, a, t, reply).phase[o].SawSubmitting?
    ensures var p' := Effect(s, a, t, reply).phase[o];
      (o in s.phase && s.phase[o] == p' && !(a.Mark? && a.o == o && Effect(s, a, t, reply) != s))
      || (p'.i in s.intents && !s.intents[p'.i].invoked && a.ReadSubmitting?)
  {
    if IsWorkerAction(a) && InPhase(s, a.o) {
      WorkOnSight(s, a, s.phase[a.o], t, reply, o);
    }
  }

  lemma EffectKeepsReadyUnsent(s: Sys, a: Action, t: Table, reply: Reply)
    requires Leased(s)
    ensures ReadyMeansUnsent(Effect(s, a, t, reply))
  {
    var s' := Effect(s, a, t, reply);
    forall i | i in s'.intents
      ensures O.IsReady(s'.intents[i].state) ==> !s'.intents[i].invoked
    {
      EffectOnIntent(s, a, t, reply, i);
    }
    forall o | o in s'.phase && s'.phase[o].SawSubmitting? && s'.phase[o].i in s'.intents
      ensures !s'.intents[s'.phase[o].i].invoked
    {
      var i := s'.phase[o].i;
      EffectOnSight(s, a, t, reply, o);
      EffectOnIntent(s, a, t, reply, i);
      if Marks(s, a, i) {
        RowHasOneWorker(s, a.o, o, i);
      }
    }
  }

  lemma StepKeepsReadyUnsent(s: Sys, step: Step)
    requires Leased(s)
    ensures ReadyMeansUnsent(Next(s, step))
  {
    var (t, reply) := TableAnswer(s.table, TableOp(s, step.action), step.now);
    EffectKeepsReadyUnsent(s, step.action, t, reply);
  }

  lemma {:induction false} LeasedRunsStayLeased(s: Sys, steps: seq<Step>)
    requires Leased(s) && NeverLapses(s, steps) && WithinRecovery(steps)
    ensures Leased(Exec(s, steps))
  {
    if steps != [] {
      var last := |steps| - 1;
      forall k | 0 <= k < last
        ensures NoLapse(Exec(s, steps[..last][..k]), steps[..last][k])
      {
        assert steps[..last][..k] == steps[..k];
      }
      LeasedRunsStayLeased(s, steps[..last]);
      var before := Exec(s, steps[..last]);
      StepKeepsTable(before, steps[last]);
      StepKeepsPhases(before, steps[last]);
      StepKeepsLeases(before, steps[last]);
      StepKeepsReadyUnsent(before, steps[last]);
    }
  }

  /** In a run of recovery workers in which no lease lapses, an intent that recovery may still submit has a clear
      marker and was never sent; in particular nothing marked is ever made retryable. */
  lemma ReadyIntentsWereNeverSent(clock: int, steps: seq<Step>, i: IntentId)
    requires NeverLapses(Initial(clock), steps) && WithinRecovery(steps)
    ensures var s := Exec(Initial(clock), steps);
      i in s.intents && O.IsReady(s.intents[i].state) ==> !s.intents[i].invoked && Calls(s, i) == 0
  {
    LeasedRunsStayLeased(Initial(clock), steps);
    RunKeepsTokens(Initial(clock), steps);
  }

  // ----- and only then -------------------------------------------------------------------------

  /** One row and one intent, in the hands of the workers given. */
  function Small(now: int, row: Row, intent: Intent, calls: map<IntentId, nat>, phase: map<Owner, Phase>): Sys {
    Sys(now, map[0 := row], map[0 := intent], calls, phase)
  }

  /** Some run ends in s: one in which no lease lapses, if leased, and one of recovery workers, if recovery. */
  ghost predicate EndsSomeRun(s: Sys, leased: bool, recovery: bool) {
    exists clock, steps :: RunsTo(clock, steps, s, leased, recovery)
  }

  predicate Opened(s: Sys, n: nat) {
    true
  }

  /** EndsSomeRun(s, leased, recovery), opened only where Opened is mentioned. */
  ghost predicate Reached(s: Sys, leased: bool, recovery: bool) {
    forall n: nat {:trigger Opened(s, n)} :: Opened(s, n) ==> EndsSomeRun(s, leased, recovery)
  }

  ghost predicate RunsTo(clock: int, steps: seq<Step>, s: Sys, leased: bool, recovery: bool) {
    Exec(Initial(clock), steps) == s && (leased ==> NeverLapses(Initial(clock), steps)) && (recovery ==> WithinRecovery(steps))
  }

  lemma NeverLapsesNext(s: Sys, steps: seq<Step>, step: Step)
    requires NeverLapses(s, steps) && NoLapse(Exec(s, steps), step)
    ensures NeverLapses(s, steps + [step])
  {
    var longer := steps + [step];
    forall k | 0 <= k < |longer|
      ensures NoLapse(Exec(s, longer[..k]), longer[k])
    {
      assert longer[..k] == if k < |steps| then steps[..k] else steps;
    }
  }

  lemma ReachedStep(s: Sys, step: Step, leased: bool, recovery: bool)
    requires Reached(s, leased, recovery) && (leased ==> NoLapse(s, step)) && (recovery ==> !step.action.Execute?)
    ensures Reached(Next(s, step), leased, recovery)
  {
    assert Opened(s, 0);
    var clock, steps :| RunsTo(clock, steps, s, leased, recovery);
    assert (steps + [step])[..|steps|] == steps;
    if leased {
      NeverLapsesNext(Initial(clock), steps, step);
    }
    assert RunsTo(clock, steps + [step], Next(s, step), leased, recovery);
  }

  lemma ReachedEither(s: Sys, leased: bool, recovery: bool)
    requires Reached(s, true, true)
    ensures Reached(s, leased, recovery)
  {
    assert Opened(s, 0);
    var clock, steps :| RunsTo(clock, steps, s, true, true);
    assert RunsTo(clock, steps, s, leased, recovery);
  }

  const FIRST_ROW := Row(0, 0, None, TargetResolved, None, None, None, 0, 0, None, None, 0)

  lemma ReachedAccepted()
    ensures Reached(Sys(0, map[0 := FIRST_ROW], map[], map[], map[]), true, true)
  {
    assert RunsTo(0, [], Initial(0), true, true);
    var step := Step(0, TableWrite(Accept(0, 0, 0, None, true)));
    ReachedStep(Initial(0), step, true, true);
    assert Next(Initial(0), step).table == map[0 := FIRST_ROW];
  }

  lemma ReachedApproved()
    ensures Reached(Sys(0, map[0 := FIRST_ROW.(state := ApprovedPendingIntent, version := 2)], map[], map[], map[]), true, true)
  {
    ReachedAccepted();
    var s := Sys(0, map[0 := FIRST_ROW], map[], map[], map[]);
    var a := Step(0, TableWrite(Move(0, Validating, None, None, None, None)));
    var b := Step(0, TableWrite(Move(0, ApprovedPendingIntent, None, None, None, None)));
    ReachedStep(s, a, true, true);
    ReachedStep(Next(s, a), b, true, true);
    assert Next(s, a).table == map[0 := FIRST_ROW.(state := Validating, version := 1)];
    assert Next(Next(s, a), b).table == map[0 := FIRST_ROW.(state := ApprovedPendingIntent, version := 2)];
  }

  function PendingRow(): Row {
    Row(0, 0, None, SubmissionPending, Some(0), None, None, 0, 0, None, None, 4)
  }

  lemma ReachedPending()
    ensures Reached(Small(0, PendingRow(), Intent(0, O.Reserved, false), map[], map[]), true, true)
  {
    ReachedApproved();
    var s := Sys(0, map[0 := FIRST_ROW.(state := ApprovedPendingIntent, version := 2)], map[], map[], map[]);
    var a := Step(0, CreateIntent(0, 0));
    var b := Step(0, TableWrite(Move(0, SubmissionPending, None, None, None, None)));
    ReachedStep(s, a, true, true);
    ReachedStep(Next(s, a), b, true, true);
    assert HasApproval(s.table, 0, 0);
    assert Next(s, a) == Small(0, PendingRow().(state := IntentCreated, version := 3), Intent(0, O.Reserved, false), map[], map[]);
    assert Next(Next(s, a), b).table == map[0 := PendingRow()];
  }

  function StartedRow(): Row {
    Row(0, 0, None, SubmissionStarted, Some(0), Some(0), Some(30_000_000), 1, 0, None, None, 6)
  }

  lemma ReachedReady()
    ensures Reached(Small(0, ClaimedRow(PendingRow(), 0, LEASE_SECONDS, 0), Intent(0, O.Reserved, false), map[],
                          map[0 := SawReady(0, 0, O.Reserved, true)]), true, true)
  {
    ReachedPending();
    var s := Small(0, PendingRow(), Intent(0, O.Reserved, false), map[], map[]);
    var claim := Step(0, ClaimRow(0));
    ReachedStep(s, claim, true, true);
    assert IsNext(s.table, 0, 0, 0);
    var s1 := Small(0, ClaimedRow(PendingRow(), 0, LEASE_SECONDS, 0), Intent(0, O.Reserved, false), map[], map[0 := Holding(0)]);
    assert Next(s, claim) == s1;
    ReachedStep(s1, Step(0, ReadReady(0, 0)), true, true);
    assert Next(s1, Step(0, ReadReady(0, 0))).phase == map[0 := SawReady(0, 0, O.Reserved, true)];
  }

  lemma ReachedEntered()
    ensures Reached(Small(0, StartedRow(), Intent(0, O.Reserved, false), map[], map[0 := Entered(0, 0)]), true, true)
  {
    ReachedReady();
    var s2 := Small(0, ClaimedRow(PendingRow(), 0, LEASE_SECONDS, 0), Intent(0, O.Reserved, false), map[],
                    map[0 := SawReady(0, 0, O.Reserved, true)]);
    ReachedStep(s2, Step(0, Enter(0)), true, true);
    assert Next(s2, Step(0, Enter(0))) == Small(0, StartedRow(), Intent(0, O.Reserved, false), map[], map[0 := Entered(0, 0)]);
  }

  lemma ReachedSending()
    ensures Reached(Small(0, StartedRow(), Intent(0, O.Submitting, false), map[], map[0 := Sending(0, 0)]), true, true)
  {
    ReachedEntered();
    var s3 := Small(0, StartedRow(), Intent(0, O.Reserved, false), map[], map[0 := Entered(0, 0)]);
    ReachedStep(s3, Step(0, StartSending(0)), true, true);
    assert Next(s3, Step(0, StartSending(0))) == Small(0, StartedRow(), Intent(0, O.Submitting, false), map[], map[0 := Sending(0, 0)]);
  }

  /** The executor outside recovery takes no lease: it starts to send, then moves its workflow on. */
  function ExecutedRow(): Row {
    PendingRow().(state := SubmissionStarted, version := 5)
  }

  lemma ReachedExecuting()
    ensures Reached(Small(0, PendingRow(), Intent(0, O.Submitting, false), map[], map[0 := Sending(0, 0)]), true, false)
  {
    ReachedPending();
    var s := Small(0, PendingRow(), Intent(0, O.Reserved, false), map[], map[]);
    ReachedEither(s, true, false);
    ReachedStep(s, Step(0, Execute(0, 0, 0)), true, false);
    var s1 := Small(0, PendingRow(), Intent(0, O.Reserved, false), map[], map[0 := Entered(0, 0)]);
    assert Next(s, Step(0, Execute(0, 0, 0))) == s1;
    ReachedStep(s1, Step(0, StartSending(0)), true, false);
    assert Next(s1, Step(0, StartSending(0))) == Small(0, PendingRow(), Intent(0, O.Submitting, false), map[], map[0 := Sending(0, 0)]);
  }

  lemma ReachedExecuted()
    ensures Reached(Small(0, ExecutedRow(), Intent(0, O.Submitting, false), map[], map[0 := Sending(0, 0)]), true, false)
  {
    ReachedExecuting();
    var s := Small(0, PendingRow(), Intent(0, O.Submitting, false), map[], map[0 := Sending(0, 0)]);
    var move := Step(0, TableWrite(Move(0, SubmissionStarted, None, None, None, None)));
    ReachedStep(s, move, true, false);
    assert Next(s, move).table == map[0 := ExecutedRow()];
  }

  ghost predicate MarkedIsRetryable(s: Sys) {
    0 in s.intents && s.intents[0] == Intent(0, O.RetryablePreSubmission, true) && Calls(s, 0) == 1
  }

  /** A run after which a marked intent, already sent, waits for another submission. */
  ghost predicate ShowsIt(clock: int, steps: seq<Step>, leased: bool, recovery: bool) {
    && (leased ==> NeverLapses(Initial(clock), steps)) && (recovery ==> WithinRecovery(steps))
    && MarkedIsRetryable(Exec(Initial(clock), steps))
  }

  /** Both provisos are needed. Here the first worker's lease runs out while it is about to
      commit its marker, a second worker has read the marker as clear, and after the order has
      gone out the second worker puts the marked intent back to retryable. */
  lemma LapsedLeaseMakesMarkedIntentRetryable()
    ensures exists clock, steps :: ShowsIt(clock, steps, false, true)
  {
    ReachedSending();
    var s := Small(0, StartedRow(), Intent(0, O.Submitting, false), map[], map[0 := Sending(0, 0)]);
    ReachedEither(s, false, true);
    SecondWorkerReturnsMarked(s, StartedRow(), 30_000_000, false, true);
  }

  /** And here no lease lapses, but the first process is the executor outside recovery, which has none. */
  lemma ExecutorWithoutLeaseMakesMarkedIntentRetryable()
    ensures exists clock, steps :: ShowsIt(clock, steps, true, false)
  {
    ReachedExecuted();
    var s := Small(0, ExecutedRow(), Intent(0, O.Submitting, false), map[], map[0 := Sending(0, 0)]);
    SecondWorkerReturnsMarked(s, ExecutedRow(), 0, true, false);
  }

  predicate LapsedBy(row: Row, now: int) {
    row.claimUntil.None? || row.claimUntil.value <= now
  }

  lemma SecondWorkerClaims(s: Sys, row: Row, now: int)
    requires IsRecoverable(row.state) && LapsedBy(row, now) && s.clock <= now
    requires s == Small(s.clock, row, Intent(0, O.Submitting, false), map[], map[0 := Sending(0, 0)])
    ensures row.claimUntil.None? ==> NoLapse(s, Step(now, ClaimRow(1)))
    ensures Next(s, Step(now, ClaimRow(1))) == Small(now, ClaimedRow(row, 1, LEASE_SECONDS, now), Intent(0, O.Submitting, false), map[],
                                                     map[0 := Sending(0, 0), 1 := Holding(0)])
  {
    assert IsNext(s.table, 0, 1, now);
  }

  lemma SecondWorkerReads(s: Sys, row: Row, now: int)
    requires row.approvalId == 0
    requires s == Small(now, row, Intent(0, O.Submitting, false), map[], map[0 := Sending(0, 0), 1 := Holding(0)])
    ensures Next(s, Step(now, ReadSubmitting(1, 0))) == s.(phase := map[0 := Sending(0, 0), 1 := SawSubmitting(0, 0)])
  {
  }

  lemma SecondWorkerSees(s: Sys, row: Row, now: int, leased: bool, recovery: bool)
    requires Reached(s, leased, recovery) && row.state == SubmissionStarted && row.approvalId == 0
    requires LapsedBy(row, now) && (leased ==> row.claimUntil.None?) && s.clock <= now
    requires s == Small(s.clock, row, Intent(0, O.Submitting, false), map[], map[0 := Sending(0, 0)])
    ensures Reached(Small(now, ClaimedRow(row, 1, LEASE_SECONDS, now), Intent(0, O.Submitting, false), map[],
                          map[0 := Sending(0, 0), 1 := SawSubmitting(0, 0)]), leased, recovery)
  {
    SecondWorkerClaims(s, row, now);
    ReachedStep(s, Step(now, ClaimRow(1)), leased, recovery);
    var s1 := Next(s, Step(now, ClaimRow(1)));
    SecondWorkerReads(s1, ClaimedRow(row, 1, LEASE_SECONDS, now), now);
    ReachedStep(s1, Step(now, ReadSubmitting(1, 0)), leased, recovery);
  }

  lemma SecondWorkerReturnsMarked(s: Sys, row: Row, now: int, leased: bool, recovery: bool)
    requires Reached(s, leased, recovery) && row.state == SubmissionStarted && row.intentId == Some(0) && row.approvalId == 0
    requires LapsedBy(row, now) && (leased ==> row.claimUntil.None?) && s.clock <= now
    requires s == Small(s.clock, row, Intent(0, O.Submitting, false), map[], map[0 := Sending(0, 0)])
    ensures exists clock, steps :: ShowsIt(clock, steps, leased, recovery)
  {
    SecondWorkerSees(s, row, now, leased, recovery);
    var claimed := ClaimedRow(row, 1, LEASE_SECONDS, now);
    FirstWorkerSends(claimed, now, leased, recovery);
    var s4 := Small(now, claimed, Intent(0, O.Submitting, true), map[0 := 1], map[0 := Sent(0, 0), 1 := SawSubmitting(0, 0)]);
    ReachedStep(s4, Step(now, ReturnToRetryable(1)), leased, recovery);
    var s5 := Next(s4, Step(now, ReturnToRetryable(1)));
    assert s5.intents == map[0 := Intent(0, O.RetryablePreSubmission, true)] && s5.calls == map[0 := 1];
    RunIsShown(s5, leased, recovery);
  }

  lemma RunIsShown(s: Sys, leased: bool, recovery: bool)
    requires Reached(s, leased, recovery) && MarkedIsRetryable(s)
    ensures exists clock, steps :: ShowsIt(clock, steps, leased, recovery)
  {
    assert Opened(s, 0);
    var clock, steps :| RunsTo(clock, steps, s, leased, recovery);
    assert ShowsIt(clock, steps, leased, recovery);
  }

  lemma FirstWorkerSends(row: Row, now: int, leased: bool, recovery: bool)
    requires row.state == SubmissionStarted && row.intentId == Some(0) && row.approvalId == 0
    requires Reached(Small(now, row, Intent(0, O.Submitting, false), map[], map[0 := Sending(0, 0), 1 := SawSubmitting(0, 0)]), leased, recovery)
    ensures Reached(Small(now, row, Intent(0, O.Submitting, true), map[0 := 1], map[0 := Sent(0, 0), 1 := SawSubmitting(0, 0)]), leased, recovery)
  {
    FirstWorkerMarks(row, now, leased, recovery);
    var s3 := Small(now, row, Intent(0, O.Submitting, true), map[], map[0 := Marked(0, 0), 1 := SawSubmitting(0, 0)]);
    ReachedStep(s3, Step(now, Send(0)), leased, recovery);
    var s4 := Next(s3, Step(now, Send(0)));
    assert s4.calls == map[0 := 1] && s4.phase == map[0 := Sent(0, 0), 1 := SawSubmitting(0, 0)];
  }

  lemma FirstWorkerMarks(row: Row, now: int, leased: bool, recovery: bool)
    requires row.state == SubmissionStarted && row.intentId == Some(0) && row.approvalId == 0
    requires Reached(Small(now, row, Intent(0, O.Submitting, false), map[], map[0 := Sending(0, 0), 1 := SawSubmitting(0, 0)]), leased, recovery)
    ensures Reached(Small(now, row, Intent(0, O.Submitting, true), map[], map[0 := Marked(0, 0), 1 := SawSubmitting(0, 0)]), leased, recovery)
  {
    var s2 := Small(now, row, Intent(0, O.Submitting, false), map[], map[0 := Sending(0, 0), 1 := SawSubmitting(0, 0)]);
    assert HasApproval(s2.table, 0, 0) && MayMark(s2, 0);
    ReachedStep(s2, Step(now, Mark(0)), leased, recovery);
    var s3 := Next(s2, Step(now, Mark(0)));
    assert s3.intents == map[0 := Intent(0, O.Submitting, true)] && s3.phase == map[0 := Marked(0, 0), 1 := SawSubmitting(0, 0)];
  }
}
