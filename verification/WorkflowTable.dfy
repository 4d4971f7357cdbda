/**
The approval workflow table of app/approval_workflow.py: its states, its rows, the
transactions that write it, and what every history of those transactions keeps.

Each transaction is one `Op`, applied atomically (the source opens every one of them with
BEGIN IMMEDIATE).  Text identifiers, which the source only compares and sorts, are numbers;
times are microseconds.
*/
module WorkflowTable {
  import opened Wrappers

  type WorkflowId = nat
  type ApprovalId = nat
  type ProposalId = nat
  type IntentId = nat
  type Owner = nat

  const MICROSECONDS_PER_SECOND := 1_000_000

  // ----- states ---------------------------------------------------------------------

  datatype State =
    | Received | Authorized | TargetResolved | Validating | Blocked | ApprovedPendingIntent
    | IntentCreated | SubmissionPending | SubmissionStarted | Submitted | Unknown
    | Terminal | ManualReview

  predicate IsTerminal(s: State) {
    s in {Blocked, Terminal, ManualReview}
  }

  predicate IsRecoverable(s: State) {
    s in {Received, Authorized, TargetResolved, Validating, ApprovedPendingIntent, IntentCreated,
          SubmissionPending, SubmissionStarted, Submitted, Unknown}
  }

  function Allowed(s: State): set<State> {
    match s
    case Received => {Authorized, Blocked, Terminal, ManualReview}
    case Authorized => {TargetResolved, Blocked, Terminal, ManualReview}
    case TargetResolved => {Validating, Blocked, Terminal, ManualReview}
    case Validating => {ApprovedPendingIntent, Blocked, Terminal, ManualReview}
    case ApprovedPendingIntent => {IntentCreated, Blocked, Terminal, ManualReview}
    case IntentCreated => {SubmissionPending, SubmissionStarted, Terminal, Unknown, ManualReview}
    case SubmissionPending => {SubmissionStarted, Blocked, Terminal, Unknown, ManualReview}
    case SubmissionStarted => {SubmissionPending, Submitted, Unknown, Terminal, ManualReview}
    case Submitted => {Unknown, Terminal, ManualReview}
    case Unknown => {Submitted, Terminal, ManualReview}
    case Blocked => {}
    case Terminal => {}
    case ManualReview => {}
  }

  /** How far a workflow has got.  The two pairs that can alternate share a rank. */
  function Rank(s: State): nat {
    match s
    case Received => 0
    case Authorized => 1
    case TargetResolved => 2
    case Validating => 3
    case ApprovedPendingIntent => 4
    case IntentCreated => 5
    case SubmissionPending => 6
    case SubmissionStarted => 6
    case Submitted => 7
    case Unknown => 7
    case Blocked => 8
    case Terminal => 8
    case ManualReview => 8
  }

  /** The table by rule: a workflow moves on one stage at a time, may close from everywhere, is blocked only before its intent
      exists or while it waits for submission, becomes uncertain once its intent exists, and two pairs of states alternate. */
  lemma AllowedByRule(s: State, t: State)
    ensures t in Allowed(s) <==>
      && !IsTerminal(s) && s != t
      && match t
         case Terminal => true
         case ManualReview => true
         case Blocked => Rank(s) <= 4 || s == SubmissionPending
         case Unknown => Rank(s) >= 5
         case Submitted => s in {SubmissionStarted, Unknown}
         case _ => Rank(t) == Rank(s) + 1 || (s == SubmissionStarted && t == SubmissionPending) || (s == SubmissionPending && t == SubmissionStarted)
  {
  }

  ghost predicate IsPath(p: seq<State>) {
    p != [] && forall k :: 0 <= k < |p| - 1 ==> p[k + 1] in Allowed(p[k])
  }

  ghost predicate Reachable(from: State, to: State) {
    exists p :: IsPath(p) && p[0] == from && p[|p| - 1] == to
  }

  // ----- rows and transactions ------------------------------------------------------

  datatype Row = Row(
    approvalId: ApprovalId,
    proposalId: ProposalId,
    updateId: Option<int>,
    state: State,
    intentId: Option<IntentId>,
    claimOwner: Option<Owner>,
    claimUntil: Option<int>,
    attempts: nat,
    updatedAt: int,
    processedAt: Option<int>,
    terminalAt: Option<int>,
    version: nat)

  type Table = map<WorkflowId, Row>

  datatype Op =
    | Create(newId: WorkflowId, approvalId: ApprovalId, proposalId: ProposalId, updateId: Option<int>, initial: State)
    | Accept(newId: WorkflowId, approvalId: ApprovalId, proposalId: ProposalId, updateId: Option<int>, displayLoads: bool)
    | Move(id: WorkflowId, target: State, expectedState: Option<State>, expectedVersion: Option<nat>,
           owner: Option<Owner>, intentId: Option<IntentId>)
    | Claim(claimant: Owner, leaseSeconds: int)
    | Release(id: WorkflowId, holder: Owner)
    | MarkProcessed(id: WorkflowId)
    | LinkNewIntent(approvalId: ApprovalId, newIntent: IntentId)

  datatype Reply =
    | Done(id: WorkflowId)      // the transaction wrote row id
    | Existing(id: WorkflowId)  // nothing written, row id already stands for the request
    | Nothing                   // nothing to claim
    | Missing                   // LookupError
    | Conflict                  // ApprovalWorkflowConflict, or a lost compare-and-swap
    | DisplayError              // the displayed authority could not be loaded
    | IntegrityError            // the generated row id was already taken

  ghost predicate HasApproval(t: Table, id: WorkflowId, approvalId: ApprovalId) {
    id in t && t[id].approvalId == approvalId
  }

  ghost predicate HasUpdate(t: Table, id: WorkflowId, updateId: Option<int>) {
    id in t && updateId.Some? && t[id].updateId == updateId
  }

  ghost predicate IsActiveFor(t: Table, id: WorkflowId, proposalId: ProposalId) {
    id in t && t[id].proposalId == proposalId && !IsTerminal(t[id].state)
  }

  /** The common part of create_or_get and accept_approval: who already stands for this
      request, and if nobody does, whether `ready` lets the new row in. */
  ghost function Inserted(t: Table, newId: WorkflowId, approvalId: ApprovalId, proposalId: ProposalId,
                          updateId: Option<int>, initial: State, ready: bool, now: int): (Table, Reply)
  {
    if exists id :: HasApproval(t, id, approvalId) then
      var id :| HasApproval(t, id, approvalId);
      (t, if t[id].proposalId == proposalId then Existing(id) else Conflict)
    else if exists id :: HasUpdate(t, id, updateId) then
      var id :| HasUpdate(t, id, updateId);
      (t, Existing(id))
    else if exists id :: IsActiveFor(t, id, proposalId) then
      (t, Conflict)
    else if !ready then
      (t, DisplayError)
    else if newId in t then
      (t, IntegrityError)
    else
      (t[newId := Row(approvalId, proposalId, updateId, initial, None, None, None, 0, now, None, None, 0)], Done(newId))
  }

  function MovedRow(row: Row, target: State, intentId: Option<IntentId>, now: int): Row {
    row.(state := target,
         intentId := if intentId.Some? then intentId else row.intentId,
         terminalAt := if IsTerminal(target) then Some(now) else row.terminalAt,
         updatedAt := now,
         version := row.version + 1)
  }

  predicate MayMove(row: Row, target: State, expectedState: Option<State>, expectedVersion: Option<nat>,
                    owner: Option<Owner>)
  {
    && (row.state == target || target in Allowed(row.state))
    && (expectedState.Some? ==> row.state == expectedState.value)
    && (expectedVersion.Some? ==> row.version == expectedVersion.value)
    && (owner.Some? ==> row.claimOwner == owner)
  }

  function Moved(t: Table, id: WorkflowId, target: State, expectedState: Option<State>,
                 expectedVersion: Option<nat>, owner: Option<Owner>, intentId: Option<IntentId>, now: int): (Table, Reply)
  {
    if id !in t then (t, Missing)
    else if !MayMove(t[id], target, expectedState, expectedVersion, owner) then (t, Conflict)
    else (t[id := MovedRow(t[id], target, intentId, now)], Done(id))
  }

  predicate Claimable(row: Row, owner: Owner, now: int) {
    && IsRecoverable(row.state)
    && (row.claimUntil.None? || row.claimUntil.value <= now || row.claimOwner == Some(owner))
  }

  /** ORDER BY updated_at,id */
  predicate Precedes(t: Table, a: WorkflowId, b: WorkflowId)
    requires a in t && b in t
  {
    t[a].updatedAt < t[b].updatedAt || (t[a].updatedAt == t[b].updatedAt && a <= b)
  }

  ghost predicate IsNext(t: Table, id: WorkflowId, owner: Owner, now: int) {
    && id in t
    && Claimable(t[id], owner, now)
    && forall other :: other in t && Claimable(t[other], owner, now) ==> Precedes(t, id, other)
  }

  function LeaseEnd(now: int, leaseSeconds: int): int {
    now + (if leaseSeconds < 1 then 1 else leaseSeconds) * MICROSECONDS_PER_SECOND
  }

  function ClaimedRow(row: Row, owner: Owner, leaseSeconds: int, now: int): Row {
    row.(claimOwner := Some(owner), claimUntil := Some(LeaseEnd(now, leaseSeconds)),
         attempts := row.attempts + 1, updatedAt := now, version := row.version + 1)
  }

  ghost function Claimed(t: Table, owner: Owner, leaseSeconds: int, now: int): (Table, Reply) {
    if exists id :: IsNext(t, id, owner, now) then
      var id :| IsNext(t, id, owner, now);
      (t[id := ClaimedRow(t[id], owner, leaseSeconds, now)], Done(id))
    else (t, Nothing)
  }

  function Released(t: Table, id: WorkflowId, owner: Owner, now: int): (Table, Reply) {
    if id in t && t[id].claimOwner == Some(owner) then
      (t[id := t[id].(claimOwner := None, claimUntil := None, updatedAt := now, version := t[id].version + 1)], Done(id))
    else (t, Conflict)
  }

  predicate MayBeProcessed(row: Row) {
    row.intentId.Some? || row.state in {Blocked, Unknown, Terminal, ManualReview}
  }

  function Processed(t: Table, id: WorkflowId, now: int): (Table, Reply) {
    if id !in t then (t, Missing)
    else if !MayBeProcessed(t[id]) then (t, Conflict)
    else (t[id := t[id].(processedAt := Some(now), updatedAt := now, version := t[id].version + 1)], Done(id))
  }

  /** The workflow update inside create_or_get_intent (app/execution.py:1138-1144). */
  ghost function Linked(t: Table, approvalId: ApprovalId, newIntent: IntentId, now: int): (Table, Reply) {
    if exists id :: HasApproval(t, id, approvalId) then
      var id :| HasApproval(t, id, approvalId);
      if t[id].state == ApprovedPendingIntent && t[id].intentId.None? then
        (t[id := t[id].(intentId := Some(newIntent), state := IntentCreated, updatedAt := now, version := t[id].version + 1)], Done(id))
      else (t, Conflict)
    else (t, Conflict)
  }

  ghost function Apply(t: Table, op: Op, now: int): (Table, Reply) {
    match op
    case Create(newId, approvalId, proposalId, updateId, initial) =>
      Inserted(t, newId, approvalId, proposalId, updateId, initial, true, now)
    case Accept(newId, approvalId, proposalId, updateId, displayLoads) =>
      Inserted(t, newId, approvalId, proposalId, updateId, TargetResolved, displayLoads, now)
    case Move(id, target, expectedState, expectedVersion, owner, intentId) =>
      Moved(t, id, target, expectedState, expectedVersion, owner, intentId, now)
    case Claim(claimant, leaseSeconds) => Claimed(t, claimant, leaseSeconds, now)
    case Release(id, holder) => Released(t, id, holder, now)
    case MarkProcessed(id) => Processed(t, id, now)
    case LinkNewIntent(approvalId, newIntent) => Linked(t, approvalId, newIntent, now)
  }

  datatype Event = Event(now: int, op: Op)

  ghost function Run(t: Table, events: seq<Event>): Table {
    if events == [] then t
    else
      var last := |events| - 1;
      Apply(Run(t, events[..last]), events[last].op, events[last].now).0
  }

  // ----- what every transaction keeps ------------------------------------------------

  ghost predicate Unique(t: Table) {
    forall a, b :: a in t && b in t && a != b ==>
      && t[a].approvalId != t[b].approvalId
      && (t[a].updateId.Some? ==> t[a].updateId != t[b].updateId)
      && (t[a].proposalId == t[b].proposalId ==> IsTerminal(t[a].state) || IsTerminal(t[b].state))
  }

  predicate Represented(row: Row) {
    row.intentId.Some? || row.state in {Blocked, Unknown, Submitted, Terminal, ManualReview}
  }

  ghost predicate ProcessedAreRepresented(t: Table) {
    forall id :: id in t && t[id].processedAt.Some? ==> Represented(t[id])
  }

  /** How a row may have changed between two moments of its life. */
  predicate Progress(before: Row, after: Row) {
    && after.approvalId == before.approvalId
    && after.proposalId == before.proposalId
    && after.updateId == before.updateId
    && Rank(before.state) <= Rank(after.state)
    && (IsTerminal(before.state) ==> after.state == before.state)
    && (before.intentId.Some? ==> after.intentId.Some?)
    && (before.processedAt.Some? ==> after.processedAt.Some?)
    && before.attempts <= after.attempts
    && (before == after || before.version < after.version)
  }

  ghost predicate Extends(before: Table, after: Table) {
    forall id :: id in before ==> id in after && Progress(before[id], after[id])
  }

  lemma StepExtends(t: Table, op: Op, now: int)
    ensures Extends(t, Apply(t, op, now).0)
  {
  }

  /** A transaction writes at most the row it answers with, and bumps that row's version. */
  lemma StepWritesOneRow(t: Table, op: Op, now: int)
    ensures var (t', reply) := Apply(t, op, now);
      if reply.Done? then
        && reply.id in t'
        && t' == t[reply.id := t'[reply.id]]
        && t'[reply.id].updatedAt == now
        && (if reply.id in t then t'[reply.id].version == t[reply.id].version + 1 else t'[reply.id].version == 0)
      else t' == t
  {
  }

  lemma StepKeepsUnique(t: Table, op: Op, now: int)
    requires Unique(t)
    ensures Unique(Apply(t, op, now).0)
  {
    StepExtends(t, op, now);
    StepWritesOneRow(t, op, now);
    if op.Create? || op.Accept? {
      forall id | id in t
        ensures !HasApproval(t, id, op.approvalId) ==> t[id].approvalId != op.approvalId
        ensures !HasUpdate(t, id, op.updateId) ==> op.updateId.None? || t[id].updateId != op.updateId
        ensures !IsActiveFor(t, id, op.proposalId) ==> t[id].proposalId != op.proposalId || IsTerminal(t[id].state)
      {
      }
    }
  }

  lemma StepKeepsProcessed(t: Table, op: Op, now: int)
    requires ProcessedAreRepresented(t)
    ensures ProcessedAreRepresented(Apply(t, op, now).0)
  {
  }

  // ----- what every history keeps ----------------------------------------------------

  /** In every reachable table: one workflow per approval, at most one per update, at most one
      live workflow per proposal, and a processed row stands for something durable. */
  lemma {:induction false} ReachableTablesAreSound(events: seq<Event>)
    ensures Unique(Run(map[], events))
    ensures ProcessedAreRepresented(Run(map[], events))
  {
    if events != [] {
      var last := |events| - 1;
      ReachableTablesAreSound(events[..last]);
      StepKeepsUnique(Run(map[], events[..last]), events[last].op, events[last].now);
      StepKeepsProcessed(Run(map[], events[..last]), events[last].op, events[last].now);
    }
  }

  lemma ExtendsTwice(t: Table, t': Table, t'': Table)
    requires Extends(t, t') && Extends(t', t'')
    ensures Extends(t, t'')
  {
  }

  /** From any moment k to the end of any history, no row disappears, changes identity, falls
      back in rank, leaves a terminal state or is unmarked, and each change raises its version. */
  lemma {:induction false} HistoryOnlyProgresses(t: Table, events: seq<Event>, k: nat)
    requires k <= |events|
    ensures Extends(Run(t, events[..k]), Run(t, events))
  {
    if k == |events| {
      assert events[..k] == events;
    } else {
      var last := |events| - 1;
      assert events[..last][..k] == events[..k];
      HistoryOnlyProgresses(t, events[..last], k);
      StepExtends(Run(t, events[..last]), events[last].op, events[last].now);
      ExtendsTwice(Run(t, events[..k]), Run(t, events[..last]), Run(t, events));
    }
  }

  ghost function ReplyAt(t: Table, events: seq<Event>, k: nat): Reply
    requires k < |events|
  {
    Apply(Run(t, events[..k]), events[k].op, events[k].now).1
  }

  ghost predicate Holds(t: Table, id: WorkflowId, owner: Owner, until: int) {
    id in t && t[id].claimOwner == Some(owner) && t[id].claimUntil == Some(until)
  }

  predicate IsClaimBy(op: Op, owner: Owner) {
    op.Claim? && op.claimant == owner
  }

  predicate IsReleaseBy(op: Op, id: WorkflowId, owner: Owner) {
    op.Release? && op.id == id && op.holder == owner
  }

  /** While a lease runs and its holder neither claims again nor releases, whatever anybody else
      does the row stays the holder's: nobody else's claim returns it and nobody else's
      release touches it. */
  lemma {:induction false} LeaseIsExclusive(t: Table, events: seq<Event>, id: WorkflowId, owner: Owner, until: int)
    requires Holds(t, id, owner, until)
    requires forall e :: e in events ==> e.now < until && !IsClaimBy(e.op, owner) && !IsReleaseBy(e.op, id, owner)
    ensures Holds(Run(t, events), id, owner, until)
    ensures forall k :: 0 <= k < |events| && (events[k].op.Claim? || (events[k].op.Release? && events[k].op.id == id)) ==>
      ReplyAt(t, events, k) != Done(id)
  {
    if events != [] {
      var last := |events| - 1;
      var before := Run(t, events[..last]);
      LeaseIsExclusive(t, events[..last], id, owner, until);
      assert events[last] in events;
      StepWritesOneRow(before, events[last].op, events[last].now);
      forall k | 0 <= k < last && (events[k].op.Claim? || (events[k].op.Release? && events[k].op.id == id))
        ensures ReplyAt(t, events, k) != Done(id)
      {
        assert events[..last][..k] == events[..k] && events[..last][k] == events[k];
        assert ReplyAt(t, events[..last], k) == ReplyAt(t, events, k);
      }
    }
  }

  predicate CarriesToken(op: Op, id: WorkflowId, owner: Owner) {
    (op.Move? && op.id == id && op.owner == Some(owner)) || IsReleaseBy(op, id, owner)
  }

  /** Once a row is not owner's any more (somebody else took it, or it was released), every
      transition or release carrying owner's token is refused until owner claims again. */
  lemma {:induction false} LostTokenIsFenced(t: Table, events: seq<Event>, id: WorkflowId, owner: Owner)
    requires id in t && t[id].claimOwner != Some(owner)
    requires forall e :: e in events ==> !IsClaimBy(e.op, owner)
    ensures id in Run(t, events) && Run(t, events)[id].claimOwner != Some(owner)
    ensures forall k :: 0 <= k < |events| && CarriesToken(events[k].op, id, owner) ==>
      ReplyAt(t, events, k) == Conflict && Run(t, events[..k + 1]) == Run(t, events[..k])
  {
    if events != [] {
      var last := |events| - 1;
      var before := Run(t, events[..last]);
      LostTokenIsFenced(t, events[..last], id, owner);
      assert events[last] in events;
      StepWritesOneRow(before, events[last].op, events[last].now);
      forall k | 0 <= k < |events| && CarriesToken(events[k].op, id, owner)
        ensures ReplyAt(t, events, k) == Conflict && Run(t, events[..k + 1]) == Run(t, events[..k])
      {
        if k == last {
          assert events[..k + 1] == events;
        } else {
          assert events[..last][..k] == events[..k] && events[..last][..k + 1] == events[..k + 1];
          assert ReplyAt(t, events[..last], k) == ReplyAt(t, events, k);
        }
      }
    }
  }

  /** The token that a claim displaces is the kind LostTokenIsFenced speaks of. */
  lemma ClaimDisplaces(t: Table, id: WorkflowId, loser: Owner, winner: Owner, leaseSeconds: int, now: int)
    requires loser != winner
    requires Apply(t, Claim(winner, leaseSeconds), now).1 == Done(id)
    ensures var t' := Apply(t, Claim(winner, leaseSeconds), now).0;
      Holds(t', id, winner, LeaseEnd(now, leaseSeconds)) && t'[id].claimOwner != Some(loser) && now < LeaseEnd(now, leaseSeconds)
  {
  }

  // ----- which states follow which -----------------------------------------------------

  predicate MayFollow(from: State, to: State) {
    from == to || (!IsTerminal(from) && Rank(from) <= Rank(to) && (Rank(from) == 7 ==> to != Blocked))
  }

  /** The transition table, closed under repetition, is exactly the rank order, except that a
      workflow which reached the broker can no longer be blocked. */
  lemma ReachableIsRankOrder(from: State, to: State)
    ensures Reachable(from, to) <==> MayFollow(from, to)
  {
    if Reachable(from, to) {
      var p :| IsPath(p) && p[0] == from && p[|p| - 1] == to;
      PathFollows(p);
    }
    if MayFollow(from, to) {
      FindPath(from, to);
    }
  }

  lemma {:induction false} PathFollows(p: seq<State>)
    requires IsPath(p)
    ensures MayFollow(p[0], p[|p| - 1])
  {
    if |p| > 1 {
      PathFollows(p[1..]);
      assert p[1] in Allowed(p[0]);
    }
  }

  function Toward(from: State, to: State): State {
    if to in Allowed(from) then to
    else match from
      case Received => Authorized
      case Authorized => TargetResolved
      case TargetResolved => Validating
      case Validating => ApprovedPendingIntent
      case ApprovedPendingIntent => IntentCreated
      case IntentCreated => SubmissionPending
      case SubmissionPending => SubmissionStarted
      case SubmissionStarted => SubmissionPending
      case _ => to
  }

  function Distance(from: State, to: State): nat {
    3 * (8 - Rank(from)) + if from == to then 0 else if to in Allowed(from) then 1 else 2
  }

  lemma TowardGetsCloser(from: State, to: State)
    requires MayFollow(from, to) && from != to
    ensures var next := Toward(from, to);
      next in Allowed(from) && MayFollow(next, to) && Distance(next, to) < Distance(from, to)
  {
  }

  lemma {:induction false} FindPath(from: State, to: State)
    requires MayFollow(from, to)
    ensures Reachable(from, to)
    decreases Distance(from, to), 1
  {
    if from == to {
      assert IsPath([from]) && [from][0] == from;
    } else {
      TowardGetsCloser(from, to);
      PrependPath(from, Toward(from, to), to);
    }
  }

  lemma {:induction false} PrependPath(from: State, next: State, to: State)
    requires next in Allowed(from)
    requires MayFollow(next, to) && Distance(next, to) < Distance(from, to)
    ensures Reachable(from, to)
    decreases Distance(from, to), 0
  {
    FindPath(next, to);
    var p :| IsPath(p) && p[0] == next && p[|p| - 1] == to;
    var q := [from] + p;
    assert forall k :: 0 <= k < |q| - 1 ==> q[k + 1] == p[k];
    assert IsPath(q) && q[0] == from && q[|q| - 1] == to;
  }

  // ----- the store ---------------------------------------------------------------------

  /** A row satisfying p, if there is one (the source's SELECT ... fetchone()). */
  method FindRow(t: Table, p: Row -> bool) returns (found: Option<WorkflowId>)
    ensures found.Some? ==> found.value in t && p(t[found.value])
    ensures found.None? ==> forall id :: id in t ==> !p(t[id])
  {
    var remaining := t.Keys;
    while remaining != {}
      invariant remaining <= t.Keys
      invariant forall id :: id in t && id !in remaining ==> !p(t[id])
    {
      var id :| id in remaining;
      if p(t[id]) {
        return Some(id);
      }
      remaining := remaining - {id};
    }
    return None;
  }

  /** The durable table.  Every method is one transaction and does what `Apply` says. */
  class ApprovalWorkflowStore {
    var rows: Table

    ghost predicate Valid()
      reads this
    {
      Unique(rows)
    }

    constructor ()
      ensures Valid() && rows == map[]
    {
      rows := map[];
    }

    method CreateOrGet(newId: WorkflowId, approvalId: ApprovalId, proposalId: ProposalId, updateId: Option<int>,
                       initial: State, now: int)
      returns (reply: Reply)
      requires Valid()
      modifies this
      ensures Valid()
      ensures (rows, reply) == Apply(old(rows), Create(newId, approvalId, proposalId, updateId, initial), now)
    {
      StepKeepsUnique(rows, Create(newId, approvalId, proposalId, updateId, initial), now);
      reply := Insert(newId, approvalId, proposalId, updateId, initial, true, now);
    }

    method AcceptApproval(newId: WorkflowId, approvalId: ApprovalId, proposalId: ProposalId, updateId: Option<int>,
                          displayLoads: bool, now: int)
      returns (reply: Reply)
      requires Valid()
      modifies this
      ensures Valid()
      ensures (rows, reply) == Apply(old(rows), Accept(newId, approvalId, proposalId, updateId, displayLoads), now)
    {
      StepKeepsUnique(rows, Accept(newId, approvalId, proposalId, updateId, displayLoads), now);
      reply := Insert(newId, approvalId, proposalId, updateId, TargetResolved, displayLoads, now);
    }

    method Insert(newId: WorkflowId, approvalId: ApprovalId, proposalId: ProposalId, updateId: Option<int>,
                  initial: State, ready: bool, now: int)
      returns (reply: Reply)
      requires Valid()
      modifies this
      ensures (rows, reply) == Inserted(old(rows), newId, approvalId, proposalId, updateId, initial, ready, now)
    {
      var existing := FindRow(rows, (row: Row) => row.approvalId == approvalId);
      if existing.Some? {
        assert HasApproval(rows, existing.value, approvalId);
        return if rows[existing.value].proposalId == proposalId then Existing(existing.value) else Conflict;
      }
      assert forall id :: id in rows ==> !HasApproval(rows, id, approvalId);
      var sameUpdate := FindRow(rows, (row: Row) => updateId.Some? && row.updateId == updateId);
      if sameUpdate.Some? {
        assert HasUpdate(rows, sameUpdate.value, updateId);
        return Existing(sameUpdate.value);
      }
      assert forall id :: id in rows ==> !HasUpdate(rows, id, updateId);
      var active := FindRow(rows, (row: Row) => row.proposalId == proposalId && !IsTerminal(row.state));
      if active.Some? {
        assert IsActiveFor(rows, active.value, proposalId);
        return Conflict;
      }
      assert forall id :: id in rows ==> !IsActiveFor(rows, id, proposalId);
      if !ready {
        return DisplayError;
      }
      if newId in rows {
        return IntegrityError;
      }
      rows := rows[newId := Row(approvalId, proposalId, updateId, initial, None, None, None, 0, now, None, None, 0)];
      reply := Done(newId);
    }

    method Transition(id: WorkflowId, target: State, expectedState: Option<State>, expectedVersion: Option<nat>,
                      owner: Option<Owner>, intentId: Option<IntentId>, now: int)
      returns (reply: Reply)
      requires Valid()
      modifies this
      ensures Valid()
      ensures (rows, reply) == Apply(old(rows), Move(id, target, expectedState, expectedVersion, owner, intentId), now)
    {
      StepKeepsUnique(rows, Move(id, target, expectedState, expectedVersion, owner, intentId), now);
      if id !in rows {
        return Missing;
      }
      if !MayMove(rows[id], target, expectedState, expectedVersion, owner) {
        return Conflict;
      }
      rows := rows[id := MovedRow(rows[id], target, intentId, now)];
      reply := Done(id);
    }

    method ClaimNext(owner: Owner, leaseSeconds: int, now: int) returns (reply: Reply)
      requires Valid()
      modifies this
      ensures Valid()
      ensures (rows, reply) == Apply(old(rows), Claim(owner, leaseSeconds), now)
    {
      StepKeepsUnique(rows, Claim(owner, leaseSeconds), now);
      var best: Option<WorkflowId> := None;
      var remaining := rows.Keys;
      while remaining != {}
        invariant remaining <= rows.Keys
        invariant rows == old(rows)
        invariant best.Some? ==> best.value in rows && Claimable(rows[best.value], owner, now)
        invariant forall id :: id in rows && id !in remaining && Claimable(rows[id], owner, now) ==>
          best.Some? && Precedes(rows, best.value, id)
      {
        var id :| id in remaining;
        if Claimable(rows[id], owner, now) && (best.None? || Precedes(rows, id, best.value)) {
          best := Some(id);
        }
        remaining := remaining - {id};
      }
      if best.None? {
        return Nothing;
      }
      assert IsNext(rows, best.value, owner, now);
      rows := rows[best.value := ClaimedRow(rows[best.value], owner, leaseSeconds, now)];
      reply := Done(best.value);
    }

    method ReleaseClaim(id: WorkflowId, owner: Owner, now: int) returns (reply: Reply)
      requires Valid()
      modifies this
      ensures Valid()
      ensures (rows, reply) == Apply(old(rows), Release(id, owner), now)
    {
      StepKeepsUnique(rows, Release(id, owner), now);
      if id !in rows || rows[id].claimOwner != Some(owner) {
        return Conflict;
      }
      rows := rows[id := rows[id].(claimOwner := None, claimUntil := None, updatedAt := now, version := rows[id].version + 1)];
      reply := Done(id);
    }

    method MarkUpdateProcessed(id: WorkflowId, now: int) returns (reply: Reply)
      requires Valid()
      modifies this
      ensures Valid()
      ensures (rows, reply) == Apply(old(rows), MarkProcessed(id), now)
    {
      StepKeepsUnique(rows, MarkProcessed(id), now);
      if id !in rows {
        return Missing;
      }
      if !MayBeProcessed(rows[id]) {
        return Conflict;
      }
      rows := rows[id := rows[id].(processedAt := Some(now), updatedAt := now, version := rows[id].version + 1)];
      reply := Done(id);
    }

    method LinkIntent(approvalId: ApprovalId, newIntent: IntentId, now: int) returns (reply: Reply)
      requires Valid()
      modifies this
      ensures Valid()
      ensures (rows, reply) == Apply(old(rows), LinkNewIntent(approvalId, newIntent), now)
    {
      StepKeepsUnique(rows, LinkNewIntent(approvalId, newIntent), now);
      var found := FindRow(rows, (row: Row) => row.approvalId == approvalId);
      if found.None? {
        assert forall id :: id in rows ==> !HasApproval(rows, id, approvalId);
        return Conflict;
      }
      var id := found.value;
      assert HasApproval(rows, id, approvalId);
      if rows[id].state != ApprovedPendingIntent || rows[id].intentId.Some? {
        return Conflict;
      }
      rows := rows[id := rows[id].(intentId := Some(newIntent), state := IntentCreated, updatedAt := now,
                                   version := rows[id].version + 1)];
      reply := Done(id);
    }
  }
}
