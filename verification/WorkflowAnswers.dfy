/**
What each transaction on the approval workflow table answers, and which fields of which row it writes, said of the rows themselves
(app/approval_workflow.py, lines 180-440).
*/
module WorkflowAnswers {
  import opened Wrappers
  import opened WorkflowTable

  /** Everything but these fields is as it was. */
  predicate SameIdentity(before: Row, after: Row) {
    after.approvalId == before.approvalId && after.proposalId == before.proposalId && after.updateId == before.updateId
  }

  predicate SameClaim(before: Row, after: Row) {
    after.claimOwner == before.claimOwner && after.claimUntil == before.claimUntil && after.attempts == before.attempts
  }

  predicate SameState(before: Row, after: Row) {
    after.state == before.state && after.intentId == before.intentId && after.terminalAt == before.terminalAt
  }

  /** No row has this approval, nor this update if there is one. */
  ghost predicate Unheard(t: Table, approvalId: ApprovalId, updateId: Option<int>) {
    forall id :: id in t ==> t[id].approvalId != approvalId && (updateId.Some? ==> t[id].updateId != updateId)
  }

  ghost predicate ProposalIsFree(t: Table, proposalId: ProposalId) {
    forall id :: id in t && t[id].proposalId == proposalId ==> t[id].state in {Blocked, Terminal, ManualReview}
  }

  /** A new row enters exactly when no row stands for its approval or its update, no live row for its proposal, the display is
      readable and the row id is free; an existing row answers for its own approval and proposal, or else for its update. */
  lemma InsertionAnswers(t: Table, newId: WorkflowId, approvalId: ApprovalId, proposalId: ProposalId, updateId: Option<int>,
                         initial: State, ready: bool, now: int)
    requires Unique(t)
    ensures var reply := Inserted(t, newId, approvalId, proposalId, updateId, initial, ready, now).1;
      && (reply == Done(newId) <==> Unheard(t, approvalId, updateId) && ProposalIsFree(t, proposalId) && ready && newId !in t)
      && (reply == DisplayError <==> Unheard(t, approvalId, updateId) && ProposalIsFree(t, proposalId) && !ready)
      && (reply == IntegrityError <==> Unheard(t, approvalId, updateId) && ProposalIsFree(t, proposalId) && ready && newId in t)
      && (forall id :: reply == Existing(id) <==>
           id in t && if t[id].approvalId == approvalId then t[id].proposalId == proposalId
                      else updateId.Some? && t[id].updateId == updateId && forall other :: other in t ==> t[other].approvalId != approvalId)
      && (reply.Done? || reply.Existing? || reply in {DisplayError, IntegrityError, Conflict})
  {
    if id :| HasApproval(t, id, approvalId) {
      assert forall other :: other in t && t[other].approvalId == approvalId ==> other == id;
    } else {
      assert forall id :: id in t ==> !HasApproval(t, id, approvalId);
      if id :| HasUpdate(t, id, updateId) {
        assert forall other :: other in t && t[other].updateId == updateId ==> other == id;
      } else {
        assert forall id :: id in t ==> !HasUpdate(t, id, updateId);
        if id :| IsActiveFor(t, id, proposalId) {
        } else {
          assert forall id :: id in t ==> !IsActiveFor(t, id, proposalId);
        }
      }
    }
  }

  /** An accepted approval starts with its target resolved, unclaimed and untried. */
  lemma AcceptedApprovalStarts(t: Table, newId: WorkflowId, approvalId: ApprovalId, proposalId: ProposalId, updateId: Option<int>, displayLoads: bool, now: int)
    requires Apply(t, Accept(newId, approvalId, proposalId, updateId, displayLoads), now).1.Done?
    ensures var t' := Apply(t, Accept(newId, approvalId, proposalId, updateId, displayLoads), now).0;
      && newId !in t && newId in t'
      && t'[newId].approvalId == approvalId && t'[newId].proposalId == proposalId && t'[newId].updateId == updateId
      && t'[newId].state == TargetResolved && t'[newId].intentId.None? && t'[newId].claimOwner.None? && t'[newId].claimUntil.None?
      && t'[newId].attempts == 0 && t'[newId].processedAt.None? && t'[newId].terminalAt.None?
  {
  }

  /** A transition is a compare-and-swap on state, version and owner along the table; it writes the state, a new intent and the time of
      closing, and leaves identity, claim and the processed mark. */
  lemma MoveIsFenced(t: Table, id: WorkflowId, target: State, expectedState: Option<State>, expectedVersion: Option<nat>,
                     owner: Option<Owner>, intentId: Option<IntentId>, now: int)
    ensures var (t', reply) := Apply(t, Move(id, target, expectedState, expectedVersion, owner, intentId), now);
      && (reply == Missing <==> id !in t)
      && (reply == Done(id) <==>
           && id in t && (t[id].state == target || target in Allowed(t[id].state))
           && expectedState in {None, Some(t[id].state)} && expectedVersion in {None, Some(t[id].version)} && (owner == None || owner == t[id].claimOwner))
      && reply in {Missing, Conflict, Done(id)}
      && (reply == Done(id) ==>
           && t'[id].state == target && t'[id].intentId == (if intentId == None then t[id].intentId else intentId)
           && t'[id].terminalAt == (if target in {Blocked, Terminal, ManualReview} then Some(now) else t[id].terminalAt)
           && SameIdentity(t[id], t'[id]) && SameClaim(t[id], t'[id]) && t'[id].processedAt == t[id].processedAt)
  {
  }

  /** Nobody else's lease runs on this row, and it is not closed. */
  predicate MayBeClaimed(row: Row, owner: Owner, now: int) {
    && (match row.state case Blocked => false case Terminal => false case ManualReview => false case _ => true)
    && (row.claimUntil.Some? && row.claimUntil.value > now ==> row.claimOwner == Some(owner))
  }

  lemma ClaimableInWords(row: Row, owner: Owner, now: int)
    ensures Claimable(row, owner, now) <==> MayBeClaimed(row, owner, now)
  {
  }

  /** A claim takes the row that has waited longest, the smaller id if two have, for at least a second; there is nothing to claim exactly
      when no row may be claimed. */
  lemma ClaimTakesTheOldest(t: Table, owner: Owner, leaseSeconds: int, now: int)
    ensures var (t', reply) := Apply(t, Claim(owner, leaseSeconds), now);
      && (reply.Done? || reply == Nothing)
      && (reply == Nothing ==> forall id :: id in t ==> !IsNext(t, id, owner, now))
      && (reply.Done? ==>
           var id := reply.id;
           && id in t && id in t' && MayBeClaimed(t[id], owner, now)
           && (forall other :: other in t && MayBeClaimed(t[other], owner, now) ==>
                t[id].updatedAt < t[other].updatedAt || (t[id].updatedAt == t[other].updatedAt && id <= other))
           && t'[id].claimOwner == Some(owner)
           && t'[id].claimUntil == Some(now + 1_000_000 * if leaseSeconds >= 1 then leaseSeconds else 1)
           && t'[id].attempts == t[id].attempts + 1
           && SameIdentity(t[id], t'[id]) && SameState(t[id], t'[id]) && t'[id].processedAt == t[id].processedAt)
  {
    forall id | id in t
      ensures Claimable(t[id], owner, now) <==> MayBeClaimed(t[id], owner, now)
    {
      ClaimableInWords(t[id], owner, now);
    }
  }

  /** A release is its holder's alone, and ends the claim and nothing else. */
  lemma ReleaseEndsTheClaim(t: Table, id: WorkflowId, holder: Owner, now: int)
    ensures var (t', reply) := Apply(t, Release(id, holder), now);
      && (reply == Done(id) <==> id in t && t[id].claimOwner == Some(holder))
      && (reply == Conflict <==> reply != Done(id))
      && (reply == Done(id) ==>
           && t'[id].claimOwner.None? && t'[id].claimUntil.None? && t'[id].attempts == t[id].attempts
           && SameIdentity(t[id], t'[id]) && SameState(t[id], t'[id]) && t'[id].processedAt == t[id].processedAt)
  {
  }

  /** An update is marked processed exactly when its row has an intent or has ended without one. */
  lemma MarkingNeedsARecord(t: Table, id: WorkflowId, now: int)
    ensures var (t', reply) := Apply(t, MarkProcessed(id), now);
      && (reply == Missing <==> id !in t)
      && (reply == Done(id) <==> id in t && (t[id].intentId.Some? || t[id].state in {Blocked, Unknown, Terminal, ManualReview}))
      && reply in {Missing, Conflict, Done(id)}
      && (reply == Done(id) ==>
           t'[id].processedAt == Some(now) && SameIdentity(t[id], t'[id]) && SameState(t[id], t'[id]) && SameClaim(t[id], t'[id]))
  {
  }

  /** An intent is linked exactly to the approved row of its approval that has none. */
  lemma LinkingNeedsApproval(t: Table, approvalId: ApprovalId, newIntent: IntentId, now: int)
    requires Unique(t)
    ensures var (t', reply) := Apply(t, LinkNewIntent(approvalId, newIntent), now);
      && (forall id :: reply == Done(id) <==> id in t && t[id].approvalId == approvalId && t[id].state == ApprovedPendingIntent && t[id].intentId.None?)
      && (reply.Done? || reply == Conflict)
      && (reply.Done? ==>
           && reply.id in t' && t'[reply.id].intentId == Some(newIntent) && t'[reply.id].state == IntentCreated
           && SameIdentity(t[reply.id], t'[reply.id]) && SameClaim(t[reply.id], t'[reply.id])
           && t'[reply.id].processedAt == t[reply.id].processedAt && t'[reply.id].terminalAt == t[reply.id].terminalAt)
  {
    if id :| HasApproval(t, id, approvalId) {
      assert forall other :: other in t && t[other].approvalId == approvalId ==> other == id;
    } else {
      assert forall id :: id in t ==> !HasApproval(t, id, approvalId);
    }
  }
}
