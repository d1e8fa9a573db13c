/** Whether an attempt that was created waiting for approval can proceed without one: the reducer's answer, exactly. */
module ControlRelease {
  import opened Common
  import opened ControlRecords
  import opened ControlReducer
  import opened ControlHistory
  import opened ControlStore
  import opened ControlApprovals
  import opened ControlAttempts

  /** Nothing holds the attempt back any more: it is ready, or it has left pending. */
  predicate Free(a: RunAttempt) { a.control.Ready? || !a.execution.Pending? }

  predicate Clears(r: ApprovalRequest, id: Id) {
    r.state.Consumed? && r.scope.attemptId == Some(id) && r.scope.requestedAction == "launch"
  }

  /** A launch approval of the attempt was consumed. */
  ghost predicate Cleared(p: Projection, id: Id) { exists a :: a in p.approvals && Clears(p.approvals[a], id) }

  /** A free attempt has a consumed launch approval. */
  ghost predicate Safe(p: Projection, id: Id) { id in p.attempts && Free(p.attempts[id]) ==> Cleared(p, id) }

  /** A transition frees the attempt although no approval was consumed; the reducer does not ask. */
  ghost predicate Bypasses(p: Projection, e: ControlEvent, id: Id) {
    && Apply(p, e).Applied? && e.action.AttemptTransitioned? && e.payload.AttemptPayload? && e.payload.attempt.attemptId == id
    && id in p.attempts && !Free(p.attempts[id]) && Free(e.payload.attempt) && !Cleared(p, id)
  }

  /** The attempt is created ready, as contracts without launch approval allow. */
  ghost predicate BornFree(p: Projection, e: ControlEvent, id: Id) {
    && Apply(p, e).Applied? && e.action.AttemptCreated? && e.payload.AttemptPayload? && e.payload.attempt.attemptId == id
    && Free(e.payload.attempt) && !Cleared(p, id)
  }

  // ---------- One event ----------

  lemma ClearedStays(p: Projection, e: ControlEvent, id: Id)
    requires ApprovalsShaped(p) && Cleared(p, id)
    ensures Cleared(After(p, e), id)
  {
    hide After, ApprovalsShaped;
    AfterKeepsApprovals(p, e);
    var a :| a in p.approvals && Clears(p.approvals[a], id);
    assert ApprovalChange(p, After(p, e), a);
  }

  /** Approvals change only by events that carry an approval. */
  lemma ClearedByApprovalsOnly(p: Projection, e: ControlEvent, id: Id)
    requires e.payload.AttemptPayload? && Cleared(After(p, e), id)
    ensures Cleared(p, id)
  {
    hide Check;
    StoredApprovals(p, e.payload);
  }

  /** The other event that touches an attempt: granting frees it and leaves a consumed approval, refusing holds it. */
  lemma ResolutionIsSafe(p: Projection, e: ControlEvent)
    requires AllKeyed(p) && Check(p, e).None? && e.payload.ResolutionPayload?
    ensures Free(e.payload.released) ==> Clears(e.payload.resolved, e.payload.released.attemptId)
  {
  }

  lemma AttemptEvents(p: Projection, e: ControlEvent)
    requires Check(p, e).None? && e.payload.AttemptPayload?
    ensures e.action.AttemptCreated? || e.action.AttemptTransitioned?
    ensures e.action.AttemptCreated? ==> e.payload.attempt.attemptId !in p.attempts
    ensures e.action.AttemptTransitioned? ==> e.payload.attempt.attemptId in p.attempts
  {
    hide FreezesOnce, StateMoves, CarriesEvidence;
  }

  lemma AppliedChecks(p: Projection, e: ControlEvent)
    requires Apply(p, e).Applied?
    ensures Check(p, e).None? && After(p, e) == Record(Store(p, e.payload), e)
  {
    hide Check, Store;
  }

  /** One event keeps an attempt safe exactly when it is neither a transition past the approval nor a free birth. */
  lemma StepIsSafeIff(p: Projection, e: ControlEvent, id: Id)
    requires AllKeyed(p) && ApprovalsShaped(p) && Safe(p, id)
    ensures Safe(After(p, e), id) <==> !Bypasses(p, e, id) && !BornFree(p, e, id)
  {
    if Apply(p, e).Applied? {
      AppliedChecks(p, e);
      StoredAttempts(p, e.payload);
      StoredApprovals(p, e.payload);
      if e.payload.AttemptPayload? {
        AttemptEvents(p, e);
        AttemptStepIff(p, e, id);
      } else {
        OtherStepIsSafe(p, e, id);
      }
    }
    hide Check, Store, ApprovalsShaped, AllKeyed, Cleared;
  }

  lemma AttemptStepIff(p: Projection, e: ControlEvent, id: Id)
    requires ApprovalsShaped(p) && Safe(p, id) && Apply(p, e).Applied? && e.payload.AttemptPayload?
    requires After(p, e).attempts == p.attempts[e.payload.attempt.attemptId := e.payload.attempt]
    requires e.action.AttemptCreated? || e.action.AttemptTransitioned?
    requires e.action.AttemptCreated? ==> e.payload.attempt.attemptId !in p.attempts
    requires e.action.AttemptTransitioned? ==> e.payload.attempt.attemptId in p.attempts
    ensures Safe(After(p, e), id) <==> !Bypasses(p, e, id) && !BornFree(p, e, id)
  {
    hide Cleared, After, Apply, ApprovalsShaped, Free;
    if Cleared(p, id) {
      ClearedStays(p, e, id);
    } else if Cleared(After(p, e), id) {
      ClearedByApprovalsOnly(p, e, id);
    }
  }

  lemma OtherStepIsSafe(p: Projection, e: ControlEvent, id: Id)
    requires AllKeyed(p) && ApprovalsShaped(p) && Safe(p, id) && Check(p, e).None? && !e.payload.AttemptPayload?
    requires Apply(p, e).Applied? && After(p, e) == Record(Store(p, e.payload), e)
    ensures Safe(After(p, e), id)
  {
    StoredAttempts(p, e.payload);
    StoredApprovals(p, e.payload);
    var q := After(p, e);
    if e.payload.ResolutionPayload? && e.payload.released.attemptId == id {
      ResolutionIsSafe(p, e);
      assert q.approvals[e.payload.resolved.approvalId] == e.payload.resolved;
    } else if Cleared(p, id) {
      ClearedStays(p, e, id);
    }
    hide Check, Store, ApprovalsShaped, AllKeyed, Apply, After;
  }

  // ---------- Whole logs ----------

  /** No prefix of the log ends with a bypass or a free birth of the attempt. */
  ghost predicate NeverBypassed(log: seq<ControlEvent>, id: Id) {
    forall k :: 0 <= k < |log| ==> !Bypasses(Fold(EMPTY, log[..k]), log[k], id) && !BornFree(Fold(EMPTY, log[..k]), log[k], id)
  }

  ghost predicate AlwaysSafe(log: seq<ControlEvent>, id: Id) { forall k :: 0 <= k <= |log| ==> Safe(Fold(EMPTY, log[..k]), id) }

  lemma PrefixesShaped(log: seq<ControlEvent>, k: nat)
    requires k <= |log|
    ensures AllKeyed(Fold(EMPTY, log[..k])) && ApprovalsShaped(Fold(EMPTY, log[..k]))
    ensures k < |log| ==> Fold(EMPTY, log[..k + 1]) == After(Fold(EMPTY, log[..k]), log[k])
  {
    EmptySound();
    FoldEvolves(EMPTY, log[..k]);
    ApprovalsAreSingleUse(log[..k]);
    hide Evolves, Indexed, ReleasesOwnApprovals, ApprovalsShaped, AllKeyed, After;
    if k < |log| {
      assert log[..k + 1][..k] == log[..k];
    }
  }

  lemma {:induction false} SafeSoFar(log: seq<ControlEvent>, id: Id, k: nat)
    requires NeverBypassed(log, id) && k <= |log|
    ensures Safe(Fold(EMPTY, log[..k]), id)
    decreases k
  {
    hide After, Safe, Bypasses, BornFree, AllKeyed, ApprovalsShaped;
    if k == 0 {
      NothingIsFree(id);
    } else {
      SafeSoFar(log, id, k - 1);
      PrefixesShaped(log, k - 1);
      StepIsSafeIff(Fold(EMPTY, log[..k - 1]), log[k - 1], id);
    }
  }

  lemma NothingIsFree(id: Id)
    ensures Safe(EMPTY, id)
  {
  }

  /**
   Over every log: a free attempt always has a consumed launch approval behind it exactly when no event freed it past
   a missing approval, by a transition or by its birth.
   */
  lemma ReleasedByApprovalIff(log: seq<ControlEvent>, id: Id)
    ensures AlwaysSafe(log, id) <==> NeverBypassed(log, id)
  {
    hide Fold, After, Safe, Bypasses, BornFree, AllKeyed, ApprovalsShaped;
    if NeverBypassed(log, id) {
      forall k | 0 <= k <= |log| ensures Safe(Fold(EMPTY, log[..k]), id) {
        SafeSoFar(log, id, k);
      }
    }
    if AlwaysSafe(log, id) {
      forall k | 0 <= k < |log|
        ensures !Bypasses(Fold(EMPTY, log[..k]), log[k], id) && !BornFree(Fold(EMPTY, log[..k]), log[k], id)
      {
        PrefixesShaped(log, k);
        assert Safe(Fold(EMPTY, log[..k]), id) && Safe(Fold(EMPTY, log[..k + 1]), id);
        StepIsSafeIff(Fold(EMPTY, log[..k]), log[k], id);
      }
    }
  }

  // ---------- The gate at birth ----------

  /** The k-th event of the log creates the attempt. */
  ghost predicate BornAt(log: seq<ControlEvent>, k: nat, id: Id) {
    k < |log| && id !in Fold(EMPTY, log[..k]).attempts && id in Fold(EMPTY, log[..k + 1]).attempts
  }

  lemma BirthIsChecked(p: Projection, e: ControlEvent, id: Id)
    requires AllKeyed(p) && id !in p.attempts && id in After(p, e).attempts
    ensures var r := After(p, e).attempts[id];
      && Apply(p, e).Applied? && e.action.AttemptCreated? && e.payload == AttemptPayload(r) && r.attemptId == id
      && r.execution.Pending? && r.identity.taskId in p.contracts
      && p.contracts[r.identity.taskId].revision == r.identity.contractRevision
      && (r.control.Ready? ==> !p.contracts[r.identity.taskId].RequiresLaunchApproval())
      && (r.control.Ready? || r.control.AwaitingApproval?)
  {
    if Apply(p, e).Applied? {
      AppliedChecks(p, e);
      StoredAttempts(p, e.payload);
      if e.payload.AttemptPayload? {
        AttemptEvents(p, e);
        if e.payload.attempt.attemptId == id {
          CreationIsGated(p, e);
        }
      } else if e.payload.ResolutionPayload? {
        ResolvedAttemptIsKnown(p, e);
      }
    }
    hide Check, Store, TaskContract.RequiresLaunchApproval, AllKeyed;
  }

  lemma ResolvedAttemptIsKnown(p: Projection, e: ControlEvent)
    requires AllKeyed(p) && Check(p, e).None? && e.payload.ResolutionPayload?
    ensures e.payload.released.attemptId in p.attempts
  {
  }

  lemma CreationIsGated(p: Projection, e: ControlEvent)
    requires Check(p, e).None? && e.action.AttemptCreated? && e.payload.AttemptPayload?
    ensures var r := e.payload.attempt;
      && r.execution.Pending? && r.identity.taskId in p.contracts
      && p.contracts[r.identity.taskId].revision == r.identity.contractRevision
      && (r.control.Ready? ==> !p.contracts[r.identity.taskId].RequiresLaunchApproval())
      && (r.control.Ready? || r.control.AwaitingApproval?)
  {
    hide TaskContract.RequiresLaunchApproval;
  }

  /**
   Over every log: an attempt is created pending, for the contract its task has at that moment, and created ready only
   if that contract neither sets `launch_approval_required` nor writes to the workspace.
   */
  lemma BornReadyIsUngated(log: seq<ControlEvent>, k: nat, id: Id)
    requires BornAt(log, k, id)
    ensures var p, r := Fold(EMPTY, log[..k]), Fold(EMPTY, log[..k + 1]).attempts[id];
      && r.execution.Pending? && r.identity.taskId in p.contracts
      && var contract := p.contracts[r.identity.taskId];
      && contract.revision == r.identity.contractRevision
      && (r.control.Ready? ==>
            && Get(contract.permissionEnvelope, "launch_approval_required") != JBool(true)
            && Get(contract.permissionEnvelope, "mutation_mode") != JString("workspace_write"))
  {
    hide Fold, After, AllKeyed, ApprovalsShaped;
    PrefixesShaped(log, k);
    BirthIsChecked(Fold(EMPTY, log[..k]), log[k], id);
  }

  /** The attempt's contract asks for an approval when the attempt is created. */
  ghost predicate GatedAtBirth(log: seq<ControlEvent>, id: Id) {
    forall k: nat :: BornAt(log, k, id) ==>
      var p, task := Fold(EMPTY, log[..k]), Fold(EMPTY, log[..k + 1]).attempts[id].identity.taskId;
      && task in p.contracts
      && (|| Get(p.contracts[task].permissionEnvelope, "launch_approval_required") == JBool(true)
          || Get(p.contracts[task].permissionEnvelope, "mutation_mode") == JString("workspace_write"))
  }

  lemma FreeBirthIsBirth(p: Projection, e: ControlEvent, id: Id)
    requires BornFree(p, e, id)
    ensures id !in p.attempts && id in After(p, e).attempts && After(p, e).attempts[id].control.Ready?
  {
    AppliedChecks(p, e);
    StoredAttempts(p, e.payload);
    hide FreezesOnce, StateMoves, CarriesEvidence, TaskContract.RequiresLaunchApproval, Apply, After, Store, Cleared;
  }

  /**
   An attempt whose contract asks for an approval: over every log it is free only behind a consumed launch approval,
   exactly as long as no transition frees it past a missing one.
   */
  lemma GatedIsReleasedByApprovalIff(log: seq<ControlEvent>, id: Id)
    requires GatedAtBirth(log, id)
    ensures AlwaysSafe(log, id) <==> forall k :: 0 <= k < |log| ==> !Bypasses(Fold(EMPTY, log[..k]), log[k], id)
  {
    hide Fold, After, AlwaysSafe, Bypasses, BornFree, AllKeyed, ApprovalsShaped;
    forall k | 0 <= k < |log| ensures !BornFree(Fold(EMPTY, log[..k]), log[k], id) {
      if BornFree(Fold(EMPTY, log[..k]), log[k], id) {
        PrefixesShaped(log, k);
        FreeBirthIsBirth(Fold(EMPTY, log[..k]), log[k], id);
        assert BornAt(log, k, id);
        BornReadyIsUngated(log, k, id);
        assert false;
      }
    }
    ReleasedByApprovalIff(log, id);
  }

  // ---------- The store's own transition does it ----------

  const NO_CHANGES := AttemptChanges(None, None, None, None, NO_PROOF, None, None, None)

  /** A waiting attempt that can be transitioned with this call. */
  ghost predicate Waits(p: Projection, c: Call, id: Id) {
    && id in p.attempts && p.attempts[id].attemptId == id && p.attempts[id].Decodable() && p.attempts[id].revision == c.expected
    && p.attempts[id].execution.Pending? && p.attempts[id].control.AwaitingApproval? && p.attempts[id].manifestId.None?
    && c.key !in p.idempotency && ValidActor(c.actor)
  }

  /** From every state with a waiting attempt, a plain transition to ready commits; no approval is looked at. */
  lemma TransitionReleasesWaiting(p: Projection, c: Call, id: Id, meta: Meta)
    requires Waits(p, c, id) && c.request == TransitionAttempt(id, NO_CHANGES.(control := Some(Ready)))
    ensures Atomic(p, c, meta).Committed?
    ensures var q := After(p, Atomic(p, c, meta).event);
      id in q.attempts && q.attempts[id].control.Ready? && q.approvals == p.approvals
  {
    TransitionCommits(p, c, id, NO_CHANGES.(control := Some(Ready)), meta);
  }

  /** And so does a launch while the attempt keeps waiting. */
  lemma TransitionLaunchesWaiting(p: Projection, c: Call, id: Id, meta: Meta)
    requires Waits(p, c, id) && c.request == TransitionAttempt(id, NO_CHANGES.(execution := Some(Launching), manifestId := Some("m")))
    ensures Atomic(p, c, meta).Committed?
    ensures var q := After(p, Atomic(p, c, meta).event);
      && id in q.attempts && q.attempts[id].execution.Launching? && q.attempts[id].control.AwaitingApproval?
      && q.approvals == p.approvals
  {
    TransitionCommits(p, c, id, NO_CHANGES.(execution := Some(Launching), manifestId := Some("m")), meta);
  }

  lemma TransitionCommits(p: Projection, c: Call, id: Id, changes: AttemptChanges, meta: Meta)
    requires Waits(p, c, id) && c.request == TransitionAttempt(id, changes)
    requires var r := Transitioned(p.attempts[id], changes, c.now);
      && r.Decodable() && r.proof == p.attempts[id].proof && FreezesOnce(p.attempts[id], r) && StateMoves(p.attempts[id], r)
      && CarriesEvidence(r)
    ensures Atomic(p, c, meta).Committed?
    ensures var q := After(p, Atomic(p, c, meta).event);
      id in q.attempts && q.attempts[id] == Transitioned(p.attempts[id], changes, c.now) && q.approvals == p.approvals
  {
    hide ValidActor, CleanActor, Transitioned, FreezesOnce, StateMoves, CarriesEvidence, ProcessProof.Decodable;
    var d := Build(p, c).value;
    var e := EventOf(d, c, meta);
    TransitionKeepsNames(p.attempts[id], changes, c.now);
    assert CheckAttemptTransitioned(p, e, d.payload.attempt).None?;
    assert Check(p, e).None?;
    hide Check;
  }

  lemma TransitionKeepsNames(a: RunAttempt, changes: AttemptChanges, now: real)
    ensures var r := Transitioned(a, changes, now); r.attemptId == a.attemptId && r.identity == a.identity && r.revision == a.revision + 1
  {
  }
}
