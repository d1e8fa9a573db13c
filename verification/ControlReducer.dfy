/**
 The reducer of the control-plane log: `Apply` is one call of `_apply_event` as a function of the
 projection, and class `ControlProjection` is the projection the reducer updates in place.
 */
module ControlReducer {
  import opened Common
  import opened ControlRecords

  datatype Projection = Projection(
    tasks: map<Id, TaskRecord>, contracts: map<Id, TaskContract>, agents: map<Id, AgentSpec>,
    workspaces: map<Id, Workspace>, attempts: map<Id, RunAttempt>, approvals: map<Id, ApprovalRequest>,
    budgets: map<Id, BudgetPolicy>, schedules: map<Id, ScheduleSpec>,
    events: seq<ControlEvent>, idempotency: map<string, ControlEvent>)

  const EMPTY := Projection(map[], map[], map[], map[], map[], map[], map[], map[], [], map[])

  datatype Reaction = Applied(next: Projection) | Duplicate | Refused(error: ControlError)

  // ---------- Checks: None means the event is accepted ----------

  type Verdict = Option<ControlError>

  predicate Targets(e: ControlEvent, kind: TargetKind, id: Id) { e.targetKind == kind && e.targetId == id }

  predicate ActiveTask(p: Projection, id: Id) { id in p.tasks && p.tasks[id].Active() }

  function CheckTaskCreated(p: Projection, e: ControlEvent, r: TaskRecord): Verdict {
    if !r.Decodable() || !Targets(e, TaskTarget, r.taskId) then Some(Malformed)
    else if e.expectedRevision != 0 || r.revision != 1 || r.taskId in p.tasks then Some(RevisionConflict)
    else None
  }

  /** The cycle walk of the source starts at an active task, so its loop body never runs. */
  function CheckTaskMerged(p: Projection, e: ControlEvent, r: TaskRecord): Verdict {
    if !r.Decodable() || !Targets(e, TaskTarget, r.taskId) then Some(Malformed)
    else if r.taskId !in p.tasks then Some(NotFound)
    else if r.mergedInto == Some(r.taskId) then Some(InvalidTransition)
    else if r.mergedInto.None? || !ActiveTask(p, r.mergedInto.value) then Some(Malformed)
    else
      var current := p.tasks[r.taskId];
      if current.revision != e.expectedRevision then Some(RevisionConflict)
      else if !current.Active() || r.revision != current.revision + 1 then Some(InvalidTransition)
      else None
  }

  function CheckContractCreated(p: Projection, e: ControlEvent, r: TaskContract): Verdict {
    var current := if r.taskId in p.contracts then p.contracts[r.taskId].revision else 0;
    if !r.Decodable() || !Targets(e, ContractTarget, r.taskId) then Some(Malformed)
    else if !ActiveTask(p, r.taskId) || r.workspaceId !in p.workspaces then Some(NotFound)
    else if current != e.expectedRevision || r.revision != current + 1 then Some(RevisionConflict)
    else if exists id :: id in r.budgetPolicyIds && id !in p.budgets then Some(NotFound)
    else None
  }

  function CheckAgentRegistered(p: Projection, e: ControlEvent, r: AgentSpec): Verdict {
    var current := if r.agentId in p.agents then p.agents[r.agentId].revision else 0;
    if !r.Decodable() || !Targets(e, AgentTarget, r.agentId) then Some(Malformed)
    else if current != e.expectedRevision || r.revision != current + 1 then Some(RevisionConflict)
    else None
  }

  function CheckWorkspaceRegistered(p: Projection, e: ControlEvent, r: Workspace): Verdict {
    var current := if r.workspaceId in p.workspaces then p.workspaces[r.workspaceId].revision else 0;
    if !r.Decodable() || !Targets(e, WorkspaceTarget, r.workspaceId) then Some(Malformed)
    else if current != e.expectedRevision || r.revision != current + 1 then Some(RevisionConflict)
    else if
      && r.workspaceId in p.workspaces
      && (r.canonicalRoot, r.storeDir) != (p.workspaces[r.workspaceId].canonicalRoot, p.workspaces[r.workspaceId].storeDir)
    then Some(InvalidTransition)
    else None
  }

  function CheckAttemptCreated(p: Projection, e: ControlEvent, r: RunAttempt): Verdict {
    var id := r.identity;
    if !r.Decodable() || !Targets(e, AttemptTarget, r.attemptId) then Some(Malformed)
    else if e.expectedRevision != 0 || r.revision != 1 || r.attemptId in p.attempts then Some(RevisionConflict)
    else if !ActiveTask(p, id.taskId) then Some(NotFound)
    else if id.taskId !in p.contracts || p.contracts[id.taskId].revision != id.contractRevision then Some(RevisionConflict)
    else if id.agentId !in p.agents || !p.agents[id.agentId].enabled then Some(NotFound)
    else if p.agents[id.agentId].revision != id.agentRevision then Some(RevisionConflict)
    else
      var contract := p.contracts[id.taskId];
      if
        || id.workspaceId !in p.workspaces || !p.workspaces[id.workspaceId].enabled
        || contract.workspaceId != p.workspaces[id.workspaceId].workspaceId
      then Some(NotFound)
      else if !r.execution.Pending? || !r.outcome.Unknown? || !(r.control.Ready? || r.control.AwaitingApproval?)
      then Some(InvalidTransition)
      else if contract.RequiresLaunchApproval() && !r.control.AwaitingApproval? then Some(InvalidTransition)
      else None
  }

  /** The manifest and the process proof are each frozen once, at their own transition. */
  predicate FreezesOnce(a: RunAttempt, r: RunAttempt) {
    && (a.manifestId.Some? ==> r.manifestId == a.manifestId)
    && (a.manifestId.None? && r.manifestId.Some? ==> a.execution.Pending? && r.execution.Launching?)
    && (!a.proof.Empty() ==> r.proof == a.proof)
    && (a.proof.Empty() && !r.proof.Empty() ==> a.execution.Launching? && r.execution.Running? && r.proof.Full())
  }

  predicate StateMoves(a: RunAttempt, r: RunAttempt) {
    && (r.execution == a.execution || r.execution in ExecutionTransitions(a.execution))
    && (r.outcome == a.outcome || r.outcome in OutcomeTransitions(a.outcome))
    && (r.control == a.control || r.control in ControlTransitions(a.control))
  }

  predicate CarriesEvidence(r: RunAttempt) {
    && (r.execution.Launching? || r.execution.Running? || r.execution.CancelRequested? ==> Truthy(r.manifestId))
    && (r.execution.Running? || r.execution.CancelRequested? ==> r.HasCompleteProcessProof())
    && (r.execution.Running? ==> r.proof.startedAt.Some?)
    && (Terminal(r.execution) ==> r.endedAt.Some?)
  }

  function CheckAttemptTransitioned(p: Projection, e: ControlEvent, r: RunAttempt): Verdict {
    if !r.Decodable() || !Targets(e, AttemptTarget, r.attemptId) then Some(Malformed)
    else if r.attemptId !in p.attempts then Some(NotFound)
    else
      var current := p.attempts[r.attemptId];
      if current.revision != e.expectedRevision || r.revision != current.revision + 1 then Some(RevisionConflict)
      else if
        || r.identity != current.identity || !FreezesOnce(current, r) || !StateMoves(current, r) || !CarriesEvidence(r)
        || !LabelsFit(e, ExecutionName(current.execution), ExecutionName(r.execution))
      then Some(InvalidTransition)
      else None
  }

  function CheckApprovalRequested(p: Projection, e: ControlEvent, r: ApprovalRequest): Verdict {
    if !r.Decodable() || !Targets(e, ApprovalTarget, r.approvalId) then Some(Malformed)
    else if e.expectedRevision != 0 || r.revision != 1 || r.approvalId in p.approvals then Some(RevisionConflict)
    else if r.scope.taskId !in p.tasks || (Truthy(r.scope.attemptId) && r.scope.attemptId.value !in p.attempts) then Some(NotFound)
    else if
      || !r.state.Undecided? || r.decidedBy.Some? || r.decidedAt.Some? || r.consumedAt.Some?
      || r.scope.expiresAt <= e.occurredAt
    then Some(InvalidTransition)
    else None
  }

  /** Resolving an approval may change only the control state, the reason and the revision. */
  predicate OnlyControlChanges(a: RunAttempt, r: RunAttempt) {
    && r.identity.(taskId := a.identity.taskId) == a.identity
    && r.execution == a.execution && r.outcome == a.outcome && r.manifestId == a.manifestId && r.proof == a.proof
    && r.endedAt == a.endedAt && r.exitCode == a.exitCode
  }

  /** Note that the released attempt takes the task of the approval, not the task it had. */
  function CheckApprovalResolved(
    p: Projection, e: ControlEvent, r: ApprovalRequest, a: RunAttempt, expectedAttemptRevision: int): Verdict
  {
    if !r.Decodable() || !a.Decodable() || !Targets(e, ApprovalTarget, r.approvalId) then Some(Malformed)
    else if r.approvalId !in p.approvals then Some(NotFound)
    else
      var current := p.approvals[r.approvalId];
      if current.revision != e.expectedRevision then Some(RevisionConflict)
      else if
        || !current.state.Undecided? || r.revision != current.revision + 1 || r.scope != current.scope
        || current.scope.attemptId.None? || current.scope.requestedAction != "launch"
        || !Truthy(r.decidedBy) || r.decidedAt.None? || r.decidedAt.value >= r.scope.expiresAt
        || current.decidedBy.Some? || current.decidedAt.Some? || current.consumedAt.Some?
      then Some(InvalidTransition)
      else if current.scope.attemptId.value !in p.attempts then Some(NotFound)
      else if expectedAttemptRevision < 1 then Some(Malformed)
      else
        var attempt := p.attempts[current.scope.attemptId.value];
        if attempt.revision != expectedAttemptRevision || a.revision != attempt.revision + 1 then Some(RevisionConflict)
        else if
          || a.attemptId != attempt.attemptId || a.identity.taskId != current.scope.taskId || !OnlyControlChanges(attempt, a)
          || !attempt.execution.Pending? || !attempt.control.AwaitingApproval?
          || !ResolutionFits(r, a)
          || !(a.control == attempt.control || a.control in ControlTransitions(attempt.control))
          || !LabelsFit(e, ApprovalName(current.state), ApprovalName(r.state))
        then Some(InvalidTransition)
        else None
  }

  predicate ResolutionFits(r: ApprovalRequest, a: RunAttempt)
    requires r.decidedAt.Some?
  {
    || (&& r.state.Consumed? && r.consumedAt.Some? && r.decidedAt.value <= r.consumedAt.value < r.scope.expiresAt
        && a.control.Ready?)
    || (r.state.Rejected? && r.consumedAt.None? && a.control.PolicyHold?)
  }

  predicate DecisionFits(action: Action, current: ApprovalRequest, r: ApprovalRequest) {
    if action.ApprovalDecided? then
      && (r.state.Approved? || r.state.Rejected?) && Truthy(r.decidedBy) && r.decidedAt.Some?
      && r.decidedAt.value < r.scope.expiresAt
      && current.decidedBy.None? && current.decidedAt.None? && r.consumedAt.None?
    else
      && (r.decidedBy, r.decidedAt) == (current.decidedBy, current.decidedAt)
      && (if action.ApprovalConsumed? then r.state.Consumed? && r.consumedAt.Some? && r.consumedAt.value < r.scope.expiresAt
          else r.consumedAt == current.consumedAt)
      && (action.ApprovalExpired? ==> r.state.Expired?)
      && (action.ApprovalCancelled? ==> r.state.Withdrawn?)
  }

  function CheckApprovalMoved(p: Projection, e: ControlEvent, r: ApprovalRequest): Verdict {
    if !r.Decodable() || !Targets(e, ApprovalTarget, r.approvalId) then Some(Malformed)
    else if r.approvalId !in p.approvals then Some(NotFound)
    else
      var current := p.approvals[r.approvalId];
      if current.revision != e.expectedRevision || r.revision != current.revision + 1 then Some(RevisionConflict)
      else if
        || r.scope != current.scope || r.state !in ApprovalTransitions(current.state) || !DecisionFits(e.action, current, r)
        || !LabelsFit(e, ApprovalName(current.state), ApprovalName(r.state))
      then Some(InvalidTransition)
      else None
  }

  function CheckBudgetRegistered(p: Projection, e: ControlEvent, r: BudgetPolicy): Verdict {
    var current := if r.policyId in p.budgets then p.budgets[r.policyId].revision else 0;
    if !r.Decodable() || !Targets(e, BudgetTarget, r.policyId) then Some(Malformed)
    else if current != e.expectedRevision || r.revision != current + 1 then Some(RevisionConflict)
    else if !r.BasisFits() then Some(Malformed)
    else None
  }

  /** Whole intervals from `claimedFor` up to and past `claimedAt`: the tick after a claim. */
  function NextTick(claimedFor: real, claimedAt: real, interval: real): real
    requires interval > 0.0
  {
    var elapsed := if claimedAt > claimedFor then claimedAt - claimedFor else 0.0;
    claimedFor + ((elapsed / interval).Floor + 1) as real * interval
  }

  predicate ClaimFits(current: ScheduleSpec, r: ScheduleSpec, claimedFor: real) {
    && r.claimCount == current.claimCount + 1
    && r.lastClaimedAt.Some? && claimedFor <= r.lastClaimedAt.value == r.updatedAt
    && match current.cadence {
         case OneShot => !r.enabled && r.nextRunAt.None?
         case Fixed =>
           && r.enabled && current.interval.Some? && current.interval.value >= 1.0
           && r.nextRunAt == Some(NextTick(claimedFor, r.lastClaimedAt.value, current.interval.value))
       }
  }

  function CheckSchedule(p: Projection, e: ControlEvent, r: ScheduleSpec): Verdict {
    var revision := if r.scheduleId in p.schedules then p.schedules[r.scheduleId].revision else 0;
    if !r.Decodable() || !Targets(e, ScheduleTarget, r.scheduleId) then Some(Malformed)
    else if revision != e.expectedRevision || r.revision != revision + 1 then Some(RevisionConflict)
    else if r.taskId !in p.tasks then Some(NotFound)
    else if r.scheduleId in p.schedules then
      var current := p.schedules[r.scheduleId];
      if
        || e.action.ScheduleRegistered?
        || (r.taskId, r.cadence, r.interval) != (current.taskId, current.cadence, current.interval)
        || (e.action.ScheduleUpdated? && (r.claimCount, r.lastClaimedAt) != (current.claimCount, current.lastClaimedAt))
      then Some(InvalidTransition)
      else None
    else if e.action.ScheduleRegistered? && (r.claimCount != 0 || r.lastClaimedAt.Some?) then Some(InvalidTransition)
    else None
  }

  function CheckScheduleClaimed(p: Projection, e: ControlEvent, r: ScheduleSpec, claimedFor: real): Verdict {
    if CheckSchedule(p, e, r).Some? then CheckSchedule(p, e, r)
    else if r.scheduleId !in p.schedules then Some(InvalidTransition)
    else
      var current := p.schedules[r.scheduleId];
      if !current.enabled || current.nextRunAt.None? then Some(InvalidTransition)
      else if claimedFor < 0.0 then Some(Malformed)
      else if claimedFor != current.nextRunAt.value || !ClaimFits(current, r, claimedFor) then Some(InvalidTransition)
      else None
  }

  // ---------- The reducer as a function ----------

  /** Every check of `_apply_event` after the idempotency lookup. */
  function Check(p: Projection, e: ControlEvent): Verdict {
    match (e.action, e.payload)
    case (TaskCreated, TaskPayload(r)) => CheckTaskCreated(p, e, r)
    case (TaskMerged, TaskPayload(r)) => CheckTaskMerged(p, e, r)
    case (ContractCreated, ContractPayload(r)) => CheckContractCreated(p, e, r)
    case (AgentRegistered, AgentPayload(r)) => CheckAgentRegistered(p, e, r)
    case (WorkspaceRegistered, WorkspacePayload(r)) => CheckWorkspaceRegistered(p, e, r)
    case (AttemptCreated, AttemptPayload(r)) => CheckAttemptCreated(p, e, r)
    case (AttemptTransitioned, AttemptPayload(r)) => CheckAttemptTransitioned(p, e, r)
    case (ApprovalRequested, ApprovalPayload(r)) => CheckApprovalRequested(p, e, r)
    case (ApprovalResolved, ResolutionPayload(r, a, n)) => CheckApprovalResolved(p, e, r, a, n)
    case (ApprovalDecided, ApprovalPayload(r)) => CheckApprovalMoved(p, e, r)
    case (ApprovalConsumed, ApprovalPayload(r)) => CheckApprovalMoved(p, e, r)
    case (ApprovalExpired, ApprovalPayload(r)) => CheckApprovalMoved(p, e, r)
    case (ApprovalCancelled, ApprovalPayload(r)) => CheckApprovalMoved(p, e, r)
    case (BudgetRegistered, BudgetPayload(r)) => CheckBudgetRegistered(p, e, r)
    case (ScheduleRegistered, SchedulePayload(r)) => CheckSchedule(p, e, r)
    case (ScheduleUpdated, SchedulePayload(r)) => CheckSchedule(p, e, r)
    case (ScheduleClaimed, ClaimPayload(r, t)) => CheckScheduleClaimed(p, e, r, t)
    case _ => Some(Malformed)
  }

  /** The record maps after the record of an accepted event is stored. */
  function Store(p: Projection, payload: Payload): Projection {
    match payload
    case TaskPayload(r) => p.(tasks := p.tasks[r.taskId := r])
    case ContractPayload(r) => p.(contracts := p.contracts[r.taskId := r])
    case AgentPayload(r) => p.(agents := p.agents[r.agentId := r])
    case WorkspacePayload(r) => p.(workspaces := p.workspaces[r.workspaceId := r])
    case AttemptPayload(r) => p.(attempts := p.attempts[r.attemptId := r])
    case ApprovalPayload(r) => p.(approvals := p.approvals[r.approvalId := r])
    case ResolutionPayload(r, a, _) => p.(approvals := p.approvals[r.approvalId := r], attempts := p.attempts[a.attemptId := a])
    case BudgetPayload(r) => p.(budgets := p.budgets[r.policyId := r])
    case SchedulePayload(r) => p.(schedules := p.schedules[r.scheduleId := r])
    case ClaimPayload(r, _) => p.(schedules := p.schedules[r.scheduleId := r])
    case UndecodedPayload => p
  }

  function Record(p: Projection, e: ControlEvent): Projection {
    p.(events := p.events + [e], idempotency := p.idempotency[e.idempotencyKey := e])
  }

  function Apply(p: Projection, e: ControlEvent): Reaction {
    if e.idempotencyKey in p.idempotency then
      if p.idempotency[e.idempotencyKey] == e then Duplicate else Refused(IdempotencyConflict)
    else match Check(p, e)
      case Some(error) => Refused(error)
      case None => Applied(Record(Store(p, e.payload), e))
  }

  /** The projection after an event, whatever the reducer thinks of it. */
  function After(p: Projection, e: ControlEvent): Projection {
    match Apply(p, e)
    case Applied(q) => q
    case Duplicate => p
    case Refused(_) => p
  }

  function Fold(p: Projection, events: seq<ControlEvent>): Projection
    decreases |events|
  {
    if events == [] then p else After(Fold(p, events[..|events| - 1]), events[|events| - 1])
  }

  // ---------- The reducer in place ----------

  class ControlProjection {
    var tasks: map<Id, TaskRecord>
    var contracts: map<Id, TaskContract>
    var agents: map<Id, AgentSpec>
    var workspaces: map<Id, Workspace>
    var attempts: map<Id, RunAttempt>
    var approvals: map<Id, ApprovalRequest>
    var budgets: map<Id, BudgetPolicy>
    var schedules: map<Id, ScheduleSpec>
    var events: seq<ControlEvent>
    var idempotency: map<string, ControlEvent>
    var issues: seq<nat>

    function View(): Projection
      reads this
    {
      Projection(tasks, contracts, agents, workspaces, attempts, approvals, budgets, schedules, events, idempotency)
    }

    constructor ()
      ensures View() == EMPTY && issues == []
    {
      tasks, contracts, agents, workspaces := map[], map[], map[], map[];
      attempts, approvals, budgets, schedules := map[], map[], map[], map[];
      events, idempotency, issues := [], map[], [];
    }

    /** `_apply_event`; an error is the exception it raises. */
    method ApplyEvent(e: ControlEvent) returns (error: Verdict)
      modifies this
      ensures View() == After(old(View()), e) && issues == old(issues)
      ensures error == match Apply(old(View()), e) { case Refused(err) => Some(err) case _ => None }
    {
      hide Check;
      if e.idempotencyKey in idempotency {
        return if idempotency[e.idempotencyKey] == e then None else Some(IdempotencyConflict);
      }
      error := Check(View(), e);
      if error.Some? {
        return;
      }
      Commit(e);
    }

    /** The bookkeeping of an accepted event. */
    method Commit(e: ControlEvent)
      modifies this
      ensures View() == Record(Store(old(View()), e.payload), e) && issues == old(issues)
    {
      StoreRecord(e.payload);
      events := events + [e];
      idempotency := idempotency[e.idempotencyKey := e];
    }

    /** The dictionary updates of an accepted event. */
    method StoreRecord(payload: Payload)
      modifies this
      ensures View() == Store(old(View()), payload) && issues == old(issues)
    {
      match payload {
        case TaskPayload(r) => tasks := tasks[r.taskId := r];
        case ContractPayload(r) => contracts := contracts[r.taskId := r];
        case AgentPayload(r) => agents := agents[r.agentId := r];
        case WorkspacePayload(r) => workspaces := workspaces[r.workspaceId := r];
        case AttemptPayload(r) => attempts := attempts[r.attemptId := r];
        case ApprovalPayload(r) => approvals := approvals[r.approvalId := r];
        case ResolutionPayload(r, a, _) =>
          approvals := approvals[r.approvalId := r];
          attempts := attempts[a.attemptId := a];
        case BudgetPayload(r) => budgets := budgets[r.policyId := r];
        case SchedulePayload(r) => schedules := schedules[r.scheduleId := r];
        case ClaimPayload(r, _) => schedules := schedules[r.scheduleId := r];
        case UndecodedPayload =>
      }
    }
  }
}
