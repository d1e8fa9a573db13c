/**
 What the reducer demands of an event, said by what the demands are for: references resolve, revisions count, states
 move as they may, and the approval gate holds. `EventsAreAcceptedIff` is the exact match with the checks.
 */
module ControlRules {
  import opened Common
  import opened ControlRecords
  import opened ControlReducer
  import opened ControlHistory
  import opened ControlApprovals

  // ---------- States ----------

  /** The moves an attempt may make, and what each execution state must be able to show. */
  ghost predicate MayChange(a: RunAttempt, r: RunAttempt) {
    && (r.execution != a.execution ==> ExecutionStep(a.execution, r.execution))
    && (r.outcome != a.outcome ==> OutcomeStep(a.outcome, r.outcome))
    && (r.control != a.control ==> ControlStep(a.control, r.control))
    && (r.manifestId != a.manifestId ==> a.manifestId.None? && a.execution.Pending? && r.execution.Launching?)
    && (r.proof != a.proof ==> a.proof == NO_PROOF && a.execution.Launching? && r.execution.Running? && r.proof.Full())
    && (r.execution in {Launching, Running, CancelRequested} ==> r.manifestId.Some? && r.manifestId.value != "")
    && (r.execution in {Running, CancelRequested} ==>
          && r.proof.pid.Some? && r.proof.processGroupId.Some? && r.proof.birthTime.Some?
          && r.proof.executable.Some? && r.proof.executable.value != "" && r.proof.cwd.Some? && r.proof.cwd.value != ""
          && r.proof.nonceHash.Some? && r.proof.nonceHash.value != "")
    && (r.execution.Running? ==> r.proof.startedAt.Some?)
    && (r.execution in {Succeeded, Failed, Cancelled, Lost} ==> r.endedAt.Some?)
  }

  /** What leads to each execution state: an end is final, success needs a running process, anything unfinished may be lost. */
  predicate ExecutionStep(from: Execution, to: Execution) {
    match to
    case Pending => false
    case Launching => from.Pending?
    case Running => from.Launching?
    case CancelRequested => from.Launching? || from.Running?
    case Succeeded => from.Running?
    case Failed => from in {Launching, Running, CancelRequested}
    case Cancelled => from.Pending? || from.CancelRequested?
    case Lost => from !in {Succeeded, Failed, Cancelled, Lost}
  }

  /** Outcomes never become unknown again, and are merely reported only at first. */
  predicate OutcomeStep(from: Outcome, to: Outcome) { from != to && !to.Unknown? && (to.Reported? ==> from.Unknown?) }

  function Severity(s: Control): nat {
    match s case Ready => 0 case AwaitingApproval => 1 case PolicyHold => 2 case ControlFailure => 3
  }

  /** Control gets stricter step by step or all the way back to ready. */
  predicate ControlStep(from: Control, to: Control) { from != to && (to.Ready? || Severity(from) < Severity(to)) }

  /** Approvals are decided once, used only when approved, and can lapse or be withdrawn until settled. */
  predicate ApprovalStep(from: ApprovalState, to: ApprovalState) {
    && !Settled(from) && !to.Undecided?
    && (to.Approved? || to.Rejected? ==> from.Undecided?)
    && (to.Consumed? ==> from.Approved?)
  }

  lemma TablesAreSteps()
    ensures forall s, t :: t in ExecutionTransitions(s) <==> ExecutionStep(s, t)
    ensures forall s, t :: t in OutcomeTransitions(s) <==> OutcomeStep(s, t)
    ensures forall s, t :: t in ControlTransitions(s) <==> ControlStep(s, t)
    ensures forall s, t :: t in ApprovalTransitions(s) <==> ApprovalStep(s, t)
  {
  }

  lemma ChangesAreTransitions(a: RunAttempt, r: RunAttempt)
    ensures MayChange(a, r) <==> FreezesOnce(a, r) && StateMoves(a, r) && CarriesEvidence(r)
  {
    TablesAreSteps();
    hide ExecutionTransitions, OutcomeTransitions, ControlTransitions, ExecutionStep, OutcomeStep, ControlStep;
  }

  // ---------- Gates and counters ----------

  /** The contract asks for an approval before launch: fail closed on either spelling. */
  predicate Gated(contract: TaskContract) {
    || ("launch_approval_required" in contract.permissionEnvelope
        && contract.permissionEnvelope["launch_approval_required"] == JBool(true))
    || ("mutation_mode" in contract.permissionEnvelope
        && contract.permissionEnvelope["mutation_mode"] == JString("workspace_write"))
  }

  lemma GatedIsRequired()
    ensures forall contract: TaskContract :: contract.RequiresLaunchApproval() <==> Gated(contract)
  {
  }

  /** The event moves its record from the revision it expects to the next one. */
  predicate Counts(e: ControlEvent, current: int, revision: int) { e.expectedRevision == current && revision == current + 1 }

  /** Labels may be left out. */
  predicate Labelled(e: ControlEvent, prior: string, next: string) {
    (e.priorState.None? || e.priorState.value == prior) && (e.nextState.None? || e.nextState.value == next)
  }

  predicate Active(p: Projection, task: Id) { task in p.tasks && p.tasks[task].mergedInto.None? }

  /** A time that is absent or not negative. */
  predicate NotNegative(at: Option<real>) { at.Some? ==> at.value >= 0.0 }

  predicate AttemptNumbers(r: RunAttempt) {
    && r.identity.contractRevision >= 1 && r.identity.agentRevision >= 1 && NotNegative(r.endedAt) && NotNegative(r.proof.startedAt)
    && (r.proof.pid.Some? ==> r.proof.pid.value > 0) && (r.proof.processGroupId.Some? ==> r.proof.processGroupId.value > 0)
    && (r.proof.birthTime.Some? ==> r.proof.birthTime.value > 0.0)
  }

  predicate ApprovalNumbers(r: ApprovalRequest) { r.scope.expiresAt >= 0.0 && NotNegative(r.decidedAt) && NotNegative(r.consumedAt) }

  predicate ScheduleNumbers(r: ScheduleSpec) {
    && (if r.cadence == Fixed then r.interval.Some? && r.interval.value >= 1.0 else r.interval.None?)
    && NotNegative(r.nextRunAt) && NotNegative(r.lastClaimedAt) && r.claimCount >= 0 && r.updatedAt >= 0.0
  }

  // ---------- What is accepted ----------

  ghost predicate MergeAcceptable(p: Projection, e: ControlEvent, r: TaskRecord) {
    && Targets(e, TaskTarget, r.taskId) && r.createdAt >= 0.0 && Active(p, r.taskId) && Counts(e, p.tasks[r.taskId].revision, r.revision)
    && r.mergedInto.Some? && r.mergedInto.value != r.taskId && Active(p, r.mergedInto.value)
  }

  ghost predicate ContractAcceptable(p: Projection, e: ControlEvent, r: TaskContract) {
    && Targets(e, ContractTarget, r.taskId) && r.createdAt >= 0.0 && Active(p, r.taskId) && r.workspaceId in p.workspaces
    && Counts(e, if r.taskId in p.contracts then p.contracts[r.taskId].revision else 0, r.revision)
    && forall i :: 0 <= i < |r.budgetPolicyIds| ==> r.budgetPolicyIds[i] in p.budgets
  }

  ghost predicate WorkspaceAcceptable(p: Projection, e: ControlEvent, r: Workspace) {
    var known := r.workspaceId in p.workspaces;
    && Targets(e, WorkspaceTarget, r.workspaceId) && r.updatedAt >= 0.0
    && Counts(e, if known then p.workspaces[r.workspaceId].revision else 0, r.revision)
    && (known ==> r.canonicalRoot == p.workspaces[r.workspaceId].canonicalRoot && r.storeDir == p.workspaces[r.workspaceId].storeDir)
  }

  /** A new attempt is pending, frozen to what is current and enabled, and waits if its contract is gated. */
  ghost predicate CreationAcceptable(p: Projection, e: ControlEvent, r: RunAttempt) {
    var a := r.identity;
    && Targets(e, AttemptTarget, r.attemptId) && AttemptNumbers(r) && r.attemptId !in p.attempts && Counts(e, 0, r.revision)
    && Active(p, a.taskId) && a.taskId in p.contracts && p.contracts[a.taskId].revision == a.contractRevision
    && a.agentId in p.agents && p.agents[a.agentId].enabled && p.agents[a.agentId].revision == a.agentRevision
    && a.workspaceId in p.workspaces && p.workspaces[a.workspaceId].enabled && p.contracts[a.taskId].workspaceId == a.workspaceId
    && r.execution == Pending && r.outcome == Unknown && r.control in {Ready, AwaitingApproval}
    && (Gated(p.contracts[a.taskId]) ==> r.control == AwaitingApproval)
  }

  ghost predicate TransitionAcceptable(p: Projection, e: ControlEvent, r: RunAttempt) {
    && Targets(e, AttemptTarget, r.attemptId) && AttemptNumbers(r) && r.attemptId in p.attempts
    && var a := p.attempts[r.attemptId];
    && Counts(e, a.revision, r.revision) && r.identity == a.identity && MayChange(a, r)
    && Labelled(e, ExecutionName(a.execution), ExecutionName(r.execution))
  }

  ghost predicate RequestAcceptable(p: Projection, e: ControlEvent, r: ApprovalRequest) {
    && Targets(e, ApprovalTarget, r.approvalId) && ApprovalNumbers(r) && r.approvalId !in p.approvals && Counts(e, 0, r.revision)
    && r.scope.taskId in p.tasks
    && (r.scope.attemptId.Some? && r.scope.attemptId.value != "" ==> r.scope.attemptId.value in p.attempts)
    && r.state == Undecided && r.decidedBy.None? && r.decidedAt.None? && r.consumedAt.None? && e.occurredAt < r.scope.expiresAt
  }

  predicate DecidedBefore(r: ApprovalRequest) {
    r.decidedBy.Some? && r.decidedBy.value != "" && r.decidedAt.Some? && r.decidedAt.value < r.scope.expiresAt
  }

  /** An approval moves on by one revision, within its scope, as approvals may. */
  ghost predicate ApprovalMoves(p: Projection, e: ControlEvent, r: ApprovalRequest) {
    && Targets(e, ApprovalTarget, r.approvalId) && ApprovalNumbers(r) && r.approvalId in p.approvals
    && var current := p.approvals[r.approvalId];
    && Counts(e, current.revision, r.revision) && r.scope == current.scope && Labelled(e, ApprovalName(current.state), ApprovalName(r.state))
  }

  ghost predicate DecisionAcceptable(p: Projection, e: ControlEvent, r: ApprovalRequest) {
    && ApprovalMoves(p, e, r) && var current := p.approvals[r.approvalId];
    && current.state == Undecided && r.state in {Approved, Rejected} && DecidedBefore(r) && r.consumedAt.None?
    && current.decidedBy.None? && current.decidedAt.None?
  }

  ghost predicate DecisionKept(current: ApprovalRequest, r: ApprovalRequest) {
    r.decidedBy == current.decidedBy && r.decidedAt == current.decidedAt
  }

  ghost predicate ConsumptionAcceptable(p: Projection, e: ControlEvent, r: ApprovalRequest) {
    && ApprovalMoves(p, e, r) && DecisionKept(p.approvals[r.approvalId], r) && p.approvals[r.approvalId].state == Approved
    && r.state == Consumed && r.consumedAt.Some? && r.consumedAt.value < r.scope.expiresAt
  }

  ghost predicate LapseAcceptable(p: Projection, e: ControlEvent, r: ApprovalRequest, state: ApprovalState) {
    && ApprovalMoves(p, e, r) && DecisionKept(p.approvals[r.approvalId], r) && p.approvals[r.approvalId].state in {Undecided, Approved}
    && r.state == state && r.consumedAt == p.approvals[r.approvalId].consumedAt
  }

  /** A launch approval is settled together with its waiting attempt; the attempt takes the approval's task. */
  ghost predicate ResolutionAcceptable(p: Projection, e: ControlEvent, r: ApprovalRequest, a: RunAttempt, expected: int) {
    && ApprovalMoves(p, e, r) && AttemptNumbers(a)
    && var current := p.approvals[r.approvalId];
    && current.state == Undecided && current.decidedBy.None? && current.decidedAt.None? && current.consumedAt.None? && DecidedBefore(r)
    && current.scope.requestedAction == "launch" && current.scope.attemptId == Some(a.attemptId) && a.attemptId in p.attempts
    && var before := p.attempts[a.attemptId];
    && before.execution == Pending && before.control == AwaitingApproval
    && expected == before.revision && a.revision == before.revision + 1 && a.identity.taskId == current.scope.taskId
    && a.(control := before.control, reason := before.reason, revision := before.revision, identity := before.identity) == before
    && a.identity.(taskId := before.identity.taskId) == before.identity
    && (|| (r.state == Consumed && a.control == Ready && r.consumedAt.Some?
            && r.decidedAt.value <= r.consumedAt.value < r.scope.expiresAt)
        || (r.state == Rejected && a.control == PolicyHold && r.consumedAt.None?))
  }

  ghost predicate BudgetAcceptable(p: Projection, e: ControlEvent, r: BudgetPolicy) {
    && Targets(e, BudgetTarget, r.policyId) && r.limit > 0.0 && r.updatedAt >= 0.0
    && Counts(e, if r.policyId in p.budgets then p.budgets[r.policyId].revision else 0, r.revision)
    && (r.action in {"cancel", "block"} ==> r.basis in {"provider_billed", "conservative_approved"})
  }

  /** A schedule keeps its task, cadence and interval. */
  ghost predicate ScheduleMoves(p: Projection, e: ControlEvent, r: ScheduleSpec) {
    var known := r.scheduleId in p.schedules;
    && Targets(e, ScheduleTarget, r.scheduleId) && ScheduleNumbers(r) && r.taskId in p.tasks
    && Counts(e, if known then p.schedules[r.scheduleId].revision else 0, r.revision)
    && (known ==>
          && r.taskId == p.schedules[r.scheduleId].taskId && r.cadence == p.schedules[r.scheduleId].cadence
          && r.interval == p.schedules[r.scheduleId].interval)
  }

  ghost predicate UpdateAcceptable(p: Projection, e: ControlEvent, r: ScheduleSpec) {
    && ScheduleMoves(p, e, r)
    && (r.scheduleId in p.schedules ==>
          && r.claimCount == p.schedules[r.scheduleId].claimCount && r.lastClaimedAt == p.schedules[r.scheduleId].lastClaimedAt)
  }

  /** A claim is of the next run, not before it, counts itself, and moves a fixed schedule to its next tick. */
  ghost predicate ClaimAcceptable(p: Projection, e: ControlEvent, r: ScheduleSpec, tick: real) {
    && ScheduleMoves(p, e, r) && r.scheduleId in p.schedules
    && var s := p.schedules[r.scheduleId];
    && s.enabled && s.nextRunAt == Some(tick) && tick >= 0.0
    && r.claimCount == s.claimCount + 1 && r.lastClaimedAt == Some(r.updatedAt) && tick <= r.updatedAt
    && (if s.cadence == OneShot then !r.enabled && r.nextRunAt.None?
        else r.enabled && s.interval.Some? && s.interval.value >= 1.0 && r.nextRunAt == Some(NextTick(tick, r.updatedAt, s.interval.value)))
  }

  ghost predicate Acceptable(p: Projection, e: ControlEvent) {
    match (e.action, e.payload)
    case (TaskCreated, TaskPayload(r)) =>
      Targets(e, TaskTarget, r.taskId) && r.createdAt >= 0.0 && r.taskId !in p.tasks && Counts(e, 0, r.revision)
    case (TaskMerged, TaskPayload(r)) => MergeAcceptable(p, e, r)
    case (ContractCreated, ContractPayload(r)) => ContractAcceptable(p, e, r)
    case (AgentRegistered, AgentPayload(r)) =>
      && Targets(e, AgentTarget, r.agentId) && r.updatedAt >= 0.0
      && Counts(e, if r.agentId in p.agents then p.agents[r.agentId].revision else 0, r.revision)
    case (WorkspaceRegistered, WorkspacePayload(r)) => WorkspaceAcceptable(p, e, r)
    case (AttemptCreated, AttemptPayload(r)) => CreationAcceptable(p, e, r)
    case (AttemptTransitioned, AttemptPayload(r)) => TransitionAcceptable(p, e, r)
    case (ApprovalRequested, ApprovalPayload(r)) => RequestAcceptable(p, e, r)
    case (ApprovalResolved, ResolutionPayload(r, a, n)) => ResolutionAcceptable(p, e, r, a, n)
    case (ApprovalDecided, ApprovalPayload(r)) => DecisionAcceptable(p, e, r)
    case (ApprovalConsumed, ApprovalPayload(r)) => ConsumptionAcceptable(p, e, r)
    case (ApprovalExpired, ApprovalPayload(r)) => LapseAcceptable(p, e, r, Expired)
    case (ApprovalCancelled, ApprovalPayload(r)) => LapseAcceptable(p, e, r, Withdrawn)
    case (BudgetRegistered, BudgetPayload(r)) => BudgetAcceptable(p, e, r)
    case (ScheduleRegistered, SchedulePayload(r)) =>
      ScheduleMoves(p, e, r) && r.scheduleId !in p.schedules && r.claimCount == 0 && r.lastClaimedAt.None?
    case (ScheduleUpdated, SchedulePayload(r)) => UpdateAcceptable(p, e, r)
    case (ScheduleClaimed, ClaimPayload(r, tick)) => ClaimAcceptable(p, e, r, tick)
    case _ => false
  }

  // ---------- The checks accept exactly that ----------

  lemma RegistryRules(p: Projection, e: ControlEvent)
    requires AllKeyed(p) && (e.payload.TaskPayload? || e.payload.ContractPayload? || e.payload.AgentPayload? || e.payload.WorkspacePayload?
                             || e.payload.BudgetPayload?)
    ensures Check(p, e).None? <==> Acceptable(p, e)
  {
  }

  lemma AttemptRules(p: Projection, e: ControlEvent, r: RunAttempt)
    requires AllKeyed(p)
    ensures CheckAttemptCreated(p, e, r).None? <==> CreationAcceptable(p, e, r)
    ensures CheckAttemptTransitioned(p, e, r).None? <==> TransitionAcceptable(p, e, r)
  {
    GatedIsRequired();
    if r.attemptId in p.attempts {
      ChangesAreTransitions(p.attempts[r.attemptId], r);
    }
    hide Gated, TaskContract.RequiresLaunchApproval, MayChange, FreezesOnce, StateMoves, CarriesEvidence, ExecutionName;
  }

  lemma RequestRules(p: Projection, e: ControlEvent, r: ApprovalRequest)
    requires AllKeyed(p)
    ensures CheckApprovalRequested(p, e, r).None? <==> RequestAcceptable(p, e, r)
  {
  }

  lemma MoveRules(p: Projection, e: ControlEvent, r: ApprovalRequest)
    requires AllKeyed(p)
    requires e.action in {ApprovalDecided, ApprovalConsumed, ApprovalExpired, ApprovalCancelled}
    ensures CheckApprovalMoved(p, e, r).None? <==>
      if e.action.ApprovalDecided? then DecisionAcceptable(p, e, r)
      else if e.action.ApprovalConsumed? then ConsumptionAcceptable(p, e, r)
      else LapseAcceptable(p, e, r, if e.action.ApprovalExpired? then Expired else Withdrawn)
  {
    TablesAreSteps();
    hide ApprovalTransitions, ApprovalName;
  }

  lemma ResolutionRules(p: Projection, e: ControlEvent, r: ApprovalRequest, a: RunAttempt, n: int)
    requires AllKeyed(p)
    ensures CheckApprovalResolved(p, e, r, a, n).None? <==> ResolutionAcceptable(p, e, r, a, n)
  {
    hide ApprovalName;
  }

  lemma ScheduleRules(p: Projection, e: ControlEvent)
    requires AllKeyed(p) && (e.payload.SchedulePayload? || e.payload.ClaimPayload?)
    ensures Check(p, e).None? <==> Acceptable(p, e)
  {
    hide NextTick;
  }

  /** Over every log: an event with a new key is accepted exactly when it is acceptable as said. */
  lemma EventsAreAcceptedIff(log: seq<ControlEvent>, e: ControlEvent)
    requires e.idempotencyKey !in Fold(EMPTY, log).idempotency
    ensures Apply(Fold(EMPTY, log), e).Applied? <==> Acceptable(Fold(EMPTY, log), e)
  {
    EmptySound();
    FoldEvolves(EMPTY, log);
    hide Fold, AllKeyed;
    EveryRule(Fold(EMPTY, log), e);
  }

  lemma EveryRule(p: Projection, e: ControlEvent)
    requires AllKeyed(p)
    ensures Check(p, e).None? <==> Acceptable(p, e)
  {
    hide AllKeyed;
    match e.payload {
      case AttemptPayload(r) => AttemptRules(p, e, r);
      case ApprovalPayload(r) =>
        RequestRules(p, e, r);
        if e.action in {ApprovalDecided, ApprovalConsumed, ApprovalExpired, ApprovalCancelled} {
          MoveRules(p, e, r);
        }
      case ResolutionPayload(r, a, n) => ResolutionRules(p, e, r, a, n);
      case SchedulePayload(_) => ScheduleRules(p, e);
      case ClaimPayload(_, _) => ScheduleRules(p, e);
      case UndecodedPayload =>
      case _ => RegistryRules(p, e);
    }
    hide CheckAttemptCreated, CheckAttemptTransitioned, CheckApprovalRequested, CheckApprovalMoved, CheckApprovalResolved;
    hide CreationAcceptable, TransitionAcceptable, RequestAcceptable, DecisionAcceptable, ConsumptionAcceptable, LapseAcceptable,
      ResolutionAcceptable;
  }

  // ---------- What a refusal means ----------

  /** The event names another record than its payload, or the payload could not be of such an event. */
  ghost predicate Misshapen(p: Projection, e: ControlEvent) {
    match (e.action, e.payload)
    case (TaskCreated, TaskPayload(r)) => !Targets(e, TaskTarget, r.taskId) || r.createdAt < 0.0 || r.revision < 1
    case (TaskMerged, TaskPayload(r)) =>
      || !Targets(e, TaskTarget, r.taskId) || r.createdAt < 0.0 || r.revision < 1
      || r.mergedInto.None? || !Active(p, r.mergedInto.value)
    case (ContractCreated, ContractPayload(r)) => !Targets(e, ContractTarget, r.taskId) || r.createdAt < 0.0 || r.revision < 1
    case (AgentRegistered, AgentPayload(r)) => !Targets(e, AgentTarget, r.agentId) || r.updatedAt < 0.0 || r.revision < 1
    case (WorkspaceRegistered, WorkspacePayload(r)) =>
      !Targets(e, WorkspaceTarget, r.workspaceId) || r.updatedAt < 0.0 || r.revision < 1
    case (AttemptCreated, AttemptPayload(r)) => !Targets(e, AttemptTarget, r.attemptId) || !AttemptNumbers(r) || r.revision < 1
    case (AttemptTransitioned, AttemptPayload(r)) => !Targets(e, AttemptTarget, r.attemptId) || !AttemptNumbers(r) || r.revision < 1
    case (ApprovalResolved, ResolutionPayload(r, a, n)) =>
      || !Targets(e, ApprovalTarget, r.approvalId) || !ApprovalNumbers(r) || r.revision < 1 || !AttemptNumbers(a) || a.revision < 1
      || n < 1
    case (BudgetRegistered, BudgetPayload(r)) =>
      || !Targets(e, BudgetTarget, r.policyId) || r.limit <= 0.0 || r.updatedAt < 0.0 || r.revision < 1
      || (r.action in {"cancel", "block"} && r.basis !in {"provider_billed", "conservative_approved"})
    case (ScheduleClaimed, ClaimPayload(r, tick)) =>
      !Targets(e, ScheduleTarget, r.scheduleId) || !ScheduleNumbers(r) || r.revision < 1 || tick < 0.0
    case (_, ApprovalPayload(r)) =>
      || e.action !in {ApprovalRequested, ApprovalDecided, ApprovalConsumed, ApprovalExpired, ApprovalCancelled}
      || !Targets(e, ApprovalTarget, r.approvalId) || !ApprovalNumbers(r) || r.revision < 1
    case (_, SchedulePayload(r)) =>
      || e.action !in {ScheduleRegistered, ScheduleUpdated}
      || !Targets(e, ScheduleTarget, r.scheduleId) || !ScheduleNumbers(r) || r.revision < 1
    case _ => true
  }

  /** A record the event needs is absent, merged away or disabled. */
  ghost predicate Dangling(p: Projection, e: ControlEvent) {
    match e.payload
    case TaskPayload(r) => e.action.TaskMerged? && r.taskId !in p.tasks
    case ContractPayload(r) =>
      || !Active(p, r.taskId) || r.workspaceId !in p.workspaces
      || exists i :: 0 <= i < |r.budgetPolicyIds| && r.budgetPolicyIds[i] !in p.budgets
    case AttemptPayload(r) =>
      var a := r.identity;
      if e.action.AttemptTransitioned? then r.attemptId !in p.attempts
      else
        || !Active(p, a.taskId) || a.agentId !in p.agents || !p.agents[a.agentId].enabled
        || a.workspaceId !in p.workspaces || !p.workspaces[a.workspaceId].enabled
        || a.taskId !in p.contracts || p.contracts[a.taskId].workspaceId != a.workspaceId
    case ApprovalPayload(r) =>
      if e.action.ApprovalRequested? then
        r.scope.taskId !in p.tasks || (r.scope.attemptId.Some? && r.scope.attemptId.value !in p.attempts)
      else r.approvalId !in p.approvals
    case ResolutionPayload(r, _, _) =>
      || r.approvalId !in p.approvals
      || (p.approvals[r.approvalId].scope.attemptId.Some? && p.approvals[r.approvalId].scope.attemptId.value !in p.attempts)
    case SchedulePayload(r) => r.taskId !in p.tasks
    case ClaimPayload(r, _) => r.taskId !in p.tasks
    case _ => false
  }

  /** The event does not count on from the record it changes, or freezes a revision that is not current. */
  ghost predicate Miscounted(p: Projection, e: ControlEvent) {
    match e.payload
    case TaskPayload(r) =>
      || !Counts(e, if r.taskId in p.tasks then p.tasks[r.taskId].revision else 0, r.revision)
      || (e.action.TaskCreated? && r.taskId in p.tasks)
    case ContractPayload(r) => !Counts(e, if r.taskId in p.contracts then p.contracts[r.taskId].revision else 0, r.revision)
    case AgentPayload(r) => !Counts(e, if r.agentId in p.agents then p.agents[r.agentId].revision else 0, r.revision)
    case WorkspacePayload(r) =>
      !Counts(e, if r.workspaceId in p.workspaces then p.workspaces[r.workspaceId].revision else 0, r.revision)
    case AttemptPayload(r) =>
      var a := r.identity;
      || !Counts(e, if r.attemptId in p.attempts then p.attempts[r.attemptId].revision else 0, r.revision)
      || (e.action.AttemptCreated?
          && (|| r.attemptId in p.attempts || a.taskId !in p.contracts || p.contracts[a.taskId].revision != a.contractRevision
              || (a.agentId in p.agents && p.agents[a.agentId].revision != a.agentRevision)))
    case ApprovalPayload(r) =>
      || !Counts(e, if r.approvalId in p.approvals then p.approvals[r.approvalId].revision else 0, r.revision)
      || (e.action.ApprovalRequested? && r.approvalId in p.approvals)
    case ResolutionPayload(r, a, n) =>
      || !Counts(e, if r.approvalId in p.approvals then p.approvals[r.approvalId].revision else 0, r.revision)
      || (r.approvalId in p.approvals
          && var run := p.approvals[r.approvalId].scope.attemptId;
          !(run.Some? && run.value in p.attempts && n == p.attempts[run.value].revision && a.revision == n + 1))
    case BudgetPayload(r) => !Counts(e, if r.policyId in p.budgets then p.budgets[r.policyId].revision else 0, r.revision)
    case SchedulePayload(r) => !Counts(e, if r.scheduleId in p.schedules then p.schedules[r.scheduleId].revision else 0, r.revision)
    case ClaimPayload(r, _) => !Counts(e, if r.scheduleId in p.schedules then p.schedules[r.scheduleId].revision else 0, r.revision)
    case UndecodedPayload => false
  }

  /** Which error is raised says what is wrong; only an event that names its record and is expected may be an invalid transition. */
  ghost predicate Explained(p: Projection, e: ControlEvent, error: ControlError) {
    match error
    case Malformed => Misshapen(p, e)
    case NotFound => Dangling(p, e)
    case RevisionConflict => Miscounted(p, e)
    case InvalidTransition => !Acceptable(p, e) && !(e.action in {AgentRegistered, BudgetRegistered, ContractCreated, TaskCreated})
    case IdempotencyConflict => false
  }

  lemma RegistryErrors(p: Projection, e: ControlEvent)
    requires AllKeyed(p) && (e.payload.TaskPayload? || e.payload.ContractPayload? || e.payload.AgentPayload? || e.payload.WorkspacePayload?
                             || e.payload.BudgetPayload?) && Check(p, e).Some?
    ensures Explained(p, e, Check(p, e).value)
  {
    RegistryRules(p, e);
  }

  lemma AttemptErrors(p: Projection, e: ControlEvent)
    requires AllKeyed(p) && e.payload.AttemptPayload? && Check(p, e).Some?
    ensures Explained(p, e, Check(p, e).value)
  {
    EveryRule(p, e);
    hide FreezesOnce, StateMoves, CarriesEvidence, ExecutionName, TaskContract.RequiresLaunchApproval, CreationAcceptable,
      TransitionAcceptable;
  }

  lemma ApprovalErrors(p: Projection, e: ControlEvent)
    requires AllKeyed(p) && (e.payload.ApprovalPayload? || e.payload.ResolutionPayload?) && Check(p, e).Some?
    ensures Explained(p, e, Check(p, e).value)
  {
    EveryRule(p, e);
    hide ApprovalName, DecisionFits, ResolutionFits, OnlyControlChanges, RequestAcceptable, DecisionAcceptable, ConsumptionAcceptable,
      LapseAcceptable, ResolutionAcceptable, ApprovalTransitions, ControlTransitions;
  }

  lemma ScheduleErrors(p: Projection, e: ControlEvent)
    requires AllKeyed(p) && (e.payload.SchedulePayload? || e.payload.ClaimPayload?) && Check(p, e).Some?
    ensures Explained(p, e, Check(p, e).value)
  {
    EveryRule(p, e);
    hide ClaimFits, ClaimAcceptable, UpdateAcceptable, ScheduleMoves;
  }

  /** Over every log: the error with which an event is refused names a fault it has. */
  lemma RefusalsAreExplained(log: seq<ControlEvent>, e: ControlEvent)
    requires e.idempotencyKey !in Fold(EMPTY, log).idempotency && Apply(Fold(EMPTY, log), e).Refused?
    ensures Explained(Fold(EMPTY, log), e, Apply(Fold(EMPTY, log), e).error)
  {
    EmptySound();
    FoldEvolves(EMPTY, log);
    var p := Fold(EMPTY, log);
    hide Fold, Check, Explained, AllKeyed;
    match e.payload {
      case AttemptPayload(_) => AttemptErrors(p, e);
      case ApprovalPayload(_) => ApprovalErrors(p, e);
      case ResolutionPayload(_, _, _) => ApprovalErrors(p, e);
      case SchedulePayload(_) => ScheduleErrors(p, e);
      case ClaimPayload(_, _) => ScheduleErrors(p, e);
      case UndecodedPayload => UndecodedError(p, e);
      case _ => RegistryErrors(p, e);
    }
  }

  lemma UndecodedError(p: Projection, e: ControlEvent)
    requires e.payload.UndecodedPayload?
    ensures Check(p, e) == Some(Malformed) && Explained(p, e, Malformed)
  {
  }
}
