/**
 The store methods over the log. A method reads a snapshot, builds a draft from it, and commits the
 draft later under the exclusive lock; the clock and fresh event ids are inputs.
 */
module ControlStore {
  import opened Common
  import opened ControlRecords
  import opened ControlReducer
  import opened ControlHistory

  /** One store method call. `now` is its clock reading, the only input a retry may change. */
  datatype Call = Call(request: Request, expected: int, key: string, actor: Actor, now: real)

  datatype Draft = Draft(
    action: Action, targetKind: TargetKind, targetId: Id, expected: int, payload: Payload,
    prior: Option<string>, next: Option<string>, operation: Operation)

  datatype Meta = Meta(eventId: Id, occurredAt: real)

  type Built = Result<Draft, ControlError>

  // ---------- What a request is about ----------

  function ActionOf(r: Request): Action {
    match r
    case CreateTask(_, _) => TaskCreated
    case MergeTask(_, _) => TaskMerged
    case RegisterWorkspace(_, _, _, _) => WorkspaceRegistered
    case RegisterAgent(_, _, _) => AgentRegistered
    case RegisterBudget(_, _, _, _, _, _, _) => BudgetRegistered
    case CreateContract(_, _, _, _, _, _) => ContractCreated
    case CreateAttempt(_, _, _, _, _, _) => AttemptCreated
    case TransitionAttempt(_, _) => AttemptTransitioned
    case RequestApproval(_, _) => ApprovalRequested
    case ResolveApproval(_, _, _) => ApprovalResolved
    case DecideApproval(_, _, _) => ApprovalDecided
    case ConsumeApproval(_) => ApprovalConsumed
    case ExpireApproval(_) => ApprovalExpired
    case RegisterSchedule(_, _, _, _, _, _) => ScheduleRegistered
    case UpdateSchedule(_, _, _) => ScheduleUpdated
    case ClaimSchedule(_) => ScheduleClaimed
  }

  function TargetOf(r: Request): (TargetKind, Id) {
    match r
    case CreateTask(id, _) => (TaskTarget, id)
    case MergeTask(id, _) => (TaskTarget, id)
    case RegisterWorkspace(id, _, _, _) => (WorkspaceTarget, id)
    case RegisterAgent(id, _, _) => (AgentTarget, id)
    case RegisterBudget(id, _, _, _, _, _, _) => (BudgetTarget, id)
    case CreateContract(id, _, _, _, _, _) => (ContractTarget, id)
    case CreateAttempt(id, _, _, _, _, _) => (AttemptTarget, id)
    case TransitionAttempt(id, _) => (AttemptTarget, id)
    case RequestApproval(id, _) => (ApprovalTarget, id)
    case ResolveApproval(id, _, _) => (ApprovalTarget, id)
    case DecideApproval(id, _, _) => (ApprovalTarget, id)
    case ConsumeApproval(id) => (ApprovalTarget, id)
    case ExpireApproval(id) => (ApprovalTarget, id)
    case RegisterSchedule(id, _, _, _, _, _) => (ScheduleTarget, id)
    case UpdateSchedule(id, _, _) => (ScheduleTarget, id)
    case ClaimSchedule(id) => (ScheduleTarget, id)
  }

  /** The creating methods always expect revision 0. */
  function ExpectedOf(c: Call): int {
    if c.request.CreateTask? || c.request.CreateAttempt? || c.request.RequestApproval? || c.request.RegisterSchedule?
    then 0 else c.expected
  }

  // ---------- Building a draft from a snapshot ----------

  function DraftOf(c: Call, payload: Payload, prior: Option<string>, next: Option<string>, operation: Operation): Built {
    Success(Draft(ActionOf(c.request), TargetOf(c.request).0, TargetOf(c.request).1, ExpectedOf(c), payload, prior, next, operation))
  }

  function Plain(c: Call, payload: Payload): Built { DraftOf(c, payload, None, None, Inputs(c.request)) }

  function Or<T>(change: Option<T>, current: Option<T>): Option<T> { if change.Some? then change else current }

  function OrElse<T>(change: Option<T>, current: T): T { if change.Some? then change.value else current }

  function Overlay(change: ProcessProof, current: ProcessProof): ProcessProof {
    ProcessProof(
      Or(change.pid, current.pid), Or(change.processGroupId, current.processGroupId), Or(change.birthTime, current.birthTime),
      if change.executable.Some? then StripOptional(change.executable) else current.executable,
      if change.cwd.Some? then StripOptional(change.cwd) else current.cwd, Or(change.nonceHash, current.nonceHash),
      Or(change.startedAt, current.startedAt))
  }

  function Transitioned(a: RunAttempt, ch: AttemptChanges, now: real): RunAttempt {
    var execution := OrElse(ch.execution, a.execution);
    RunAttempt(
      a.attemptId, a.identity, execution, OrElse(ch.outcome, a.outcome), OrElse(ch.control, a.control),
      Or(ch.manifestId, a.manifestId), Overlay(ch.proof, a.proof),
      if ch.endedAt.Some? then ch.endedAt else if Terminal(execution) then Some(now) else a.endedAt,
      Or(ch.exitCode, a.exitCode), a.revision + 1, if ch.reason.Some? then StripOptional(ch.reason) else a.reason)
  }

  function BuildMerge(p: Projection, c: Call, id: Id, into: Id): Built {
    if id == into then Failure(InvalidTransition)
    else if id !in p.tasks then Failure(NotFound)
    else
      var r := p.tasks[id].(revision := p.tasks[id].revision + 1, mergedInto := Some(into));
      DraftOf(c, TaskPayload(r), Some("active"), Some("merged"), Inputs(c.request))
  }

  function BuildWorkspace(p: Projection, c: Call, id: Id, root: string, dir: Option<string>, enabled: bool): Built {
    var current := if id in p.workspaces then p.workspaces[id].revision else 0;
    if current != c.expected then Failure(RevisionConflict)
    else Plain(c, WorkspacePayload(Workspace(id, Strip(root), StripOptional(dir), enabled, current + 1, c.now)))
  }

  function CleanProfile(profile: AgentProfile): AgentProfile {
    profile.(displayName := Strip(profile.displayName), capabilities := StripAll(profile.capabilities))
  }

  function BuildAgent(p: Projection, c: Call, id: Id, profile: AgentProfile, enabled: bool): Built {
    var current := if id in p.agents then p.agents[id].revision else 0;
    if current != c.expected then Failure(RevisionConflict)
    else Plain(c, AgentPayload(AgentSpec(id, CleanProfile(profile), enabled, current + 1, c.now)))
  }

  function BuildBudget(p: Projection, c: Call): Built
    requires c.request.RegisterBudget?
  {
    var q := c.request;
    var current := if q.policyId in p.budgets then p.budgets[q.policyId].revision else 0;
    var r := BudgetPolicy(q.policyId, q.scope, q.metric, q.limit, q.basis, q.budgetAction, q.enabled, current + 1, c.now);
    if current != c.expected then Failure(RevisionConflict)
    else if !r.BasisFits() then Failure(Malformed)
    else Plain(c, BudgetPayload(r))
  }

  function BuildAttempt(p: Projection, c: Call): Built
    requires c.request.CreateAttempt?
  {
    var q := c.request;
    if q.taskId !in p.contracts || p.contracts[q.taskId].revision != q.contractRevision then Failure(RevisionConflict)
    else if q.agentId !in p.agents || !p.agents[q.agentId].enabled then Failure(NotFound)
    else
      var required := p.contracts[q.taskId].RequiresLaunchApproval();
      var control := OrElse(q.initialControl, if required then AwaitingApproval else Ready);
      var agentRevision := p.agents[q.agentId].revision;
      if !control.Ready? && !control.AwaitingApproval? then Failure(Malformed)
      else if required && !control.AwaitingApproval? then Failure(InvalidTransition)
      else
        var r := RunAttempt(
          q.attemptId, AttemptIdentity(q.taskId, q.contractRevision, q.agentId, agentRevision, q.workspaceId),
          Pending, Unknown, control, None, NO_PROOF, None, None, 1, None);
        DraftOf(c, AttemptPayload(r), None, Some("pending"),
                AttemptInputs(q.(initialControl := None), Some(agentRevision), Some(control)))
  }

  function BuildTransition(p: Projection, c: Call, id: Id, changes: AttemptChanges): Built {
    if id !in p.attempts then Failure(NotFound)
    else
      var r := Transitioned(p.attempts[id], changes, c.now);
      DraftOf(c, AttemptPayload(r), Some(ExecutionName(p.attempts[id].execution)), Some(ExecutionName(r.execution)), Inputs(c.request))
  }

  function BuildApprovalRequest(c: Call, id: Id, scope: ApprovalScope): Built {
    if scope.expiresAt <= c.now then Failure(Malformed)
    else
      var r := ApprovalRequest(id, scope.(requestedBy := Strip(scope.requestedBy)), Undecided, None, None, None, 1);
      DraftOf(c, ApprovalPayload(r), None, Some("pending"), Inputs(c.request))
  }

  function BuildResolution(p: Projection, c: Call, id: Id, approve: bool, decider: string): Built {
    if id !in p.approvals then Failure(NotFound)
    else
      var current := p.approvals[id];
      if !current.state.Undecided? || c.now >= current.scope.expiresAt || current.scope.attemptId.None?
         || current.scope.requestedAction != "launch"
      then Failure(InvalidTransition)
      else if current.scope.attemptId.value !in p.attempts then Failure(NotFound)
      else
        var a := p.attempts[current.scope.attemptId.value];
        if a.identity.taskId != current.scope.taskId || !a.execution.Pending? || !a.control.AwaitingApproval?
        then Failure(InvalidTransition)
        else if !ValidText(Strip(decider), 120) then Failure(Malformed)
        else
          var state := if approve then Consumed else Rejected;
          var r := current.(state := state, decidedBy := Some(Strip(decider)), decidedAt := Some(c.now),
                            consumedAt := if approve then Some(c.now) else None, revision := current.revision + 1);
          var released := a.(control := if approve then Ready else PolicyHold, revision := a.revision + 1,
                             reason := Some(if approve then "single-use approval consumed" else "launch approval rejected"));
          DraftOf(c, ResolutionPayload(r, released, a.revision), Some(ApprovalName(current.state)), Some(ApprovalName(state)),
                  Inputs(c.request))
  }

  function Moved(c: Call, current: ApprovalRequest, r: ApprovalRequest): Built {
    DraftOf(c, ApprovalPayload(r), Some(ApprovalName(current.state)), Some(ApprovalName(r.state)), Inputs(c.request))
  }

  function BuildDecision(p: Projection, c: Call, id: Id, approve: bool, decider: string): Built {
    if id !in p.approvals then Failure(NotFound)
    else
      var current := p.approvals[id];
      if !current.state.Undecided? || c.now >= current.scope.expiresAt then Failure(InvalidTransition)
      else if !ValidText(Strip(decider), 120) then Failure(Malformed)
      else Moved(c, current, current.(state := if approve then Approved else Rejected, decidedBy := Some(Strip(decider)),
                                      decidedAt := Some(c.now), revision := current.revision + 1))
  }

  function BuildConsumption(p: Projection, c: Call, id: Id): Built {
    if id !in p.approvals then Failure(NotFound)
    else
      var current := p.approvals[id];
      if !current.state.Approved? || c.now >= current.scope.expiresAt then Failure(InvalidTransition)
      else Moved(c, current, current.(state := Consumed, consumedAt := Some(c.now), revision := current.revision + 1))
  }

  function BuildExpiry(p: Projection, c: Call, id: Id): Built {
    if id !in p.approvals then Failure(NotFound)
    else
      var current := p.approvals[id];
      if !(current.state.Undecided? || current.state.Approved?) || c.now < current.scope.expiresAt then Failure(InvalidTransition)
      else Moved(c, current, current.(state := Expired, revision := current.revision + 1))
  }

  function BuildScheduleUpdate(p: Projection, c: Call, id: Id, enable: Option<bool>, moveTo: Option<real>): Built {
    if id !in p.schedules then Failure(NotFound)
    else
      var s := p.schedules[id];
      var r := s.(enabled := OrElse(enable, s.enabled), nextRunAt := Or(moveTo, s.nextRunAt), revision := s.revision + 1,
                  updatedAt := c.now);
      if !r.Decodable() then Failure(Malformed) else Plain(c, SchedulePayload(r))
  }

  /** `due_schedules` lists a schedule under exactly this condition. */
  predicate Due(s: ScheduleSpec, now: real) { s.enabled && s.nextRunAt.Some? && s.nextRunAt.value <= now }

  function BuildClaim(p: Projection, c: Call, id: Id): Built {
    if id !in p.schedules then Failure(NotFound)
    else
      var s := p.schedules[id];
      if !Due(s, c.now) then Failure(InvalidTransition)
      else if s.cadence.Fixed? && (s.interval.None? || s.interval.value < 1.0) then Failure(Malformed)
      else
        var tick := s.nextRunAt.value;
        var following := if s.cadence.OneShot? then None else Some(NextTick(tick, c.now, s.interval.value));
        var r := s.(nextRunAt := following, enabled := s.cadence.Fixed?, claimCount := s.claimCount + 1,
                    lastClaimedAt := Some(c.now), revision := s.revision + 1, updatedAt := c.now);
        DraftOf(c, ClaimPayload(r, tick), Some("due"), Some(if r.enabled then "scheduled" else "disabled"),
                ClaimInputs(id, Some(tick)))
  }

  function Build(p: Projection, c: Call): Built {
    match c.request
    case CreateTask(id, origin) => Plain(c, TaskPayload(TaskRecord(id, origin, c.now, 1, None)))
    case MergeTask(id, into) => BuildMerge(p, c, id, into)
    case RegisterWorkspace(id, root, dir, enabled) => BuildWorkspace(p, c, id, root, dir, enabled)
    case RegisterAgent(id, profile, enabled) => BuildAgent(p, c, id, profile, enabled)
    case RegisterBudget(_, _, _, _, _, _, _) => BuildBudget(p, c)
    case CreateContract(id, objective, workspace, envelope, policies, checks) =>
      Plain(c, ContractPayload(TaskContract(id, c.expected + 1, Strip(objective), workspace, envelope, StripAll(policies), StripAll(checks), c.now)))
    case CreateAttempt(_, _, _, _, _, _) => BuildAttempt(p, c)
    case TransitionAttempt(id, changes) => BuildTransition(p, c, id, changes)
    case RequestApproval(id, scope) => BuildApprovalRequest(c, id, scope)
    case ResolveApproval(id, approve, decider) => BuildResolution(p, c, id, approve, decider)
    case DecideApproval(id, approve, decider) => BuildDecision(p, c, id, approve, decider)
    case ConsumeApproval(id) => BuildConsumption(p, c, id)
    case ExpireApproval(id) => BuildExpiry(p, c, id)
    case RegisterSchedule(id, task, cadence, interval, at, enabled) =>
      Plain(c, SchedulePayload(ScheduleSpec(id, task, cadence, interval, Some(at), enabled, 0, None, 1, c.now)))
    case UpdateSchedule(id, enable, moveTo) => BuildScheduleUpdate(p, c, id, enable, moveTo)
    case ClaimSchedule(id) => BuildClaim(p, c, id)
  }

  // ---------- Committing, retrying ----------

  datatype CommitResult = Committed(event: ControlEvent) | Replayed(first: ControlEvent) | Raised(error: ControlError)

  /** The actor as an event stores it. */
  function CleanActor(actor: Actor): Actor { actor.(id := Strip(actor.id)) }

  /** The event stores the cleaned actor; its operation digest is taken over the actor as the caller wrote it. */
  function EventOf(d: Draft, c: Call, meta: Meta): ControlEvent {
    ControlEvent(
      meta.eventId, meta.occurredAt, CleanActor(c.actor), d.action, d.targetKind, d.targetId, d.expected, d.prior, d.next, c.key,
      Intent(d.action, d.targetKind, d.targetId, d.expected, c.actor, d.prior, d.next, d.operation), d.payload)
  }

  predicate ValidActor(actor: Actor) { ValidText(Strip(actor.id), 120) }

  /** `_mutate`: the outcome of committing a draft at projection p. */
  function Commit(p: Projection, d: Draft, c: Call, meta: Meta): CommitResult {
    if d.expected < 0 then Raised(Malformed)
    else
      var e := EventOf(d, c, meta);
      if c.key in p.idempotency then
        if p.idempotency[c.key].operationDigest == e.operationDigest then Replayed(p.idempotency[c.key])
        else Raised(IdempotencyConflict)
      else if !ValidActor(c.actor) then Raised(Malformed)
      else match Apply(p, e)
        case Applied(_) => Committed(e)
        case Refused(error) => Raised(error)
        case Duplicate => Replayed(e)
  }

  /** The operation a retry presents; two methods recover parts of it from the committed record. */
  function RetryOperation(r: Request, first: ControlEvent): Operation {
    match r
    case CreateAttempt(_, _, _, _, _, initial) =>
      var known := first.action.AttemptCreated? && first.payload.AttemptPayload?;
      AttemptInputs(r.(initialControl := None),
                    if known then Some(first.payload.attempt.identity.agentRevision) else None,
                    if initial.None? && known then Some(first.payload.attempt.control) else initial)
    case ClaimSchedule(id) => ClaimInputs(id, if first.payload.ClaimPayload? then Some(first.payload.claimedFor) else None)
    case _ => Inputs(r)
  }

  datatype Lookup = Fresh | Found(first: ControlEvent) | Conflicting

  /** `_retry_projection`. */
  function Retry(p: Projection, c: Call): Lookup {
    if c.key !in p.idempotency then Fresh
    else
      var e := p.idempotency[c.key];
      if e.action != ActionOf(c.request) || e.targetId != TargetOf(c.request).1 || e.expectedRevision != ExpectedOf(c) || e.actor != c.actor
      then Conflicting
      else if e.operationDigest == Intent(e.action, e.targetKind, e.targetId, e.expectedRevision, e.actor, e.priorState, e.nextState,
                                          RetryOperation(c.request, e))
      then Found(e) else Conflicting
  }

  /** The whole call as one step at projection p. */
  function Atomic(p: Projection, c: Call, meta: Meta): CommitResult {
    match Retry(p, c)
    case Found(e) => Replayed(e)
    case Conflicting => Raised(IdempotencyConflict)
    case Fresh =>
      match Build(p, c)
      case Failure(error) => Raised(error)
      case Success(d) => Commit(p, d, c, meta)
  }

  // ---------- Two-phase calls are atomic ----------

  /** A draft built from q whose event passes every check at the later projection p. */
  ghost predicate PassesLater(q: Projection, p: Projection, c: Call, d: Draft, e: ControlEvent) {
    && AllKeyed(q) && AllKeyed(p) && RecordsLater(q, p)
    && Build(q, c) == Success(d)
    && e.action == d.action && e.payload == d.payload && e.expectedRevision == d.expected
    && Check(p, e).None?
  }

  lemma MergeRebuilds(q: Projection, p: Projection, c: Call, id: Id, into: Id, d: Draft, e: ControlEvent)
    requires Keyed(q.tasks, TASK_ID, TASK_REV) && Later(q.tasks, p.tasks, TASK_REV)
    requires BuildMerge(q, c, id, into) == Success(d) && CheckTaskMerged(p, e, d.payload.task).None?
    ensures BuildMerge(p, c, id, into) == Success(d)
  {
  }

  lemma WorkspaceRebuilds(q: Projection, p: Projection, c: Call, id: Id, root: string, dir: Option<string>, enabled: bool, d: Draft, e: ControlEvent)
    requires Keyed(q.workspaces, WORKSPACE_ID, WORKSPACE_REV) && Later(q.workspaces, p.workspaces, WORKSPACE_REV)
    requires BuildWorkspace(q, c, id, root, dir, enabled) == Success(d) && CheckWorkspaceRegistered(p, e, d.payload.workspace).None?
    ensures BuildWorkspace(p, c, id, root, dir, enabled) == Success(d)
  {
  }

  lemma AgentRebuilds(q: Projection, p: Projection, c: Call, id: Id, profile: AgentProfile, enabled: bool, d: Draft, e: ControlEvent)
    requires Keyed(q.agents, AGENT_ID, AGENT_REV) && Later(q.agents, p.agents, AGENT_REV)
    requires BuildAgent(q, c, id, profile, enabled) == Success(d) && CheckAgentRegistered(p, e, d.payload.agent).None?
    ensures BuildAgent(p, c, id, profile, enabled) == Success(d)
  {
  }

  lemma BudgetRebuilds(q: Projection, p: Projection, c: Call, d: Draft, e: ControlEvent)
    requires Keyed(q.budgets, BUDGET_ID, BUDGET_REV) && Later(q.budgets, p.budgets, BUDGET_REV)
    requires c.request.RegisterBudget?
    requires BuildBudget(q, c) == Success(d) && CheckBudgetRegistered(p, e, d.payload.budget).None?
    ensures BuildBudget(p, c) == Success(d)
  {
  }

  lemma AttemptRebuilds(q: Projection, p: Projection, c: Call, d: Draft, e: ControlEvent)
    requires Keyed(q.contracts, CONTRACT_ID, CONTRACT_REV) && Later(q.contracts, p.contracts, CONTRACT_REV)
    requires Keyed(q.agents, AGENT_ID, AGENT_REV) && Later(q.agents, p.agents, AGENT_REV)
    requires c.request.CreateAttempt?
    requires BuildAttempt(q, c) == Success(d) && CheckAttemptCreated(p, e, d.payload.attempt).None?
    ensures BuildAttempt(p, c) == Success(d)
  {
  }

  lemma TransitionRebuilds(q: Projection, p: Projection, c: Call, id: Id, changes: AttemptChanges, d: Draft, e: ControlEvent)
    requires Keyed(q.attempts, ATTEMPT_ID, ATTEMPT_REV) && Later(q.attempts, p.attempts, ATTEMPT_REV)
    requires BuildTransition(q, c, id, changes) == Success(d) && CheckAttemptTransitioned(p, e, d.payload.attempt).None?
    ensures BuildTransition(p, c, id, changes) == Success(d)
  {
  }

  lemma ResolutionRebuilds(q: Projection, p: Projection, c: Call, id: Id, approve: bool, decider: string, d: Draft, e: ControlEvent)
    requires Keyed(q.approvals, APPROVAL_ID, APPROVAL_REV) && Later(q.approvals, p.approvals, APPROVAL_REV)
    requires Keyed(q.attempts, ATTEMPT_ID, ATTEMPT_REV) && Later(q.attempts, p.attempts, ATTEMPT_REV)
    requires BuildResolution(q, c, id, approve, decider) == Success(d) && CheckApprovalResolved(p, e, d.payload.resolved, d.payload.released, d.payload.expectedAttemptRevision).None?
    ensures BuildResolution(p, c, id, approve, decider) == Success(d)
  {
    assert p.approvals[id] == q.approvals[id];
    var aid := q.approvals[id].scope.attemptId.value;
    assert p.attempts[aid] == q.attempts[aid];
    hide CheckApprovalResolved, Later, Keyed;
  }

  lemma DecisionRebuilds(q: Projection, p: Projection, c: Call, id: Id, approve: bool, decider: string, d: Draft, e: ControlEvent)
    requires Keyed(q.approvals, APPROVAL_ID, APPROVAL_REV) && Later(q.approvals, p.approvals, APPROVAL_REV)
    requires BuildDecision(q, c, id, approve, decider) == Success(d) && CheckApprovalMoved(p, e, d.payload.approval).None?
    ensures BuildDecision(p, c, id, approve, decider) == Success(d)
  {
  }

  lemma ConsumptionRebuilds(q: Projection, p: Projection, c: Call, id: Id, d: Draft, e: ControlEvent)
    requires Keyed(q.approvals, APPROVAL_ID, APPROVAL_REV) && Later(q.approvals, p.approvals, APPROVAL_REV)
    requires BuildConsumption(q, c, id) == Success(d) && CheckApprovalMoved(p, e, d.payload.approval).None?
    ensures BuildConsumption(p, c, id) == Success(d)
  {
  }

  lemma ExpiryRebuilds(q: Projection, p: Projection, c: Call, id: Id, d: Draft, e: ControlEvent)
    requires Keyed(q.approvals, APPROVAL_ID, APPROVAL_REV) && Later(q.approvals, p.approvals, APPROVAL_REV)
    requires BuildExpiry(q, c, id) == Success(d) && CheckApprovalMoved(p, e, d.payload.approval).None?
    ensures BuildExpiry(p, c, id) == Success(d)
  {
  }

  lemma ScheduleUpdateRebuilds(q: Projection, p: Projection, c: Call, id: Id, enable: Option<bool>, moveTo: Option<real>, d: Draft, e: ControlEvent)
    requires Keyed(q.schedules, SCHEDULE_ID, SCHEDULE_REV) && Later(q.schedules, p.schedules, SCHEDULE_REV)
    requires BuildScheduleUpdate(q, c, id, enable, moveTo) == Success(d) && CheckSchedule(p, e, d.payload.schedule).None?
    ensures BuildScheduleUpdate(p, c, id, enable, moveTo) == Success(d)
  {
    hide ScheduleSpec.Decodable;
    assert p.schedules[id] == q.schedules[id];
  }

  lemma ClaimRebuilds(q: Projection, p: Projection, c: Call, id: Id, d: Draft, e: ControlEvent)
    requires Keyed(q.schedules, SCHEDULE_ID, SCHEDULE_REV) && Later(q.schedules, p.schedules, SCHEDULE_REV)
    requires BuildClaim(q, c, id) == Success(d) && CheckScheduleClaimed(p, e, d.payload.claimed, d.payload.claimedFor).None?
    ensures BuildClaim(p, c, id) == Success(d)
  {
    hide ScheduleSpec.Decodable, ClaimFits, NextTick;
    assert p.schedules[id] == q.schedules[id];
  }

  /** The action and the shape of the payload follow the request. */
  predicate PayloadFits(r: Request, payload: Payload) {
    match r
    case CreateTask(_, _) => payload.TaskPayload?
    case MergeTask(_, _) => payload.TaskPayload?
    case RegisterWorkspace(_, _, _, _) => payload.WorkspacePayload?
    case RegisterAgent(_, _, _) => payload.AgentPayload?
    case RegisterBudget(_, _, _, _, _, _, _) => payload.BudgetPayload?
    case CreateContract(_, _, _, _, _, _) => payload.ContractPayload?
    case CreateAttempt(_, _, _, _, _, _) => payload.AttemptPayload?
    case TransitionAttempt(_, _) => payload.AttemptPayload?
    case RequestApproval(_, _) => payload.ApprovalPayload?
    case ResolveApproval(_, _, _) => payload.ResolutionPayload?
    case DecideApproval(_, _, _) => payload.ApprovalPayload?
    case ConsumeApproval(_) => payload.ApprovalPayload?
    case ExpireApproval(_) => payload.ApprovalPayload?
    case RegisterSchedule(_, _, _, _, _, _) => payload.SchedulePayload?
    case UpdateSchedule(_, _, _) => payload.SchedulePayload?
    case ClaimSchedule(_) => payload.ClaimPayload?
  }

  lemma DraftKind(q: Projection, c: Call, d: Draft)
    requires Build(q, c) == Success(d)
    ensures d.action == ActionOf(c.request) && PayloadFits(c.request, d.payload)
  {
    hide NextTick, Transitioned, TaskContract.RequiresLaunchApproval, ScheduleSpec.Decodable;
  }

  lemma CheckedDraftRebuilds(q: Projection, p: Projection, c: Call, d: Draft, e: ControlEvent)
    requires PassesLater(q, p, c, d, e)
    ensures Build(p, c) == Success(d)
  {
    hide Keyed, Later, Plain;
    hide CheckTaskCreated, CheckTaskMerged, CheckContractCreated, CheckAgentRegistered, CheckWorkspaceRegistered,
      CheckAttemptCreated, CheckAttemptTransitioned, CheckApprovalRequested, CheckApprovalResolved, CheckApprovalMoved,
      CheckBudgetRegistered, CheckSchedule, CheckScheduleClaimed;
    hide BuildMerge, BuildWorkspace, BuildAgent, BuildBudget, BuildAttempt, BuildTransition, BuildApprovalRequest,
      BuildResolution, BuildDecision, BuildConsumption, BuildExpiry, BuildScheduleUpdate, BuildClaim;
    DraftKind(q, c, d);
    match c.request {
      case MergeTask(id, into) => MergeRebuilds(q, p, c, id, into, d, e);
      case RegisterWorkspace(id, root, dir, enabled) => WorkspaceRebuilds(q, p, c, id, root, dir, enabled, d, e);
      case RegisterAgent(id, profile, enabled) => AgentRebuilds(q, p, c, id, profile, enabled, d, e);
      case RegisterBudget(_, _, _, _, _, _, _) => BudgetRebuilds(q, p, c, d, e);
      case CreateAttempt(_, _, _, _, _, _) => AttemptRebuilds(q, p, c, d, e);
      case TransitionAttempt(id, changes) => TransitionRebuilds(q, p, c, id, changes, d, e);
      case ResolveApproval(id, approve, decider) => ResolutionRebuilds(q, p, c, id, approve, decider, d, e);
      case DecideApproval(id, approve, decider) => DecisionRebuilds(q, p, c, id, approve, decider, d, e);
      case ConsumeApproval(id) => ConsumptionRebuilds(q, p, c, id, d, e);
      case ExpireApproval(id) => ExpiryRebuilds(q, p, c, id, d, e);
      case UpdateSchedule(id, enable, moveTo) => ScheduleUpdateRebuilds(q, p, c, id, enable, moveTo, d, e);
      case ClaimSchedule(id) => ClaimRebuilds(q, p, c, id, d, e);
      case _ => SnapshotFree(q, p, c);
    }
  }

  /** The remaining methods build their record from the call alone. */
  lemma SnapshotFree(q: Projection, p: Projection, c: Call)
    requires c.request.CreateTask? || c.request.CreateContract? || c.request.RequestApproval? || c.request.RegisterSchedule?
    ensures Build(p, c) == Build(q, c)
  {
  }

  /** A committed two-phase call is the same call done in one step at the moment of its commit. */
  lemma TwoPhaseIsAtomic(q: Projection, p: Projection, c: Call, d: Draft, meta: Meta)
    requires Sound(q) && Sound(p) && Evolves(q, p)
    requires Build(q, c) == Success(d) && Commit(p, d, c, meta).Committed?
    ensures Build(p, c) == Success(d) && Atomic(p, c, meta) == Commit(p, d, c, meta)
  {
    hide Check, Build, RecordsLater, AllKeyed, Indexed, IndexLater;
    CheckedDraftRebuilds(q, p, c, d, EventOf(d, c, meta));
  }

  // ---------- Exactly once ----------

  /** The retry lookup takes this event for the outcome of this call. */
  predicate Recognised(c: Call, e: ControlEvent) {
    && e.action == ActionOf(c.request) && e.targetId == TargetOf(c.request).1 && e.expectedRevision == ExpectedOf(c)
    && e.operationDigest.operation == RetryOperation(c.request, e)
  }

  lemma AttemptDraftIsRecognised(p: Projection, c: Call, d: Draft, meta: Meta)
    requires Build(p, c) == Success(d) && (c.request.CreateAttempt? || c.request.TransitionAttempt?)
    ensures Recognised(c, EventOf(d, c, meta))
  {
    hide NextTick, Transitioned, TaskContract.RequiresLaunchApproval, ScheduleSpec.Decodable;
  }

  lemma ApprovalDraftIsRecognised(p: Projection, c: Call, d: Draft, meta: Meta)
    requires Build(p, c) == Success(d) && (c.request.RequestApproval? || c.request.ResolveApproval? || c.request.DecideApproval?
              || c.request.ConsumeApproval? || c.request.ExpireApproval?)
    ensures Recognised(c, EventOf(d, c, meta))
  {
    hide NextTick, Transitioned, TaskContract.RequiresLaunchApproval, ScheduleSpec.Decodable;
  }

  lemma ScheduleDraftIsRecognised(p: Projection, c: Call, d: Draft, meta: Meta)
    requires Build(p, c) == Success(d) && (c.request.RegisterSchedule? || c.request.UpdateSchedule? || c.request.ClaimSchedule?)
    ensures Recognised(c, EventOf(d, c, meta))
  {
    hide NextTick, Transitioned, TaskContract.RequiresLaunchApproval, ScheduleSpec.Decodable;
  }

  lemma OtherDraftIsRecognised(p: Projection, c: Call, d: Draft, meta: Meta)
    requires Build(p, c) == Success(d) && (c.request.CreateTask? || c.request.MergeTask? || c.request.RegisterWorkspace? || c.request.RegisterAgent?
              || c.request.RegisterBudget? || c.request.CreateContract?)
    ensures Recognised(c, EventOf(d, c, meta))
  {
    hide NextTick, Transitioned, TaskContract.RequiresLaunchApproval, ScheduleSpec.Decodable;
  }

  lemma BuiltDraftIsRecognised(p: Projection, c: Call, d: Draft, meta: Meta)
    requires Build(p, c) == Success(d)
    ensures Recognised(c, EventOf(d, c, meta))
  {
    hide Build, Recognised;
    if c.request.CreateAttempt? || c.request.TransitionAttempt? {
      AttemptDraftIsRecognised(p, c, d, meta);
    } else if c.request.RequestApproval? || c.request.ResolveApproval? || c.request.DecideApproval?
              || c.request.ConsumeApproval? || c.request.ExpireApproval? {
      ApprovalDraftIsRecognised(p, c, d, meta);
    } else if c.request.RegisterSchedule? || c.request.UpdateSchedule? || c.request.ClaimSchedule? {
      ScheduleDraftIsRecognised(p, c, d, meta);
    } else {
      OtherDraftIsRecognised(p, c, d, meta);
    }
  }

  /**
   Once a call committed, repeating it with equal inputs returns its first event, whatever happened since, exactly
   when the caller wrote the actor the way it is stored; otherwise the repetition is refused. Neither appends.
   */
  lemma RetryReturnsFirst(q: Projection, p: Projection, r: Projection, c: Call, d: Draft, meta: Meta, again: Call, meta': Meta)
    requires Build(q, c) == Success(d) && Commit(p, d, c, meta).Committed?
    requires Evolves(After(p, EventOf(d, c, meta)), r)
    requires again == c.(now := again.now)
    ensures Retry(r, again) == if CleanActor(c.actor) == c.actor then Found(EventOf(d, c, meta)) else Conflicting
    ensures Atomic(r, again, meta') ==
            if CleanActor(c.actor) == c.actor then Replayed(EventOf(d, c, meta)) else Raised(IdempotencyConflict)
  {
    var e := EventOf(d, c, meta);
    BuiltDraftIsRecognised(q, c, d, meta);
    AppliedRecords(p, e);
    hide Check, Build, RecordsLater, Store, After, Apply, RetryOperation, CleanActor, ValidActor;
    assert r.idempotency[c.key] == e;
  }

  /** The same request again. One to create an attempt may name the control state the attempt got, or none. */
  predicate AsksTheSame(first: Request, again: Request, e: ControlEvent) {
    if first.CreateAttempt? && again.CreateAttempt? then
      && again.(initialControl := first.initialControl) == first
      && (again.initialControl.Some? ==> e.payload.AttemptPayload? && again.initialControl.value == e.payload.attempt.control)
    else again == first
  }

  lemma ActionsTellRequests(a: Request, b: Request)
    requires ActionOf(a) == ActionOf(b)
    ensures a.CreateAttempt? <==> b.CreateAttempt?
    ensures a.ClaimSchedule? <==> b.ClaimSchedule?
  {
  }

  lemma CreationRecordsControl(p: Projection, c: Call, d: Draft)
    requires Build(p, c) == Success(d) && c.request.CreateAttempt?
    ensures d.payload.AttemptPayload? && d.operation.AttemptInputs? && d.operation.startsAs == Some(d.payload.attempt.control)
    ensures c.request.initialControl.Some? ==> c.request.initialControl.value == d.payload.attempt.control
  {
    hide TaskContract.RequiresLaunchApproval;
  }

  lemma SameOperationIff(p: Projection, c: Call, d: Draft, meta: Meta, again: Request)
    requires Build(p, c) == Success(d) && ActionOf(again) == ActionOf(c.request) && TargetOf(again).1 == TargetOf(c.request).1
    ensures RetryOperation(again, EventOf(d, c, meta)) == d.operation <==> AsksTheSame(c.request, again, EventOf(d, c, meta))
  {
    BuiltDraftIsRecognised(p, c, d, meta);
    DraftKind(p, c, d);
    ActionsTellRequests(c.request, again);
    if c.request.CreateAttempt? {
      CreationRecordsControl(p, c, d);
    }
    hide Build;
  }

  /**
   The retry lookup, for any call with the key of a committed one and at any later projection: it finds the event
   exactly when the request, the expected revision and the actor are those of the first call and the actor was written
   as stored. Everything else is refused as a conflict.
   */
  lemma RetryIsFoundIff(q: Projection, p: Projection, r: Projection, c: Call, d: Draft, meta: Meta, again: Call, meta': Meta)
    requires Build(q, c) == Success(d) && Commit(p, d, c, meta).Committed?
    requires Evolves(After(p, EventOf(d, c, meta)), r)
    requires again.key == c.key
    ensures var e := EventOf(d, c, meta);
      var same := AsksTheSame(c.request, again.request, e) && ExpectedOf(again) == ExpectedOf(c) && again.actor == c.actor == e.actor;
      && Retry(r, again) == (if same then Found(e) else Conflicting)
      && Atomic(r, again, meta') == if same then Replayed(e) else Raised(IdempotencyConflict)
  {
    var e := EventOf(d, c, meta);
    BuiltDraftIsRecognised(q, c, d, meta);
    AppliedRecords(p, e);
    if ActionOf(again.request) == ActionOf(c.request) && TargetOf(again.request).1 == TargetOf(c.request).1 {
      SameOperationIff(q, c, d, meta, again.request);
    } else {
      assert !AsksTheSame(c.request, again.request, e);
    }
    hide Check, Build, RecordsLater, Store, After, Apply, RetryOperation, CleanActor, ValidActor, AsksTheSame, ActionOf, TargetOf,
      ExpectedOf;
    assert r.idempotency[c.key] == e;
  }

  /** A caller's request to register an agent, at revision 0 or 1. */
  function Registering(key: string, expected: nat, actor: string, now: real): Call {
    Call(RegisterAgent("g", AgentProfile("G", "x", "y", ["g"], []), true), expected, key, Actor("human", actor), now)
  }

  lemma RegistrationCommits(p: Projection, c: Call, meta: Meta)
    requires c.request.RegisterAgent? && c.expected >= 0 && c.key !in p.idempotency && c.now >= 0.0 && ValidActor(c.actor)
    requires c.expected == if c.request.agentId in p.agents then p.agents[c.request.agentId].revision else 0
    ensures Build(p, c).Success? && Commit(p, Build(p, c).value, c, meta).Committed?
    ensures var q := After(p, Commit(p, Build(p, c).value, c, meta).event);
      && q.idempotency == p.idempotency[c.key := Commit(p, Build(p, c).value, c, meta).event]
      && q.agents == p.agents[c.request.agentId := Build(p, c).value.payload.agent]
      && Build(p, c).value.payload.agent.revision == c.expected + 1
  {
    hide ValidActor, CleanActor, CleanProfile;
  }

  lemma PaddedActor()
    ensures Strip("ci ") == "ci" && Strip("ci") == "ci" && ValidText("ci", 120)
  {
    assert "ci "[..2] == "ci";
    assert !IsSpace("ci "[0]) && IsSpace("ci "[2]) && !IsSpace("ci"[1]) && !IsSpace("ci"[0]);
  }

  /** It does happen: with one blank behind the actor's id a registration commits, and the identical call is refused. */
  lemma PaddedActorIsRefused(key: string, meta: Meta, meta': Meta)
    ensures var c := Registering(key, 0, "ci ", 1.0);
      && Atomic(EMPTY, c, meta).Committed?
      && Atomic(After(EMPTY, Atomic(EMPTY, c, meta).event), c, meta') == Raised(IdempotencyConflict)
  {
    var c := Registering(key, 0, "ci ", 1.0);
    PaddedActor();
    RegistrationCommits(EMPTY, c, meta);
    var d := Build(EMPTY, c).value;
    assert Atomic(EMPTY, c, meta) == Commit(EMPTY, d, c, meta);
    hide Build, Atomic, Commit, After, Strip;
    EvolvesReflexive(After(EMPTY, EventOf(d, c, meta)));
    CommittedEvent(EMPTY, d, c, meta);
    RetryReturnsFirst(EMPTY, EMPTY, After(EMPTY, EventOf(d, c, meta)), c, d, meta, c, meta');
  }

  lemma CommittedEvent(p: Projection, d: Draft, c: Call, meta: Meta)
    ensures Commit(p, d, c, meta).Committed? ==> Commit(p, d, c, meta).event == EventOf(d, c, meta)
  {
    hide Apply;
  }
}
