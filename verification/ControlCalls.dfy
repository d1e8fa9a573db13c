/**
 What each store method does to the projection, call by call: when it commits, what it raises otherwise, and what
 the record it leaves says, field by field, in terms of the arguments and of the record that was there before.
 */
module ControlCalls {
  import opened Common
  import opened ControlRecords
  import opened ControlReducer
  import opened ControlHistory
  import opened ControlRules
  import opened ControlStore
  import opened ControlApprovals
  import opened ControlSchedules

  // ---------- What holds of every projection a log leads to ----------

  ghost predicate Typed(p: Projection) {
    && (forall id :: id in p.tasks ==> p.tasks[id].Decodable())
    && (forall id :: id in p.contracts ==> p.contracts[id].Decodable())
    && (forall id :: id in p.agents ==> p.agents[id].Decodable())
    && (forall id :: id in p.workspaces ==> p.workspaces[id].Decodable())
    && (forall id :: id in p.attempts ==> p.attempts[id].Decodable())
    && (forall id :: id in p.approvals ==> p.approvals[id].Decodable())
    && (forall id :: id in p.budgets ==> p.budgets[id].Decodable())
  }

  ghost predicate WellFormed(p: Projection) { Sound(p) && Typed(p) && ApprovalsShaped(p) && SchedulesSound(p) }

  predicate Decodes(payload: Payload) {
    match payload
    case TaskPayload(r) => r.Decodable()
    case ContractPayload(r) => r.Decodable()
    case AgentPayload(r) => r.Decodable()
    case WorkspacePayload(r) => r.Decodable()
    case AttemptPayload(r) => r.Decodable()
    case ApprovalPayload(r) => r.Decodable()
    case ResolutionPayload(r, a, _) => r.Decodable() && a.Decodable()
    case BudgetPayload(r) => r.Decodable()
    case SchedulePayload(r) => r.Decodable()
    case ClaimPayload(r, _) => r.Decodable()
    case UndecodedPayload => false
  }

  lemma CheckedDecodes(p: Projection, e: ControlEvent)
    requires Check(p, e).None?
    ensures Decodes(e.payload)
  {
    hide NextTick, ScheduleSpec.Decodable, RunAttempt.Decodable, ClaimFits;
  }

  lemma StoredIsTyped(p: Projection, payload: Payload)
    requires Typed(p) && Decodes(payload)
    ensures Typed(Store(p, payload))
  {
    hide ScheduleSpec.Decodable, RunAttempt.Decodable, ApprovalRequest.Decodable;
  }

  lemma AfterIsTyped(p: Projection, e: ControlEvent)
    requires Typed(p)
    ensures Typed(After(p, e))
  {
    hide Check, Store, Decodes;
    if Apply(p, e).Applied? {
      CheckedDecodes(p, e);
      StoredIsTyped(p, e.payload);
    }
  }

  lemma {:induction false} EveryLogIsWellFormed(log: seq<ControlEvent>)
    ensures WellFormed(Fold(EMPTY, log))
    decreases |log|
  {
    hide After, Sound, Typed, ApprovalsShaped, SchedulesSound;
    EmptyIsWellFormed();
    EmptySound();
    FoldEvolves(EMPTY, log);
    ApprovalsAreSingleUse(log);
    SchedulesMoveByClaimsAndUpdates(log, "");
    if log != [] {
      EveryLogIsWellFormed(log[..|log| - 1]);
      AfterIsTyped(Fold(EMPTY, log[..|log| - 1]), log[|log| - 1]);
    }
  }

  lemma EmptyIsWellFormed()
    ensures Typed(EMPTY)
  {
  }

  // ---------- When a fresh call is refused ----------

  predicate Unwritable(c: Call) { c.expected < 0 || !ValidActor(c.actor) }

  function CreateTaskRefusal(p: Projection, c: Call): Verdict
    requires c.request.CreateTask?
  {
    if !ValidActor(c.actor) || c.now < 0.0 then Some(Malformed)
    else if c.request.taskId in p.tasks then Some(RevisionConflict)
    else None
  }

  function MergeTaskRefusal(p: Projection, c: Call): Verdict
    requires c.request.MergeTask?
  {
    var id, into := c.request.taskId, c.request.intoTaskId;
    if id == into then Some(InvalidTransition)
    else if id !in p.tasks then Some(NotFound)
    else if Unwritable(c) || into !in p.tasks || p.tasks[into].mergedInto.Some? then Some(Malformed)
    else if c.expected != p.tasks[id].revision then Some(RevisionConflict)
    else if p.tasks[id].mergedInto.Some? then Some(InvalidTransition)
    else None
  }

  function RegisterWorkspaceRefusal(p: Projection, c: Call): Verdict
    requires c.request.RegisterWorkspace?
  {
    var id, root, dir := c.request.workspaceId, Strip(c.request.canonicalRoot), StripOptional(c.request.storeDir);
    if c.expected != (if id in p.workspaces then p.workspaces[id].revision else 0) then Some(RevisionConflict)
    else if !ValidActor(c.actor) || c.now < 0.0 then Some(Malformed)
    else if id in p.workspaces && (p.workspaces[id].canonicalRoot != root || p.workspaces[id].storeDir != dir)
    then Some(InvalidTransition)
    else None
  }

  function RegisterAgentRefusal(p: Projection, c: Call): Verdict
    requires c.request.RegisterAgent?
  {
    var id := c.request.agentId;
    if c.expected != (if id in p.agents then p.agents[id].revision else 0) then Some(RevisionConflict)
    else if !ValidActor(c.actor) || c.now < 0.0 then Some(Malformed)
    else None
  }

  function RegisterBudgetRefusal(p: Projection, c: Call): Verdict
    requires c.request.RegisterBudget?
  {
    var asked := c.request;
    var hard := asked.budgetAction == "cancel" || asked.budgetAction == "block";
    if c.expected != (if asked.policyId in p.budgets then p.budgets[asked.policyId].revision else 0) then Some(RevisionConflict)
    else if hard && asked.basis != "provider_billed" && asked.basis != "conservative_approved" then Some(Malformed)
    else if !ValidActor(c.actor) || c.now < 0.0 || asked.limit <= 0.0 then Some(Malformed)
    else None
  }

  function CreateContractRefusal(p: Projection, c: Call): Verdict
    requires c.request.CreateContract?
  {
    var asked := c.request;
    if Unwritable(c) || c.now < 0.0 then Some(Malformed)
    else if asked.taskId !in p.tasks || p.tasks[asked.taskId].mergedInto.Some? || asked.workspaceId !in p.workspaces
    then Some(NotFound)
    else if c.expected != (if asked.taskId in p.contracts then p.contracts[asked.taskId].revision else 0)
    then Some(RevisionConflict)
    else if exists i :: 0 <= i < |asked.budgetPolicyIds| && Strip(asked.budgetPolicyIds[i]) !in p.budgets then Some(NotFound)
    else None
  }

  function CreateAttemptRefusal(p: Projection, c: Call): Verdict
    requires c.request.CreateAttempt?
  {
    var asked := c.request;
    var task, agent, place, initial := asked.taskId, asked.agentId, asked.workspaceId, asked.initialControl;
    if task !in p.contracts || p.contracts[task].revision != asked.contractRevision then Some(RevisionConflict)
    else if agent !in p.agents || !p.agents[agent].enabled then Some(NotFound)
    else if initial.Some? && !initial.value.Ready? && !initial.value.AwaitingApproval? then Some(Malformed)
    else if Gated(p.contracts[task]) && initial == Some(Ready) then Some(InvalidTransition)
    else if !ValidActor(c.actor) then Some(Malformed)
    else if asked.attemptId in p.attempts then Some(RevisionConflict)
    else if task !in p.tasks || p.tasks[task].mergedInto.Some? then Some(NotFound)
    else if place !in p.workspaces || !p.workspaces[place].enabled || p.contracts[task].workspaceId != place then Some(NotFound)
    else None
  }

  /** What the record becomes is said by `Changed`. */
  ghost function TransitionAttemptRefusal(p: Projection, c: Call): Verdict
    requires c.request.TransitionAttempt?
  {
    var id := c.request.attemptId;
    if id !in p.attempts then Some(NotFound)
    else
      var r := Transitioned(p.attempts[id], c.request.changes, c.now);
      if Unwritable(c) || !r.Decodable() then Some(Malformed)
      else if c.expected != p.attempts[id].revision then Some(RevisionConflict)
      else if !MayChange(p.attempts[id], r) then Some(InvalidTransition)
      else None
  }

  function RequestApprovalRefusal(p: Projection, c: Call, meta: Meta): Verdict
    requires c.request.RequestApproval?
  {
    var scope := c.request.approvalScope;
    if scope.expiresAt <= c.now || scope.expiresAt < 0.0 || !ValidActor(c.actor) then Some(Malformed)
    else if c.request.approvalId in p.approvals then Some(RevisionConflict)
    else if scope.taskId !in p.tasks then Some(NotFound)
    else if scope.attemptId.Some? && scope.attemptId.value != "" && scope.attemptId.value !in p.attempts then Some(NotFound)
    else if scope.expiresAt <= meta.occurredAt then Some(InvalidTransition)
    else None
  }

  function ResolveApprovalRefusal(p: Projection, c: Call): Verdict
    requires c.request.ResolveApproval?
  {
    var id := c.request.approvalId;
    if id !in p.approvals then Some(NotFound)
    else
      var scope := p.approvals[id].scope;
      if
        || p.approvals[id].state != Undecided || scope.expiresAt <= c.now || scope.attemptId.None?
        || scope.requestedAction != "launch"
      then Some(InvalidTransition)
      else if scope.attemptId.value !in p.attempts then Some(NotFound)
      else
        var a := p.attempts[scope.attemptId.value];
        if a.identity.taskId != scope.taskId || a.execution != Pending || a.control != AwaitingApproval
        then Some(InvalidTransition)
        else if !ValidText(Strip(c.request.decidedBy), 120) || Unwritable(c) || c.now < 0.0 then Some(Malformed)
        else if c.expected != p.approvals[id].revision then Some(RevisionConflict)
        else None
  }

  function DecideApprovalRefusal(p: Projection, c: Call): Verdict
    requires c.request.DecideApproval?
  {
    var id := c.request.approvalId;
    if id !in p.approvals then Some(NotFound)
    else if p.approvals[id].state != Undecided || p.approvals[id].scope.expiresAt <= c.now then Some(InvalidTransition)
    else if !ValidText(Strip(c.request.decidedBy), 120) || Unwritable(c) || c.now < 0.0 then Some(Malformed)
    else if c.expected != p.approvals[id].revision then Some(RevisionConflict)
    else None
  }

  function ConsumeApprovalRefusal(p: Projection, c: Call): Verdict
    requires c.request.ConsumeApproval?
  {
    var id := c.request.approvalId;
    if id !in p.approvals then Some(NotFound)
    else if p.approvals[id].state != Approved || p.approvals[id].scope.expiresAt <= c.now then Some(InvalidTransition)
    else if Unwritable(c) || c.now < 0.0 then Some(Malformed)
    else if c.expected != p.approvals[id].revision then Some(RevisionConflict)
    else None
  }

  function ExpireApprovalRefusal(p: Projection, c: Call): Verdict
    requires c.request.ExpireApproval?
  {
    var id := c.request.approvalId;
    if id !in p.approvals then Some(NotFound)
    else if p.approvals[id].state !in {Undecided, Approved} || c.now < p.approvals[id].scope.expiresAt
    then Some(InvalidTransition)
    else if Unwritable(c) then Some(Malformed)
    else if c.expected != p.approvals[id].revision then Some(RevisionConflict)
    else None
  }

  function RegisterScheduleRefusal(p: Projection, c: Call): Verdict
    requires c.request.RegisterSchedule?
  {
    var asked := c.request;
    var paced := if asked.cadence == Fixed then asked.interval.Some? && asked.interval.value >= 1.0 else asked.interval.None?;
    if !ValidActor(c.actor) || c.now < 0.0 || asked.nextRunAt < 0.0 || !paced then Some(Malformed)
    else if asked.scheduleId in p.schedules then Some(RevisionConflict)
    else if asked.taskId !in p.tasks then Some(NotFound)
    else None
  }

  function UpdateScheduleRefusal(p: Projection, c: Call): Verdict
    requires c.request.UpdateSchedule?
  {
    var id, moveTo := c.request.scheduleId, c.request.moveTo;
    if id !in p.schedules then Some(NotFound)
    else if Unwritable(c) || c.now < 0.0 || (moveTo.Some? && moveTo.value < 0.0) then Some(Malformed)
    else if c.expected != p.schedules[id].revision then Some(RevisionConflict)
    else None
  }

  function ClaimScheduleRefusal(p: Projection, c: Call): Verdict
    requires c.request.ClaimSchedule?
  {
    var id := c.request.scheduleId;
    if id !in p.schedules then Some(NotFound)
    else if !p.schedules[id].enabled || p.schedules[id].nextRunAt.None? || c.now < p.schedules[id].nextRunAt.value
    then Some(InvalidTransition)
    else if Unwritable(c) then Some(Malformed)
    else if c.expected != p.schedules[id].revision then Some(RevisionConflict)
    else None
  }

  /** Why a call with a key nobody used is refused; None if it commits. */
  ghost function Refusal(p: Projection, c: Call, meta: Meta): Verdict {
    match c.request
    case CreateTask(_, _) => CreateTaskRefusal(p, c)
    case MergeTask(_, _) => MergeTaskRefusal(p, c)
    case RegisterWorkspace(_, _, _, _) => RegisterWorkspaceRefusal(p, c)
    case RegisterAgent(_, _, _) => RegisterAgentRefusal(p, c)
    case RegisterBudget(_, _, _, _, _, _, _) => RegisterBudgetRefusal(p, c)
    case CreateContract(_, _, _, _, _, _) => CreateContractRefusal(p, c)
    case CreateAttempt(_, _, _, _, _, _) => CreateAttemptRefusal(p, c)
    case TransitionAttempt(_, _) => TransitionAttemptRefusal(p, c)
    case RequestApproval(_, _) => RequestApprovalRefusal(p, c, meta)
    case ResolveApproval(_, _, _) => ResolveApprovalRefusal(p, c)
    case DecideApproval(_, _, _) => DecideApprovalRefusal(p, c)
    case ConsumeApproval(_) => ConsumeApprovalRefusal(p, c)
    case ExpireApproval(_) => ExpireApprovalRefusal(p, c)
    case RegisterSchedule(_, _, _, _, _, _) => RegisterScheduleRefusal(p, c)
    case UpdateSchedule(_, _, _) => UpdateScheduleRefusal(p, c)
    case ClaimSchedule(_) => ClaimScheduleRefusal(p, c)
  }

  // ---------- What a committed call leaves ----------

  /** Which labels the event carries for the state before and after. */
  datatype Labels = Labels(prior: Option<string>, next: Option<string>)

  const UNLABELLED := Labels(None, None)

  function LabelsOf(d: Draft): Labels { Labels(d.prior, d.next) }

  ghost predicate CreateTaskLeaves(p: Projection, c: Call, q: Projection, labels: Labels)
    requires c.request.CreateTask?
  {
    var id := c.request.taskId;
    && id in q.tasks && q == p.(tasks := p.tasks[id := q.tasks[id]]) && labels == UNLABELLED
    && q.tasks[id].taskId == id && q.tasks[id].origin == c.request.origin && q.tasks[id].createdAt == c.now
    && q.tasks[id].revision == 1 && q.tasks[id].mergedInto.None?
  }

  ghost predicate MergeTaskLeaves(p: Projection, c: Call, q: Projection, labels: Labels)
    requires c.request.MergeTask?
  {
    var id := c.request.taskId;
    && id in p.tasks && id in q.tasks && q == p.(tasks := p.tasks[id := q.tasks[id]])
    && labels == Labels(Some("active"), Some("merged"))
    && q.tasks[id].mergedInto == Some(c.request.intoTaskId) && q.tasks[id].revision == p.tasks[id].revision + 1
    && q.tasks[id].(mergedInto := p.tasks[id].mergedInto, revision := p.tasks[id].revision) == p.tasks[id]
  }

  ghost predicate RegisterWorkspaceLeaves(p: Projection, c: Call, q: Projection, labels: Labels)
    requires c.request.RegisterWorkspace?
  {
    var id := c.request.workspaceId;
    && id in q.workspaces && q == p.(workspaces := p.workspaces[id := q.workspaces[id]]) && labels == UNLABELLED
    && var r := q.workspaces[id];
    && r.workspaceId == id && r.canonicalRoot == Strip(c.request.canonicalRoot) && r.storeDir == StripOptional(c.request.storeDir)
    && r.enabled == c.request.enabled && r.updatedAt == c.now
    && r.revision == if id in p.workspaces then p.workspaces[id].revision + 1 else 1
  }

  ghost predicate RegisterAgentLeaves(p: Projection, c: Call, q: Projection, labels: Labels)
    requires c.request.RegisterAgent?
  {
    var id, asked := c.request.agentId, c.request.profile;
    && id in q.agents && q == p.(agents := p.agents[id := q.agents[id]]) && labels == UNLABELLED
    && var r := q.agents[id];
    && r.agentId == id && r.enabled == c.request.enabled && r.updatedAt == c.now
    && r.revision == (if id in p.agents then p.agents[id].revision + 1 else 1)
    && r.profile.displayName == Strip(asked.displayName) && r.profile.adapter == asked.adapter
    && r.profile.executionBackend == asked.executionBackend && r.profile.argvTemplate == asked.argvTemplate
    && AllCleaned(asked.capabilities, r.profile.capabilities)
  }

  ghost predicate AllCleaned(given: seq<string>, stored: seq<string>) {
    |stored| == |given| && forall i :: 0 <= i < |given| ==> stored[i] == Strip(given[i])
  }

  ghost predicate RegisterBudgetLeaves(p: Projection, c: Call, q: Projection, labels: Labels)
    requires c.request.RegisterBudget?
  {
    var asked := c.request;
    var id := asked.policyId;
    && id in q.budgets && q == p.(budgets := p.budgets[id := q.budgets[id]]) && labels == UNLABELLED
    && var r := q.budgets[id];
    && r.policyId == id && r.scope == asked.scope && r.metric == asked.metric && r.limit == asked.limit
    && r.basis == asked.basis && r.action == asked.budgetAction && r.enabled == asked.enabled && r.updatedAt == c.now
    && r.revision == if id in p.budgets then p.budgets[id].revision + 1 else 1
  }

  ghost predicate CreateContractLeaves(p: Projection, c: Call, q: Projection, labels: Labels)
    requires c.request.CreateContract?
  {
    var asked := c.request;
    var id := asked.taskId;
    && id in q.contracts && q == p.(contracts := p.contracts[id := q.contracts[id]]) && labels == UNLABELLED
    && var r := q.contracts[id];
    && r.taskId == id && r.objective == Strip(asked.objective) && r.workspaceId == asked.workspaceId
    && r.permissionEnvelope == asked.permissionEnvelope && r.createdAt == c.now
    && AllCleaned(asked.budgetPolicyIds, r.budgetPolicyIds) && AllCleaned(asked.successChecks, r.successChecks)
    && r.revision == if id in p.contracts then p.contracts[id].revision + 1 else 1
  }

  /** Without an initial control state a new attempt is ready exactly when its contract is not gated. */
  ghost predicate CreateAttemptLeaves(p: Projection, c: Call, q: Projection, labels: Labels)
    requires c.request.CreateAttempt?
  {
    var asked := c.request;
    var id, task, agent := asked.attemptId, asked.taskId, asked.agentId;
    && id in q.attempts && q == p.(attempts := p.attempts[id := q.attempts[id]]) && labels == Labels(None, Some("pending"))
    && task in p.contracts && agent in p.agents
    && var r := q.attempts[id];
    && r.attemptId == id && r.identity.taskId == task && r.identity.contractRevision == p.contracts[task].revision
    && r.identity.agentId == agent && r.identity.agentRevision == p.agents[agent].revision
    && r.identity.workspaceId == asked.workspaceId
    && r.execution == Pending && r.outcome == Unknown && r.manifestId.None? && r.proof.Empty() && r.endedAt.None?
    && r.exitCode.None? && r.reason.None? && r.revision == 1
    && (asked.initialControl.Some? ==> r.control == asked.initialControl.value)
    && (asked.initialControl.None? ==> r.control == if Gated(p.contracts[task]) then AwaitingApproval else Ready)
  }

  /** r is a with the requested changes: an absent change keeps a field, texts are cleaned, ending stamps the clock. */
  ghost predicate Changed(a: RunAttempt, ch: AttemptChanges, now: real, r: RunAttempt) {
    && r.attemptId == a.attemptId && r.identity == a.identity && r.revision == a.revision + 1
    && (if ch.execution.Some? then r.execution == ch.execution.value else r.execution == a.execution)
    && (if ch.outcome.Some? then r.outcome == ch.outcome.value else r.outcome == a.outcome)
    && (if ch.control.Some? then r.control == ch.control.value else r.control == a.control)
    && (if ch.manifestId.Some? then r.manifestId == ch.manifestId else r.manifestId == a.manifestId)
    && (if ch.exitCode.Some? then r.exitCode == ch.exitCode else r.exitCode == a.exitCode)
    && (if ch.proof.pid.Some? then r.proof.pid == ch.proof.pid else r.proof.pid == a.proof.pid)
    && (if ch.proof.processGroupId.Some? then r.proof.processGroupId == ch.proof.processGroupId
        else r.proof.processGroupId == a.proof.processGroupId)
    && (if ch.proof.birthTime.Some? then r.proof.birthTime == ch.proof.birthTime else r.proof.birthTime == a.proof.birthTime)
    && (if ch.proof.nonceHash.Some? then r.proof.nonceHash == ch.proof.nonceHash else r.proof.nonceHash == a.proof.nonceHash)
    && (if ch.proof.startedAt.Some? then r.proof.startedAt == ch.proof.startedAt else r.proof.startedAt == a.proof.startedAt)
    && CleanedOrKept(ch.proof.executable, a.proof.executable, r.proof.executable)
    && CleanedOrKept(ch.proof.cwd, a.proof.cwd, r.proof.cwd)
    && CleanedOrKept(ch.reason, a.reason, r.reason)
    && (if ch.endedAt.Some? then r.endedAt == ch.endedAt
        else if r.execution in {Succeeded, Failed, Cancelled, Lost} then r.endedAt == Some(now)
        else r.endedAt == a.endedAt)
  }

  ghost predicate CleanedOrKept(change: Option<string>, before: Option<string>, after: Option<string>) {
    if change.None? then after == before
    else if Strip(change.value) == "" then after.None?
    else after == Some(Strip(change.value))
  }

  ghost predicate TransitionAttemptLeaves(p: Projection, c: Call, q: Projection, labels: Labels)
    requires c.request.TransitionAttempt?
  {
    var id := c.request.attemptId;
    && id in p.attempts && id in q.attempts && q == p.(attempts := p.attempts[id := q.attempts[id]])
    && labels == Labels(Some(ExecutionName(p.attempts[id].execution)), Some(ExecutionName(q.attempts[id].execution)))
    && Changed(p.attempts[id], c.request.changes, c.now, q.attempts[id])
  }

  ghost predicate RequestApprovalLeaves(p: Projection, c: Call, q: Projection, labels: Labels)
    requires c.request.RequestApproval?
  {
    var id, asked := c.request.approvalId, c.request.approvalScope;
    && id in q.approvals && q == p.(approvals := p.approvals[id := q.approvals[id]]) && labels == Labels(None, Some("pending"))
    && var r := q.approvals[id];
    && r.approvalId == id && r.scope.taskId == asked.taskId && r.scope.attemptId == asked.attemptId && r.scope.kind == asked.kind
    && r.scope.requestedAction == asked.requestedAction && r.scope.expiresAt == asked.expiresAt
    && r.scope.requestedBy == Strip(asked.requestedBy)
    && r.state == Undecided && r.decidedBy.None? && r.decidedAt.None? && r.consumedAt.None? && r.revision == 1
  }

  /** The stored approval moves to a state; all fields but the four that record the decision stay. */
  ghost predicate ApprovalBecomes(p: Projection, q: Projection, id: Id, state: ApprovalState, labels: Labels) {
    && id in p.approvals && id in q.approvals && q.approvals[id].state == state
    && q.approvals[id].revision == p.approvals[id].revision + 1
    && q.approvals[id].approvalId == p.approvals[id].approvalId && q.approvals[id].scope == p.approvals[id].scope
    && labels == Labels(Some(ApprovalName(p.approvals[id].state)), Some(ApprovalName(state)))
  }

  /** Approving consumes the approval and releases its attempt; refusing holds the attempt. */
  ghost predicate ResolveApprovalLeaves(p: Projection, c: Call, q: Projection, labels: Labels)
    requires c.request.ResolveApproval?
  {
    var id, approve := c.request.approvalId, c.request.approve;
    && ApprovalBecomes(p, q, id, if approve then Consumed else Rejected, labels) && p.approvals[id].scope.attemptId.Some?
    && var r, run := q.approvals[id], p.approvals[id].scope.attemptId.value;
    && r.decidedBy == Some(Strip(c.request.decidedBy)) && r.decidedAt == Some(c.now)
    && (if approve then r.consumedAt == Some(c.now) else r.consumedAt.None?)
    && run in p.attempts && run in q.attempts
    && q == p.(approvals := p.approvals[id := r], attempts := p.attempts[run := q.attempts[run]])
    && var before, after := p.attempts[run], q.attempts[run];
    && after.control == (if approve then Ready else PolicyHold)
    && after.reason == Some(if approve then "single-use approval consumed" else "launch approval rejected")
    && after.revision == before.revision + 1
    && after.(control := before.control, reason := before.reason, revision := before.revision) == before
  }

  ghost predicate DecideApprovalLeaves(p: Projection, c: Call, q: Projection, labels: Labels)
    requires c.request.DecideApproval?
  {
    var id := c.request.approvalId;
    && ApprovalBecomes(p, q, id, if c.request.approve then Approved else Rejected, labels)
    && q == p.(approvals := p.approvals[id := q.approvals[id]])
    && q.approvals[id].decidedBy == Some(Strip(c.request.decidedBy)) && q.approvals[id].decidedAt == Some(c.now)
    && q.approvals[id].consumedAt == p.approvals[id].consumedAt
  }

  ghost predicate ConsumeApprovalLeaves(p: Projection, c: Call, q: Projection, labels: Labels)
    requires c.request.ConsumeApproval?
  {
    var id := c.request.approvalId;
    && ApprovalBecomes(p, q, id, Consumed, labels) && q == p.(approvals := p.approvals[id := q.approvals[id]])
    && q.approvals[id].consumedAt == Some(c.now)
    && q.approvals[id].decidedBy == p.approvals[id].decidedBy && q.approvals[id].decidedAt == p.approvals[id].decidedAt
  }

  ghost predicate ExpireApprovalLeaves(p: Projection, c: Call, q: Projection, labels: Labels)
    requires c.request.ExpireApproval?
  {
    var id := c.request.approvalId;
    && ApprovalBecomes(p, q, id, Expired, labels) && q == p.(approvals := p.approvals[id := q.approvals[id]])
    && q.approvals[id].decidedBy == p.approvals[id].decidedBy && q.approvals[id].decidedAt == p.approvals[id].decidedAt
    && q.approvals[id].consumedAt == p.approvals[id].consumedAt
  }

  ghost predicate RegisterScheduleLeaves(p: Projection, c: Call, q: Projection, labels: Labels)
    requires c.request.RegisterSchedule?
  {
    var asked := c.request;
    var id := asked.scheduleId;
    && id in q.schedules && q == p.(schedules := p.schedules[id := q.schedules[id]]) && labels == UNLABELLED
    && var r := q.schedules[id];
    && r.scheduleId == id && r.taskId == asked.taskId && r.cadence == asked.cadence && r.interval == asked.interval
    && r.nextRunAt == Some(asked.nextRunAt) && r.enabled == asked.enabled && r.claimCount == 0 && r.lastClaimedAt.None?
    && r.revision == 1 && r.updatedAt == c.now
  }

  ghost predicate UpdateScheduleLeaves(p: Projection, c: Call, q: Projection, labels: Labels)
    requires c.request.UpdateSchedule?
  {
    var id, enable, moveTo := c.request.scheduleId, c.request.enable, c.request.moveTo;
    && id in p.schedules && id in q.schedules && q == p.(schedules := p.schedules[id := q.schedules[id]]) && labels == UNLABELLED
    && var s, r := p.schedules[id], q.schedules[id];
    && (if enable.Some? then r.enabled == enable.value else r.enabled == s.enabled)
    && (if moveTo.Some? then r.nextRunAt == moveTo else r.nextRunAt == s.nextRunAt)
    && r.revision == s.revision + 1 && r.updatedAt == c.now
    && r.(enabled := s.enabled, nextRunAt := s.nextRunAt, revision := s.revision, updatedAt := s.updatedAt) == s
  }

  /** A claim uses up a one-shot schedule; a fixed one moves to its first tick after the claim. */
  ghost predicate ClaimScheduleLeaves(p: Projection, c: Call, q: Projection, labels: Labels)
    requires c.request.ClaimSchedule?
  {
    var id := c.request.scheduleId;
    && id in p.schedules && id in q.schedules && q == p.(schedules := p.schedules[id := q.schedules[id]])
    && var s, r := p.schedules[id], q.schedules[id];
    && s.nextRunAt.Some? && r.enabled == (s.cadence == Fixed)
    && labels == Labels(Some("due"), Some(if s.cadence == Fixed then "scheduled" else "disabled"))
    && (if s.cadence == OneShot then r.nextRunAt.None?
        else
          && s.interval.Some? && s.interval.value >= 1.0
          && r.nextRunAt == Some(LatticeTick(s.nextRunAt.value, c.now, s.interval.value)))
    && r.claimCount == s.claimCount + 1 && r.lastClaimedAt == Some(c.now) && r.revision == s.revision + 1 && r.updatedAt == c.now
    && r.(enabled := s.enabled, nextRunAt := s.nextRunAt, claimCount := s.claimCount, lastClaimedAt := s.lastClaimedAt,
          revision := s.revision, updatedAt := s.updatedAt) == s
  }

  /** q is what a committed call makes of the record maps of p. */
  ghost predicate Leaves(p: Projection, c: Call, q: Projection, labels: Labels) {
    match c.request
    case CreateTask(_, _) => CreateTaskLeaves(p, c, q, labels)
    case MergeTask(_, _) => MergeTaskLeaves(p, c, q, labels)
    case RegisterWorkspace(_, _, _, _) => RegisterWorkspaceLeaves(p, c, q, labels)
    case RegisterAgent(_, _, _) => RegisterAgentLeaves(p, c, q, labels)
    case RegisterBudget(_, _, _, _, _, _, _) => RegisterBudgetLeaves(p, c, q, labels)
    case CreateContract(_, _, _, _, _, _) => CreateContractLeaves(p, c, q, labels)
    case CreateAttempt(_, _, _, _, _, _) => CreateAttemptLeaves(p, c, q, labels)
    case TransitionAttempt(_, _) => TransitionAttemptLeaves(p, c, q, labels)
    case RequestApproval(_, _) => RequestApprovalLeaves(p, c, q, labels)
    case ResolveApproval(_, _, _) => ResolveApprovalLeaves(p, c, q, labels)
    case DecideApproval(_, _, _) => DecideApprovalLeaves(p, c, q, labels)
    case ConsumeApproval(_) => ConsumeApprovalLeaves(p, c, q, labels)
    case ExpireApproval(_) => ExpireApprovalLeaves(p, c, q, labels)
    case RegisterSchedule(_, _, _, _, _, _) => RegisterScheduleLeaves(p, c, q, labels)
    case UpdateSchedule(_, _, _) => UpdateScheduleLeaves(p, c, q, labels)
    case ClaimSchedule(_) => ClaimScheduleLeaves(p, c, q, labels)
  }

  // ---------- Every method does what is said above ----------

  lemma TransitionedIsChanged(a: RunAttempt, ch: AttemptChanges, now: real)
    ensures Changed(a, ch, now, Transitioned(a, ch, now))
  {
    hide Strip;
  }

  /** A draft is refused where its call is, and nowhere else. */
  predicate Answers(c: Call, d: Draft, check: Verdict, refusal: Verdict) {
    refusal == if d.expected < 0 || !ValidActor(c.actor) then Some(Malformed) else check
  }

  /** The draft built at p is refused, or leaves the records, as said. */
  ghost predicate DoesAsSaid(p: Projection, c: Call, meta: Meta) {
    match Build(p, c)
    case Failure(error) => Refusal(p, c, meta) == Some(error)
    case Success(d) =>
      && Answers(c, d, Check(p, EventOf(d, c, meta)), Refusal(p, c, meta))
      && (Refusal(p, c, meta).None? ==> Leaves(p, c, Store(p, d.payload), LabelsOf(d)))
  }

  lemma TaskCreations(p: Projection, c: Call, meta: Meta)
    requires WellFormed(p) && c.request.CreateTask?
    ensures var built := Plain(c, TaskPayload(TaskRecord(c.request.taskId, c.request.origin, c.now, 1, None)));
      && (built.Failure? ==> CreateTaskRefusal(p, c) == Some(built.error))
      && (built.Success? ==>
            var d := built.value;
            && d.payload.TaskPayload? && var r := d.payload.task;
            && Answers(c, d, CheckTaskCreated(p, EventOf(d, c, meta), r), CreateTaskRefusal(p, c))
            && (CreateTaskRefusal(p, c).None? ==> CreateTaskLeaves(p, c, p.(tasks := p.tasks[r.taskId := r]), LabelsOf(d))))
  {
    hide ValidActor, Indexed, ApprovalsShaped, SchedulesSound, CleanActor;
  }

  lemma TaskMerges(p: Projection, c: Call, meta: Meta)
    requires WellFormed(p) && c.request.MergeTask?
    ensures var built := BuildMerge(p, c, c.request.taskId, c.request.intoTaskId);
      && (built.Failure? ==> MergeTaskRefusal(p, c) == Some(built.error))
      && (built.Success? ==>
            var d := built.value;
            && d.payload.TaskPayload? && var r := d.payload.task;
            && Answers(c, d, CheckTaskMerged(p, EventOf(d, c, meta), r), MergeTaskRefusal(p, c))
            && (MergeTaskRefusal(p, c).None? ==> MergeTaskLeaves(p, c, p.(tasks := p.tasks[r.taskId := r]), LabelsOf(d))))
  {
    hide ValidActor, Indexed, ApprovalsShaped, SchedulesSound, CleanActor;
  }

  lemma WorkspaceRegistrations(p: Projection, c: Call, meta: Meta)
    requires WellFormed(p) && c.request.RegisterWorkspace?
    ensures var asked := c.request;
      var built := BuildWorkspace(p, c, asked.workspaceId, asked.canonicalRoot, asked.storeDir, asked.enabled);
      && (built.Failure? ==> RegisterWorkspaceRefusal(p, c) == Some(built.error))
      && (built.Success? ==>
            var d := built.value;
            && d.payload.WorkspacePayload? && var r := d.payload.workspace;
            && Answers(c, d, CheckWorkspaceRegistered(p, EventOf(d, c, meta), r), RegisterWorkspaceRefusal(p, c))
            && (RegisterWorkspaceRefusal(p, c).None? ==>
                  RegisterWorkspaceLeaves(p, c, p.(workspaces := p.workspaces[r.workspaceId := r]), LabelsOf(d))))
  {
    hide ValidActor, Indexed, ApprovalsShaped, SchedulesSound, CleanActor, Strip, StripOptional;
  }

  lemma AgentRegistrations(p: Projection, c: Call, meta: Meta)
    requires WellFormed(p) && c.request.RegisterAgent?
    ensures var built := BuildAgent(p, c, c.request.agentId, c.request.profile, c.request.enabled);
      && (built.Failure? ==> RegisterAgentRefusal(p, c) == Some(built.error))
      && (built.Success? ==>
            var d := built.value;
            && d.payload.AgentPayload? && var r := d.payload.agent;
            && Answers(c, d, CheckAgentRegistered(p, EventOf(d, c, meta), r), RegisterAgentRefusal(p, c))
            && (RegisterAgentRefusal(p, c).None? ==>
                  RegisterAgentLeaves(p, c, p.(agents := p.agents[r.agentId := r]), LabelsOf(d))))
  {
    hide ValidActor, Indexed, ApprovalsShaped, SchedulesSound, CleanActor, Strip;
  }

  lemma BudgetRegistrations(p: Projection, c: Call, meta: Meta)
    requires WellFormed(p) && c.request.RegisterBudget?
    ensures var built := BuildBudget(p, c);
      && (built.Failure? ==> RegisterBudgetRefusal(p, c) == Some(built.error))
      && (built.Success? ==>
            var d := built.value;
            && d.payload.BudgetPayload? && var r := d.payload.budget;
            && Answers(c, d, CheckBudgetRegistered(p, EventOf(d, c, meta), r), RegisterBudgetRefusal(p, c))
            && (RegisterBudgetRefusal(p, c).None? ==>
                  RegisterBudgetLeaves(p, c, p.(budgets := p.budgets[r.policyId := r]), LabelsOf(d))))
  {
    hide ValidActor, Indexed, ApprovalsShaped, SchedulesSound, CleanActor;
  }

  function ContractOf(c: Call): TaskContract
    requires c.request.CreateContract?
  {
    var q := c.request;
    TaskContract(q.taskId, c.expected + 1, Strip(q.objective), q.workspaceId, q.permissionEnvelope, StripAll(q.budgetPolicyIds),
                 StripAll(q.successChecks), c.now)
  }

  lemma ContractCreations(p: Projection, c: Call, meta: Meta)
    requires WellFormed(p) && c.request.CreateContract?
    ensures var built := Plain(c, ContractPayload(ContractOf(c)));
      && (built.Failure? ==> CreateContractRefusal(p, c) == Some(built.error))
      && (built.Success? ==>
            var d := built.value;
            && d.payload.ContractPayload? && var r := d.payload.contract;
            && Answers(c, d, CheckContractCreated(p, EventOf(d, c, meta), r), CreateContractRefusal(p, c))
            && (CreateContractRefusal(p, c).None? ==>
                  CreateContractLeaves(p, c, p.(contracts := p.contracts[r.taskId := r]), LabelsOf(d))))
  {
    hide ValidActor, Indexed, ApprovalsShaped, SchedulesSound, CleanActor, Strip;
    var asked := c.request.budgetPolicyIds;
    assert forall i :: 0 <= i < |asked| ==> StripAll(asked)[i] == Strip(asked[i]) && StripAll(asked)[i] in StripAll(asked);
  }

  lemma AttemptCreationsLeave(p: Projection, c: Call)
    requires WellFormed(p) && c.request.CreateAttempt? && CreateAttemptRefusal(p, c).None?
    ensures var built := BuildAttempt(p, c);
      && built.Success?
      && var d := built.value;
      && d.payload.AttemptPayload? && var r := d.payload.attempt;
      && CreateAttemptLeaves(p, c, p.(attempts := p.attempts[r.attemptId := r]), LabelsOf(d))
  {
    GatedIsRequired();
    hide ValidActor, Indexed, ApprovalsShaped, SchedulesSound, CleanActor, Gated, TaskContract.RequiresLaunchApproval;
  }

  /** What is left to refuse once a new attempt could be built. */
  function LateCreation(p: Projection, c: Call): Verdict
    requires c.request.CreateAttempt? && c.request.taskId in p.contracts
  {
    var place := c.request.workspaceId;
    if c.request.attemptId in p.attempts then Some(RevisionConflict)
    else if !ActiveTask(p, c.request.taskId) then Some(NotFound)
    else if place !in p.workspaces || !p.workspaces[place].enabled || p.contracts[c.request.taskId].workspaceId != place
    then Some(NotFound)
    else None
  }

  lemma CreationIsChecked(p: Projection, c: Call, d: Draft, e: ControlEvent)
    requires WellFormed(p) && c.request.CreateAttempt? && BuildAttempt(p, c) == Success(d)
    requires Targets(e, AttemptTarget, c.request.attemptId) && e.expectedRevision == 0
    ensures c.request.taskId in p.contracts && CheckAttemptCreated(p, e, d.payload.attempt) == LateCreation(p, c)
  {
    hide ValidActor, Indexed, ApprovalsShaped, SchedulesSound, TaskContract.RequiresLaunchApproval;
  }

  lemma CreationIsRefused(p: Projection, c: Call)
    requires c.request.CreateAttempt?
    ensures match BuildAttempt(p, c)
      case Failure(error) => CreateAttemptRefusal(p, c) == Some(error)
      case Success(d) =>
        && c.request.taskId in p.contracts && d.payload.AttemptPayload? && d.expected == 0
        && d.targetKind == AttemptTarget && d.targetId == c.request.attemptId
        && CreateAttemptRefusal(p, c) == if !ValidActor(c.actor) then Some(Malformed) else LateCreation(p, c)
  {
    GatedIsRequired();
    hide ValidActor, Gated, TaskContract.RequiresLaunchApproval;
  }

  lemma AttemptCreations(p: Projection, c: Call, meta: Meta)
    requires WellFormed(p) && c.request.CreateAttempt?
    ensures var built := BuildAttempt(p, c);
      && (built.Failure? ==> CreateAttemptRefusal(p, c) == Some(built.error))
      && (built.Success? ==>
            var d := built.value;
            && d.payload.AttemptPayload? && var r := d.payload.attempt;
            && Answers(c, d, CheckAttemptCreated(p, EventOf(d, c, meta), r), CreateAttemptRefusal(p, c))
            && (CreateAttemptRefusal(p, c).None? ==>
                  CreateAttemptLeaves(p, c, p.(attempts := p.attempts[r.attemptId := r]), LabelsOf(d))))
  {
    if CreateAttemptRefusal(p, c).None? {
      AttemptCreationsLeave(p, c);
    }
    CreationIsRefused(p, c);
    hide BuildAttempt, CheckAttemptCreated, CreateAttemptRefusal, CreateAttemptLeaves, LateCreation, ValidActor,
      WellFormed, CleanActor;
    if BuildAttempt(p, c).Success? {
      CreationIsChecked(p, c, BuildAttempt(p, c).value, EventOf(BuildAttempt(p, c).value, c, meta));
    }
  }

  lemma AttemptTransitions(p: Projection, c: Call, meta: Meta)
    requires WellFormed(p) && c.request.TransitionAttempt?
    ensures var built := BuildTransition(p, c, c.request.attemptId, c.request.changes);
      && (built.Failure? ==> TransitionAttemptRefusal(p, c) == Some(built.error))
      && (built.Success? ==>
            var d := built.value;
            && d.payload.AttemptPayload? && var r := d.payload.attempt;
            && Answers(c, d, CheckAttemptTransitioned(p, EventOf(d, c, meta), r), TransitionAttemptRefusal(p, c))
            && (TransitionAttemptRefusal(p, c).None? ==>
                  TransitionAttemptLeaves(p, c, p.(attempts := p.attempts[r.attemptId := r]), LabelsOf(d))))
  {
    var id := c.request.attemptId;
    if id in p.attempts {
      TransitionedIsChanged(p.attempts[id], c.request.changes, c.now);
      ChangesAreTransitions(p.attempts[id], Transitioned(p.attempts[id], c.request.changes, c.now));
      TransitionKeepsNames(p.attempts[id], c.request.changes, c.now);
    }
    hide ValidActor, Indexed, ApprovalsShaped, SchedulesSound, CleanActor, Transitioned, Changed, MayChange, FreezesOnce,
      StateMoves, CarriesEvidence, RunAttempt.Decodable, ExecutionName;
  }

  lemma TransitionKeepsNames(a: RunAttempt, changes: AttemptChanges, now: real)
    ensures var r := Transitioned(a, changes, now);
      r.attemptId == a.attemptId && r.identity == a.identity && r.revision == a.revision + 1
  {
  }

  lemma ApprovalRequests(p: Projection, c: Call, meta: Meta)
    requires WellFormed(p) && c.request.RequestApproval?
    ensures var built := BuildApprovalRequest(c, c.request.approvalId, c.request.approvalScope);
      && (built.Failure? ==> RequestApprovalRefusal(p, c, meta) == Some(built.error))
      && (built.Success? ==>
            var d := built.value;
            && d.payload.ApprovalPayload? && var r := d.payload.approval;
            && Answers(c, d, CheckApprovalRequested(p, EventOf(d, c, meta), r), RequestApprovalRefusal(p, c, meta))
            && (RequestApprovalRefusal(p, c, meta).None? ==>
                  RequestApprovalLeaves(p, c, p.(approvals := p.approvals[r.approvalId := r]), LabelsOf(d))))
  {
    hide ValidActor, Indexed, ApprovalsShaped, SchedulesSound, CleanActor, Strip;
  }

  function StoredResolution(p: Projection, r: ApprovalRequest, a: RunAttempt): Projection {
    p.(approvals := p.approvals[r.approvalId := r], attempts := p.attempts[a.attemptId := a])
  }

  lemma ResolutionsLeave(p: Projection, c: Call)
    requires WellFormed(p) && c.request.ResolveApproval? && ResolveApprovalRefusal(p, c).None?
    ensures var built := BuildResolution(p, c, c.request.approvalId, c.request.approve, c.request.decidedBy);
      && built.Success?
      && var d := built.value;
      && d.payload.ResolutionPayload? && var r := d.payload.resolved;
      && ResolveApprovalLeaves(p, c, StoredResolution(p, r, d.payload.released), LabelsOf(d))
  {
    hide ValidActor, Indexed, SchedulesSound, CleanActor, Strip, ApprovalName;
  }

  /** What is left to refuse once a record could be built at the very projection it is checked at. */
  function LateRefusal(c: Call, stored: int): Verdict {
    if c.now < 0.0 then Some(Malformed) else if c.expected != stored then Some(RevisionConflict) else None
  }

  lemma ResolutionIsChecked(p: Projection, c: Call, d: Draft, e: ControlEvent)
    requires WellFormed(p) && c.request.ResolveApproval?
    requires BuildResolution(p, c, c.request.approvalId, c.request.approve, c.request.decidedBy) == Success(d)
    requires Targets(e, ApprovalTarget, c.request.approvalId) && e.expectedRevision == c.expected
    requires e.priorState == d.prior && e.nextState == d.next
    ensures c.request.approvalId in p.approvals
    ensures CheckApprovalResolved(p, e, d.payload.resolved, d.payload.released, d.payload.expectedAttemptRevision)
         == LateRefusal(c, p.approvals[c.request.approvalId].revision)
  {
    hide ValidActor, Indexed, SchedulesSound, Strip, ApprovalName;
  }

  lemma ResolutionIsRefused(p: Projection, c: Call)
    requires c.request.ResolveApproval?
    ensures match BuildResolution(p, c, c.request.approvalId, c.request.approve, c.request.decidedBy)
      case Failure(error) => ResolveApprovalRefusal(p, c) == Some(error)
      case Success(d) =>
        && c.request.approvalId in p.approvals && d.payload.ResolutionPayload?
        && d.expected == c.expected && d.targetKind == ApprovalTarget && d.targetId == c.request.approvalId
        && ResolveApprovalRefusal(p, c)
           == if Unwritable(c) then Some(Malformed) else LateRefusal(c, p.approvals[c.request.approvalId].revision)
  {
    hide ValidActor, Strip, ApprovalName, ValidText;
  }

  lemma Resolutions(p: Projection, c: Call, meta: Meta)
    requires WellFormed(p) && c.request.ResolveApproval?
    ensures var built := BuildResolution(p, c, c.request.approvalId, c.request.approve, c.request.decidedBy);
      && (built.Failure? ==> ResolveApprovalRefusal(p, c) == Some(built.error))
      && (built.Success? ==>
            var d := built.value;
            && d.payload.ResolutionPayload? && var r := d.payload.resolved;
            && Answers(
                 c, d, CheckApprovalResolved(p, EventOf(d, c, meta), r, d.payload.released, d.payload.expectedAttemptRevision),
                 ResolveApprovalRefusal(p, c))
            && (ResolveApprovalRefusal(p, c).None? ==>
                  ResolveApprovalLeaves(p, c, StoredResolution(p, r, d.payload.released), LabelsOf(d))))
  {
    if ResolveApprovalRefusal(p, c).None? {
      ResolutionsLeave(p, c);
    }
    ResolutionIsRefused(p, c);
    hide BuildResolution, CheckApprovalResolved, ResolveApprovalRefusal, ResolveApprovalLeaves, LateRefusal, ValidActor,
      WellFormed, CleanActor;
    var built := BuildResolution(p, c, c.request.approvalId, c.request.approve, c.request.decidedBy);
    if built.Success? {
      ResolutionIsChecked(p, c, built.value, EventOf(built.value, c, meta));
    }
  }

  lemma Decisions(p: Projection, c: Call, meta: Meta)
    requires WellFormed(p) && c.request.DecideApproval?
    ensures var built := BuildDecision(p, c, c.request.approvalId, c.request.approve, c.request.decidedBy);
      && (built.Failure? ==> DecideApprovalRefusal(p, c) == Some(built.error))
      && (built.Success? ==>
            var d := built.value;
            && d.payload.ApprovalPayload? && var r := d.payload.approval;
            && Answers(c, d, CheckApprovalMoved(p, EventOf(d, c, meta), r), DecideApprovalRefusal(p, c))
            && (DecideApprovalRefusal(p, c).None? ==>
                  DecideApprovalLeaves(p, c, p.(approvals := p.approvals[r.approvalId := r]), LabelsOf(d))))
  {
    hide ValidActor, Indexed, SchedulesSound, CleanActor, Strip, ApprovalName;
  }

  lemma Consumptions(p: Projection, c: Call, meta: Meta)
    requires WellFormed(p) && c.request.ConsumeApproval?
    ensures var built := BuildConsumption(p, c, c.request.approvalId);
      && (built.Failure? ==> ConsumeApprovalRefusal(p, c) == Some(built.error))
      && (built.Success? ==>
            var d := built.value;
            && d.payload.ApprovalPayload? && var r := d.payload.approval;
            && Answers(c, d, CheckApprovalMoved(p, EventOf(d, c, meta), r), ConsumeApprovalRefusal(p, c))
            && (ConsumeApprovalRefusal(p, c).None? ==>
                  ConsumeApprovalLeaves(p, c, p.(approvals := p.approvals[r.approvalId := r]), LabelsOf(d))))
  {
    hide ValidActor, Indexed, SchedulesSound, CleanActor, Strip, ApprovalName;
  }

  lemma Expiries(p: Projection, c: Call, meta: Meta)
    requires WellFormed(p) && c.request.ExpireApproval?
    ensures var built := BuildExpiry(p, c, c.request.approvalId);
      && (built.Failure? ==> ExpireApprovalRefusal(p, c) == Some(built.error))
      && (built.Success? ==>
            var d := built.value;
            && d.payload.ApprovalPayload? && var r := d.payload.approval;
            && Answers(c, d, CheckApprovalMoved(p, EventOf(d, c, meta), r), ExpireApprovalRefusal(p, c))
            && (ExpireApprovalRefusal(p, c).None? ==>
                  ExpireApprovalLeaves(p, c, p.(approvals := p.approvals[r.approvalId := r]), LabelsOf(d))))
  {
    hide ValidActor, Indexed, SchedulesSound, CleanActor, Strip, ApprovalName;
  }

  function ScheduleOf(c: Call): ScheduleSpec
    requires c.request.RegisterSchedule?
  {
    var q := c.request;
    ScheduleSpec(q.scheduleId, q.taskId, q.cadence, q.interval, Some(q.nextRunAt), q.enabled, 0, None, 1, c.now)
  }

  lemma ScheduleRegistrations(p: Projection, c: Call, meta: Meta)
    requires WellFormed(p) && c.request.RegisterSchedule?
    ensures var built := Plain(c, SchedulePayload(ScheduleOf(c)));
      && (built.Failure? ==> RegisterScheduleRefusal(p, c) == Some(built.error))
      && (built.Success? ==>
            var d := built.value;
            && d.payload.SchedulePayload? && var r := d.payload.schedule;
            && Answers(c, d, CheckSchedule(p, EventOf(d, c, meta), r), RegisterScheduleRefusal(p, c))
            && (RegisterScheduleRefusal(p, c).None? ==>
                  RegisterScheduleLeaves(p, c, p.(schedules := p.schedules[r.scheduleId := r]), LabelsOf(d))))
  {
    hide ValidActor, Indexed, ApprovalsShaped, CleanActor;
  }

  lemma ScheduleUpdates(p: Projection, c: Call, meta: Meta)
    requires WellFormed(p) && c.request.UpdateSchedule?
    ensures var built := BuildScheduleUpdate(p, c, c.request.scheduleId, c.request.enable, c.request.moveTo);
      && (built.Failure? ==> UpdateScheduleRefusal(p, c) == Some(built.error))
      && (built.Success? ==>
            var d := built.value;
            && d.payload.SchedulePayload? && var r := d.payload.schedule;
            && Answers(c, d, CheckSchedule(p, EventOf(d, c, meta), r), UpdateScheduleRefusal(p, c))
            && (UpdateScheduleRefusal(p, c).None? ==>
                  UpdateScheduleLeaves(p, c, p.(schedules := p.schedules[r.scheduleId := r]), LabelsOf(d))))
  {
    hide ValidActor, Indexed, ApprovalsShaped, CleanActor;
  }

  lemma ScheduleClaimsLeave(p: Projection, c: Call)
    requires WellFormed(p) && c.request.ClaimSchedule? && ClaimScheduleRefusal(p, c).None?
    ensures var built := BuildClaim(p, c, c.request.scheduleId);
      && built.Success?
      && var d := built.value;
      && d.payload.ClaimPayload? && var r := d.payload.claimed;
      && ClaimScheduleLeaves(p, c, p.(schedules := p.schedules[r.scheduleId := r]), LabelsOf(d))
  {
    var id := c.request.scheduleId;
    if id in p.schedules && Due(p.schedules[id], c.now) && p.schedules[id].cadence.Fixed? {
      var tick, interval := p.schedules[id].nextRunAt.value, p.schedules[id].interval.value;
      NextTickIgnoresPath(tick, 0, c.now, interval);
      NextTickIsNear(tick, c.now, interval);
    }
    hide ValidActor, Indexed, ApprovalsShaped, CleanActor, NextTick, LatticeTick;
  }

  lemma ClaimIsChecked(p: Projection, c: Call, d: Draft, e: ControlEvent)
    requires WellFormed(p) && c.request.ClaimSchedule? && BuildClaim(p, c, c.request.scheduleId) == Success(d)
    requires Targets(e, ScheduleTarget, c.request.scheduleId) && e.expectedRevision == c.expected && e.action.ScheduleClaimed?
    ensures c.request.scheduleId in p.schedules
    ensures CheckScheduleClaimed(p, e, d.payload.claimed, d.payload.claimedFor)
         == LateRefusal(c, p.schedules[c.request.scheduleId].revision)
    ensures c.now >= 0.0
  {
    var s := p.schedules[c.request.scheduleId];
    if s.cadence.Fixed? {
      NextTickIgnoresPath(s.nextRunAt.value, 0, c.now, s.interval.value);
      NextTickIsNear(s.nextRunAt.value, c.now, s.interval.value);
    }
    hide ValidActor, Indexed, ApprovalsShaped, NextTick, LatticeTick, AllKeyed, Typed;
  }

  lemma ClaimIsRefused(p: Projection, c: Call)
    requires WellFormed(p) && c.request.ClaimSchedule?
    ensures match BuildClaim(p, c, c.request.scheduleId)
      case Failure(error) => ClaimScheduleRefusal(p, c) == Some(error)
      case Success(d) =>
        && c.request.scheduleId in p.schedules && d.payload.ClaimPayload? && d.action.ScheduleClaimed?
        && d.expected == c.expected && d.targetKind == ScheduleTarget && d.targetId == c.request.scheduleId
        && (c.now >= 0.0 ==>
              ClaimScheduleRefusal(p, c)
              == if Unwritable(c) then Some(Malformed) else LateRefusal(c, p.schedules[c.request.scheduleId].revision))
  {
    hide ValidActor, Indexed, ApprovalsShaped, NextTick, AllKeyed, Typed;
  }

  lemma ScheduleClaims(p: Projection, c: Call, meta: Meta)
    requires WellFormed(p) && c.request.ClaimSchedule?
    ensures var built := BuildClaim(p, c, c.request.scheduleId);
      && (built.Failure? ==> ClaimScheduleRefusal(p, c) == Some(built.error))
      && (built.Success? ==>
            var d := built.value;
            && d.payload.ClaimPayload? && var r := d.payload.claimed;
            && Answers(c, d, CheckScheduleClaimed(p, EventOf(d, c, meta), r, d.payload.claimedFor), ClaimScheduleRefusal(p, c))
            && (ClaimScheduleRefusal(p, c).None? ==>
                  ClaimScheduleLeaves(p, c, p.(schedules := p.schedules[r.scheduleId := r]), LabelsOf(d))))
  {
    if ClaimScheduleRefusal(p, c).None? {
      ScheduleClaimsLeave(p, c);
    }
    ClaimIsRefused(p, c);
    hide BuildClaim, CheckScheduleClaimed, ClaimScheduleRefusal, ClaimScheduleLeaves, LateRefusal, ValidActor,
      WellFormed, CleanActor;
    var built := BuildClaim(p, c, c.request.scheduleId);
    if built.Success? {
      ClaimIsChecked(p, c, built.value, EventOf(built.value, c, meta));
    }
  }

  lemma RegistriesDo(p: Projection, c: Call, meta: Meta)
    requires WellFormed(p)
    requires c.request.CreateTask? || c.request.MergeTask? || c.request.RegisterWorkspace? || c.request.RegisterAgent?
             || c.request.RegisterBudget? || c.request.CreateContract?
    ensures DoesAsSaid(p, c, meta)
  {
    hide WellFormed, ValidActor, Due, NextTick, LatticeTick, Changed, ApprovalBecomes;
    hide BuildMerge, BuildWorkspace, BuildAgent, BuildBudget, BuildAttempt, BuildTransition, BuildApprovalRequest,
      BuildResolution, BuildDecision, BuildConsumption, BuildExpiry, BuildScheduleUpdate, BuildClaim;
    hide CheckTaskCreated, CheckTaskMerged, CheckContractCreated, CheckAgentRegistered, CheckWorkspaceRegistered,
      CheckAttemptCreated, CheckAttemptTransitioned, CheckApprovalRequested, CheckApprovalResolved, CheckApprovalMoved,
      CheckBudgetRegistered, CheckSchedule, CheckScheduleClaimed;
    hide CreateTaskRefusal, MergeTaskRefusal, RegisterWorkspaceRefusal, RegisterAgentRefusal, RegisterBudgetRefusal,
      CreateContractRefusal, CreateAttemptRefusal, TransitionAttemptRefusal, RequestApprovalRefusal, ResolveApprovalRefusal,
      DecideApprovalRefusal, ConsumeApprovalRefusal, ExpireApprovalRefusal, RegisterScheduleRefusal, UpdateScheduleRefusal,
      ClaimScheduleRefusal;
    hide CreateTaskLeaves, MergeTaskLeaves, RegisterWorkspaceLeaves, RegisterAgentLeaves, RegisterBudgetLeaves,
      CreateContractLeaves, CreateAttemptLeaves, TransitionAttemptLeaves, RequestApprovalLeaves, ResolveApprovalLeaves,
      DecideApprovalLeaves, ConsumeApprovalLeaves, ExpireApprovalLeaves, RegisterScheduleLeaves, UpdateScheduleLeaves,
      ClaimScheduleLeaves;
    if Build(p, c).Success? {
      DraftKind(p, c, Build(p, c).value);
    }
    match c.request {
      case CreateTask(_, _) => TaskCreations(p, c, meta);
      case MergeTask(_, _) => TaskMerges(p, c, meta);
      case RegisterWorkspace(_, _, _, _) => WorkspaceRegistrations(p, c, meta);
      case RegisterAgent(_, _, _) => AgentRegistrations(p, c, meta);
      case RegisterBudget(_, _, _, _, _, _, _) => BudgetRegistrations(p, c, meta);
      case CreateContract(_, _, _, _, _, _) => ContractCreations(p, c, meta);
    }
  }

  lemma AttemptsDo(p: Projection, c: Call, meta: Meta)
    requires WellFormed(p)
    requires c.request.CreateAttempt? || c.request.TransitionAttempt? || c.request.RequestApproval? || c.request.ResolveApproval?
    ensures DoesAsSaid(p, c, meta)
  {
    hide WellFormed, ValidActor, Due, NextTick, LatticeTick, Changed, ApprovalBecomes;
    hide BuildMerge, BuildWorkspace, BuildAgent, BuildBudget, BuildAttempt, BuildTransition, BuildApprovalRequest,
      BuildResolution, BuildDecision, BuildConsumption, BuildExpiry, BuildScheduleUpdate, BuildClaim;
    hide CheckTaskCreated, CheckTaskMerged, CheckContractCreated, CheckAgentRegistered, CheckWorkspaceRegistered,
      CheckAttemptCreated, CheckAttemptTransitioned, CheckApprovalRequested, CheckApprovalResolved, CheckApprovalMoved,
      CheckBudgetRegistered, CheckSchedule, CheckScheduleClaimed;
    hide CreateTaskRefusal, MergeTaskRefusal, RegisterWorkspaceRefusal, RegisterAgentRefusal, RegisterBudgetRefusal,
      CreateContractRefusal, CreateAttemptRefusal, TransitionAttemptRefusal, RequestApprovalRefusal, ResolveApprovalRefusal,
      DecideApprovalRefusal, ConsumeApprovalRefusal, ExpireApprovalRefusal, RegisterScheduleRefusal, UpdateScheduleRefusal,
      ClaimScheduleRefusal;
    hide CreateTaskLeaves, MergeTaskLeaves, RegisterWorkspaceLeaves, RegisterAgentLeaves, RegisterBudgetLeaves,
      CreateContractLeaves, CreateAttemptLeaves, TransitionAttemptLeaves, RequestApprovalLeaves, ResolveApprovalLeaves,
      DecideApprovalLeaves, ConsumeApprovalLeaves, ExpireApprovalLeaves, RegisterScheduleLeaves, UpdateScheduleLeaves,
      ClaimScheduleLeaves;
    if Build(p, c).Success? {
      DraftKind(p, c, Build(p, c).value);
    }
    match c.request {
      case CreateAttempt(_, _, _, _, _, _) => AttemptCreations(p, c, meta);
      case TransitionAttempt(_, _) => AttemptTransitions(p, c, meta);
      case RequestApproval(_, _) => ApprovalRequests(p, c, meta);
      case ResolveApproval(_, _, _) => Resolutions(p, c, meta);
    }
  }

  lemma DecisionsDo(p: Projection, c: Call, meta: Meta)
    requires WellFormed(p)
    requires c.request.DecideApproval? || c.request.ConsumeApproval? || c.request.ExpireApproval?
    ensures DoesAsSaid(p, c, meta)
  {
    hide WellFormed, ValidActor, Due, NextTick, LatticeTick, Changed, ApprovalBecomes;
    hide BuildMerge, BuildWorkspace, BuildAgent, BuildBudget, BuildAttempt, BuildTransition, BuildApprovalRequest,
      BuildResolution, BuildDecision, BuildConsumption, BuildExpiry, BuildScheduleUpdate, BuildClaim;
    hide CheckTaskCreated, CheckTaskMerged, CheckContractCreated, CheckAgentRegistered, CheckWorkspaceRegistered,
      CheckAttemptCreated, CheckAttemptTransitioned, CheckApprovalRequested, CheckApprovalResolved, CheckApprovalMoved,
      CheckBudgetRegistered, CheckSchedule, CheckScheduleClaimed;
    hide CreateTaskRefusal, MergeTaskRefusal, RegisterWorkspaceRefusal, RegisterAgentRefusal, RegisterBudgetRefusal,
      CreateContractRefusal, CreateAttemptRefusal, TransitionAttemptRefusal, RequestApprovalRefusal, ResolveApprovalRefusal,
      DecideApprovalRefusal, ConsumeApprovalRefusal, ExpireApprovalRefusal, RegisterScheduleRefusal, UpdateScheduleRefusal,
      ClaimScheduleRefusal;
    hide CreateTaskLeaves, MergeTaskLeaves, RegisterWorkspaceLeaves, RegisterAgentLeaves, RegisterBudgetLeaves,
      CreateContractLeaves, CreateAttemptLeaves, TransitionAttemptLeaves, RequestApprovalLeaves, ResolveApprovalLeaves,
      DecideApprovalLeaves, ConsumeApprovalLeaves, ExpireApprovalLeaves, RegisterScheduleLeaves, UpdateScheduleLeaves,
      ClaimScheduleLeaves;
    if Build(p, c).Success? {
      DraftKind(p, c, Build(p, c).value);
    }
    match c.request {
      case DecideApproval(_, _, _) => Decisions(p, c, meta);
      case ConsumeApproval(_) => Consumptions(p, c, meta);
      case ExpireApproval(_) => Expiries(p, c, meta);
    }
  }

  lemma SchedulesDo(p: Projection, c: Call, meta: Meta)
    requires WellFormed(p)
    requires c.request.RegisterSchedule? || c.request.UpdateSchedule? || c.request.ClaimSchedule?
    ensures DoesAsSaid(p, c, meta)
  {
    hide WellFormed, ValidActor, Due, NextTick, LatticeTick, Changed, ApprovalBecomes;
    hide BuildMerge, BuildWorkspace, BuildAgent, BuildBudget, BuildAttempt, BuildTransition, BuildApprovalRequest,
      BuildResolution, BuildDecision, BuildConsumption, BuildExpiry, BuildScheduleUpdate, BuildClaim;
    hide CheckTaskCreated, CheckTaskMerged, CheckContractCreated, CheckAgentRegistered, CheckWorkspaceRegistered,
      CheckAttemptCreated, CheckAttemptTransitioned, CheckApprovalRequested, CheckApprovalResolved, CheckApprovalMoved,
      CheckBudgetRegistered, CheckSchedule, CheckScheduleClaimed;
    hide CreateTaskRefusal, MergeTaskRefusal, RegisterWorkspaceRefusal, RegisterAgentRefusal, RegisterBudgetRefusal,
      CreateContractRefusal, CreateAttemptRefusal, TransitionAttemptRefusal, RequestApprovalRefusal, ResolveApprovalRefusal,
      DecideApprovalRefusal, ConsumeApprovalRefusal, ExpireApprovalRefusal, RegisterScheduleRefusal, UpdateScheduleRefusal,
      ClaimScheduleRefusal;
    hide CreateTaskLeaves, MergeTaskLeaves, RegisterWorkspaceLeaves, RegisterAgentLeaves, RegisterBudgetLeaves,
      CreateContractLeaves, CreateAttemptLeaves, TransitionAttemptLeaves, RequestApprovalLeaves, ResolveApprovalLeaves,
      DecideApprovalLeaves, ConsumeApprovalLeaves, ExpireApprovalLeaves, RegisterScheduleLeaves, UpdateScheduleLeaves,
      ClaimScheduleLeaves;
    if Build(p, c).Success? {
      DraftKind(p, c, Build(p, c).value);
    }
    match c.request {
      case RegisterSchedule(_, _, _, _, _, _) => ScheduleRegistrations(p, c, meta);
      case UpdateSchedule(_, _, _) => ScheduleUpdates(p, c, meta);
      case ClaimSchedule(_) => ScheduleClaims(p, c, meta);
    }
  }

  lemma EveryMethodDoes(p: Projection, c: Call, meta: Meta)
    requires WellFormed(p)
    ensures DoesAsSaid(p, c, meta)
  {
    hide DoesAsSaid, WellFormed;
    if c.request.CreateTask? || c.request.MergeTask? || c.request.RegisterWorkspace? || c.request.RegisterAgent?
       || c.request.RegisterBudget? || c.request.CreateContract?
    {
      RegistriesDo(p, c, meta);
    } else if c.request.CreateAttempt? || c.request.TransitionAttempt? || c.request.RequestApproval?
              || c.request.ResolveApproval?
    {
      AttemptsDo(p, c, meta);
    } else if c.request.DecideApproval? || c.request.ConsumeApproval? || c.request.ExpireApproval? {
      DecisionsDo(p, c, meta);
    } else {
      SchedulesDo(p, c, meta);
    }
  }

  /** What an event says about the call it records. */
  ghost predicate Reports(e: ControlEvent, c: Call, meta: Meta) {
    && e.eventId == meta.eventId && e.occurredAt == meta.occurredAt && e.idempotencyKey == c.key
    && e.actor.kind == c.actor.kind && e.actor.id == Strip(c.actor.id)
  }

  /**
   A call with a key nobody used, done in one step at a projection some log leads to: it raises exactly the error said
   above, without effect, or it commits, and then leaves the records said above and one more event.
   */
  lemma FreshCallsDoAsSaid(log: seq<ControlEvent>, c: Call, meta: Meta)
    requires c.key !in Fold(EMPTY, log).idempotency
    ensures var p := Fold(EMPTY, log); var result := Atomic(p, c, meta);
      if Refusal(p, c, meta).Some? then result == Raised(Refusal(p, c, meta).value)
      else
        && result.Committed? && Reports(result.event, c, meta)
        && var q := After(p, result.event);
        && Leaves(p, c, q.(events := p.events, idempotency := p.idempotency),
                  Labels(result.event.priorState, result.event.nextState))
        && q.events == p.events + [result.event] && q.idempotency == p.idempotency[c.key := result.event]
  {
    hide Fold, WellFormed, Build, Check, Store, ValidActor, Refusal, Leaves;
    var p := Fold(EMPTY, log);
    EveryLogIsWellFormed(log);
    EveryMethodDoes(p, c, meta);
    if Build(p, c).Success? {
      StoreKeepsIndex(p, Build(p, c).value.payload);
    }
  }
}
