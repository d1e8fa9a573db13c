/**
 The durable records of the control plane. A record is modelled after its `from_dict` validator has
 typed it; `Decodable` keeps the numeric part of that validation (identifier, text and path syntax
 is summarised by `UndecodedPayload`). Digests are modelled by the value that is digested, which is
 the assumption that SHA-256 does not collide.
 */
module ControlRecords {
  import opened Common

  type Id = string

  datatype Origin = Observed | Planned
  datatype Execution = Pending | Launching | Running | CancelRequested | Succeeded | Failed | Cancelled | Lost
  datatype Outcome = Unknown | Reported | Verified | Finding | Blocked
  datatype Control = Ready | AwaitingApproval | PolicyHold | ControlFailure
  datatype ApprovalState = Undecided | Approved | Rejected | Expired | Withdrawn | Consumed
  datatype Cadence = OneShot | Fixed

  datatype TaskRecord = TaskRecord(taskId: Id, origin: Origin, createdAt: real, revision: int, mergedInto: Option<Id>) {
    predicate Active() { mergedInto.None? }
    predicate Decodable() { revision >= 1 && createdAt >= 0.0 }
  }

  datatype TaskContract = TaskContract(
    taskId: Id, revision: int, objective: string, workspaceId: Id, permissionEnvelope: map<string, Json>,
    budgetPolicyIds: seq<Id>, successChecks: seq<string>, createdAt: real)
  {
    predicate Decodable() { revision >= 1 && createdAt >= 0.0 }

    /** `contract_requires_launch_approval`. */
    predicate RequiresLaunchApproval() {
      || Get(permissionEnvelope, "launch_approval_required") == JBool(true)
      || Get(permissionEnvelope, "mutation_mode") == JString("workspace_write")
    }
  }

  datatype AgentProfile = AgentProfile(
    displayName: string, adapter: Id, executionBackend: Id, argvTemplate: seq<string>, capabilities: seq<string>)

  datatype AgentSpec = AgentSpec(agentId: Id, profile: AgentProfile, enabled: bool, revision: int, updatedAt: real) {
    predicate Decodable() { revision >= 1 && updatedAt >= 0.0 }
  }

  datatype Workspace = Workspace(
    workspaceId: Id, canonicalRoot: string, storeDir: Option<string>, enabled: bool, revision: int, updatedAt: real)
  {
    predicate Decodable() { revision >= 1 && updatedAt >= 0.0 }
  }

  datatype AttemptIdentity = AttemptIdentity(
    taskId: Id, contractRevision: int, agentId: Id, agentRevision: int, workspaceId: Id)

  /** The seven fields that prove which process an attempt owns. */
  datatype ProcessProof = ProcessProof(
    pid: Option<int>, processGroupId: Option<int>, birthTime: Option<real>, executable: Option<string>,
    cwd: Option<string>, nonceHash: Option<string>, startedAt: Option<real>)
  {
    predicate Empty() {
      pid.None? && processGroupId.None? && birthTime.None? && executable.None? && cwd.None? && nonceHash.None? && startedAt.None?
    }
    predicate Full() {
      pid.Some? && processGroupId.Some? && birthTime.Some? && executable.Some? && cwd.Some? && nonceHash.Some? && startedAt.Some?
    }
    predicate Decodable() {
      && (pid.Some? ==> pid.value > 0)
      && (processGroupId.Some? ==> processGroupId.value > 0)
      && (birthTime.Some? ==> birthTime.value > 0.0)
      && (startedAt.Some? ==> startedAt.value >= 0.0)
    }
  }

  const NO_PROOF := ProcessProof(None, None, None, None, None, None, None)

  // ---------- Texts ----------

  /** `str.isspace` for one character. */
  predicate IsSpace(c: char) {
    || '\t' <= c <= '\r' || '\U{1c}' <= c <= ' ' || c == '\U{85}' || c == '\U{a0}' || c == '\U{1680}'
    || '\U{2000}' <= c <= '\U{200a}' || c == '\U{2028}' || c == '\U{2029}' || c == '\U{202f}' || c == '\U{205f}'
    || c == '\U{3000}'
  }

  function StripLeft(text: string): string
    decreases |text|
  {
    if text != "" && IsSpace(text[0]) then StripLeft(text[1..]) else text
  }

  function StripRight(text: string): string
    decreases |text|
  {
    if text != "" && IsSpace(text[|text| - 1]) then StripRight(text[..|text| - 1]) else text
  }

  /** `str.strip`: every stored text is cleaned like this. */
  function Strip(text: string): string { StripRight(StripLeft(text)) }

  predicate AllSpace(text: string) { forall i :: 0 <= i < |text| ==> IsSpace(text[i]) }

  lemma {:induction false} StripLeftMeaning(text: string) returns (before: string)
    ensures text == before + StripLeft(text) && AllSpace(before)
    ensures StripLeft(text) == "" || !IsSpace(StripLeft(text)[0])
    decreases |text|
  {
    before := "";
    if text != "" && IsSpace(text[0]) {
      var rest := StripLeftMeaning(text[1..]);
      before := [text[0]] + rest;
      assert text == [text[0]] + text[1..];
    }
  }

  lemma {:induction false} StripRightMeaning(text: string) returns (after: string)
    ensures text == StripRight(text) + after && AllSpace(after) && StripRight(text) <= text
    ensures StripRight(text) == "" || !IsSpace(StripRight(text)[|StripRight(text)| - 1])
    decreases |text|
  {
    after := "";
    if text != "" && IsSpace(text[|text| - 1]) {
      var n := |text| - 1;
      var rest := StripRightMeaning(text[..n]);
      after := rest + [text[n]];
      assert text == text[..n] + [text[n]];
    } else {
      assert text + "" == text;
    }
  }

  /** Stripping takes white space off both ends, all of it and nothing else. */
  lemma StripMeaning(text: string) returns (before: string, after: string)
    ensures text == before + Strip(text) + after && AllSpace(before) && AllSpace(after)
    ensures var s := Strip(text); s == "" || (!IsSpace(s[0]) && !IsSpace(s[|s| - 1]))
  {
    before := StripLeftMeaning(text);
    after := StripRightMeaning(StripLeft(text));
    assert before + (Strip(text) + after) == before + Strip(text) + after;
  }

  /** An optional text that is blank is stored as absent. */
  function StripOptional(text: Option<string>): Option<string> {
    if text.None? || Strip(text.value) == "" then None else Some(Strip(text.value))
  }

  function StripAll(texts: seq<string>): seq<string> {
    seq(|texts|, i requires 0 <= i < |texts| => Strip(texts[i]))
  }

  /** What `_text` accepts once it is cleaned. */
  predicate ValidText(cleaned: string, maximum: nat) {
    cleaned != "" && |cleaned| <= maximum && forall i :: 0 <= i < |cleaned| ==> cleaned[i] >= ' ' && cleaned[i] != '\U{7f}'
  }

  /** An optional text that Python reads as true. */
  predicate Truthy(text: Option<string>) { text.Some? && text.value != "" }

  datatype RunAttempt = RunAttempt(
    attemptId: Id, identity: AttemptIdentity, execution: Execution, outcome: Outcome, control: Control,
    manifestId: Option<Id>, proof: ProcessProof, endedAt: Option<real>, exitCode: Option<int>, revision: int,
    reason: Option<string>)
  {
    predicate Decodable() {
      && identity.contractRevision >= 1 && identity.agentRevision >= 1 && revision >= 1
      && proof.Decodable()
      && (endedAt.Some? ==> endedAt.value >= 0.0)
    }

    /** `has_complete_process_proof`; the start time is not part of it, the manifest is. */
    predicate HasCompleteProcessProof() {
      && proof.pid.Some? && proof.processGroupId.Some? && proof.birthTime.Some?
      && Truthy(proof.executable) && Truthy(proof.cwd) && Truthy(proof.nonceHash) && Truthy(manifestId)
    }
  }

  datatype ApprovalScope = ApprovalScope(
    taskId: Id, attemptId: Option<Id>, kind: Id, requestedAction: Id, requestedBy: string, expiresAt: real)

  datatype ApprovalRequest = ApprovalRequest(
    approvalId: Id, scope: ApprovalScope, state: ApprovalState, decidedBy: Option<string>,
    decidedAt: Option<real>, consumedAt: Option<real>, revision: int)
  {
    predicate Decodable() {
      && revision >= 1 && scope.expiresAt >= 0.0
      && (decidedAt.Some? ==> decidedAt.value >= 0.0)
      && (consumedAt.Some? ==> consumedAt.value >= 0.0)
    }
  }

  datatype BudgetPolicy = BudgetPolicy(
    policyId: Id, scope: Id, metric: Id, limit: real, basis: Id, action: Id, enabled: bool, revision: int, updatedAt: real)
  {
    predicate Decodable() { limit > 0.0 && revision >= 1 && updatedAt >= 0.0 }

    /** A hard action needs a basis that may carry it. */
    predicate BasisFits() {
      action == "cancel" || action == "block" ==> basis == "provider_billed" || basis == "conservative_approved"
    }
  }

  datatype ScheduleSpec = ScheduleSpec(
    scheduleId: Id, taskId: Id, cadence: Cadence, interval: Option<real>, nextRunAt: Option<real>, enabled: bool,
    claimCount: int, lastClaimedAt: Option<real>, revision: int, updatedAt: real)
  {
    predicate Decodable() {
      && (cadence.Fixed? ==> interval.Some? && interval.value >= 1.0)
      && (cadence.OneShot? ==> interval.None?)
      && (nextRunAt.Some? ==> nextRunAt.value >= 0.0)
      && claimCount >= 0
      && (lastClaimedAt.Some? ==> lastClaimedAt.value >= 0.0)
      && revision >= 1 && updatedAt >= 0.0
    }
  }

  // ---------- Events ----------

  datatype Action =
    | TaskCreated | TaskMerged | ContractCreated | AgentRegistered | WorkspaceRegistered
    | AttemptCreated | AttemptTransitioned
    | ApprovalRequested | ApprovalResolved | ApprovalDecided | ApprovalConsumed | ApprovalExpired | ApprovalCancelled
    | BudgetRegistered | ScheduleRegistered | ScheduleUpdated | ScheduleClaimed
    | UnsupportedAction(name: string)

  datatype TargetKind =
    | TaskTarget | ContractTarget | AgentTarget | WorkspaceTarget | AttemptTarget | ApprovalTarget | BudgetTarget
    | ScheduleTarget | OtherTarget(name: string)

  datatype Payload =
    | TaskPayload(task: TaskRecord)
    | ContractPayload(contract: TaskContract)
    | AgentPayload(agent: AgentSpec)
    | WorkspacePayload(workspace: Workspace)
    | AttemptPayload(attempt: RunAttempt)
    | ApprovalPayload(approval: ApprovalRequest)
    | ResolutionPayload(resolved: ApprovalRequest, released: RunAttempt, expectedAttemptRevision: int)
    | BudgetPayload(budget: BudgetPolicy)
    | SchedulePayload(schedule: ScheduleSpec)
    | ClaimPayload(claimed: ScheduleSpec, claimedFor: real)
    | UndecodedPayload

  /** The inputs of one store method call: what the caller asks for, without clock readings. */
  datatype Request =
    | CreateTask(taskId: Id, origin: Origin)
    | MergeTask(taskId: Id, intoTaskId: Id)
    | RegisterWorkspace(workspaceId: Id, canonicalRoot: string, storeDir: Option<string>, enabled: bool)
    | RegisterAgent(agentId: Id, profile: AgentProfile, enabled: bool)
    | RegisterBudget(policyId: Id, scope: Id, metric: Id, limit: real, basis: Id, budgetAction: Id, enabled: bool)
    | CreateContract(taskId: Id, objective: string, workspaceId: Id, permissionEnvelope: map<string, Json>,
                     budgetPolicyIds: seq<Id>, successChecks: seq<string>)
    | CreateAttempt(attemptId: Id, taskId: Id, agentId: Id, workspaceId: Id, contractRevision: int,
                    initialControl: Option<Control>)
    | TransitionAttempt(attemptId: Id, changes: AttemptChanges)
    | RequestApproval(approvalId: Id, approvalScope: ApprovalScope)
    | ResolveApproval(approvalId: Id, approve: bool, decidedBy: string)
    | DecideApproval(approvalId: Id, approve: bool, decidedBy: string)
    | ConsumeApproval(approvalId: Id)
    | ExpireApproval(approvalId: Id)
    | RegisterSchedule(scheduleId: Id, taskId: Id, cadence: Cadence, interval: Option<real>, nextRunAt: real, enabled: bool)
    | UpdateSchedule(scheduleId: Id, enable: Option<bool>, moveTo: Option<real>)
    | ClaimSchedule(scheduleId: Id)

  /** Optional arguments of `transition_attempt`; an absent one keeps the current value. */
  datatype AttemptChanges = AttemptChanges(
    execution: Option<Execution>, outcome: Option<Outcome>, control: Option<Control>, manifestId: Option<Id>,
    proof: ProcessProof, endedAt: Option<real>, exitCode: Option<int>, reason: Option<string>)

  /** The operation payload an idempotency key is bound to. */
  datatype Operation =
    | Inputs(request: Request)
    | AttemptInputs(request: Request, agentRevision: Option<int>, startsAs: Option<Control>)  // request.initialControl is None
    | ClaimInputs(scheduleId: Id, claimedFor: Option<real>)

  datatype Actor = Actor(kind: Id, id: string)

  datatype Intent = Intent(
    action: Action, targetKind: TargetKind, targetId: Id, expectedRevision: int, actor: Actor,
    priorState: Option<string>, nextState: Option<string>, operation: Operation)

  /** `record_hash` is a digest of all other fields, so equal hashes are modelled by equal events. */
  datatype ControlEvent = ControlEvent(
    eventId: Id, occurredAt: real, actor: Actor, action: Action, targetKind: TargetKind, targetId: Id,
    expectedRevision: int, priorState: Option<string>, nextState: Option<string>, idempotencyKey: string,
    operationDigest: Intent, payload: Payload)

  datatype ControlError = Malformed | NotFound | RevisionConflict | InvalidTransition | IdempotencyConflict

  // ---------- Transition tables ----------

  function ExecutionTransitions(s: Execution): set<Execution> {
    match s
    case Pending => {Launching, Cancelled, Lost}
    case Launching => {Running, Failed, Lost, CancelRequested}
    case Running => {Succeeded, Failed, Lost, CancelRequested}
    case CancelRequested => {Cancelled, Failed, Lost}
    case Succeeded | Failed | Cancelled | Lost => {}
  }

  function OutcomeTransitions(s: Outcome): set<Outcome> {
    match s
    case Unknown => {Reported, Verified, Finding, Blocked}
    case Reported => {Verified, Finding, Blocked}
    case Verified => {Finding, Blocked}
    case Finding => {Verified, Blocked}
    case Blocked => {Finding, Verified}
  }

  function ControlTransitions(s: Control): set<Control> {
    match s
    case Ready => {AwaitingApproval, PolicyHold, ControlFailure}
    case AwaitingApproval => {Ready, PolicyHold, ControlFailure}
    case PolicyHold => {Ready, ControlFailure}
    case ControlFailure => {Ready}
  }

  function ApprovalTransitions(s: ApprovalState): set<ApprovalState> {
    match s
    case Undecided => {Approved, Rejected, Expired, Withdrawn}
    case Approved => {Consumed, Expired, Withdrawn}
    case Rejected | Expired | Withdrawn | Consumed => {}
  }

  predicate Terminal(s: Execution) { s.Succeeded? || s.Failed? || s.Cancelled? || s.Lost? }

  function ExecutionName(s: Execution): string {
    match s
    case Pending => "pending" case Launching => "launching" case Running => "running"
    case CancelRequested => "cancel_requested" case Succeeded => "succeeded" case Failed => "failed"
    case Cancelled => "cancelled" case Lost => "lost"
  }

  function ApprovalName(s: ApprovalState): string {
    match s
    case Undecided => "pending" case Approved => "approved" case Rejected => "rejected"
    case Expired => "expired" case Withdrawn => "cancelled" case Consumed => "consumed"
  }

  /** The labels an event carries are absent or name the states of its records. */
  predicate LabelsFit(e: ControlEvent, prior: string, next: string) {
    && (e.priorState.Some? ==> e.priorState.value == prior)
    && (e.nextState.Some? ==> e.nextState.value == next)
  }
}
