/** A log, acceptable to the reducer, in which granting an approval moves the attempt to another task. */
module CrossedApproval {
  import opened Common
  import opened ControlRecords
  import opened ControlReducer

  /** An event of the local owner; the operation bound to its key does not matter here. */
  function Plain(action: Action, kind: TargetKind, id: Id, revision: int, key: string, payload: Payload): (e: ControlEvent)
    ensures e.idempotencyKey == key && e.payload == payload
  {
    var actor := Actor("human", "local");
    var intent := Intent(action, kind, id, revision, actor, None, None, Inputs(CreateTask(id, Planned)));
    ControlEvent(key, 1.0, actor, action, kind, id, revision, None, None, key, intent, payload)
  }

  function NewTask(id: Id): TaskRecord { TaskRecord(id, Planned, 1.0, 1, None) }

  const SITE := Workspace("w", "/w", None, true, 1, 1.0)
  const AGENT := AgentSpec("g", AgentProfile("G", "x", "y", ["g"], []), true, 1, 1.0)

  function Terms(task: Id): TaskContract { TaskContract(task, 1, "o", "w", map[], [], [], 1.0) }

  function Waiting(task: Id): RunAttempt {
    RunAttempt("a", AttemptIdentity(task, 1, "g", 1, "w"), Pending, Outcome.Unknown, AwaitingApproval, None, NO_PROOF, None, None, 1, None)
  }

  function Asked(task: Id): ApprovalRequest {
    ApprovalRequest("p", ApprovalScope(task, Some("a"), "tool", "launch", "owner", 9.0), Undecided, None, None, None, 1)
  }

  function Granted(task: Id): ApprovalRequest {
    Asked(task).(state := Consumed, decidedBy := Some("owner"), decidedAt := Some(2.0), consumedAt := Some(2.0), revision := 2)
  }

  function Grant(task: Id, key: string): (e: ControlEvent)
    ensures e.idempotencyKey == key && e.payload.ResolutionPayload? && e.payload.released == Waiting(task).(control := Ready, revision := 2)
  {
    Plain(ApprovalResolved, ApprovalTarget, "p", 1, key,
      ResolutionPayload(Granted(task), Waiting(task).(control := Ready, revision := 2), 1))
  }

  /** An attempt of task t1 waits for an approval that was requested for task t2, and the approval is granted. */
  function Crossed(t1: Id, t2: Id, keys: seq<string>): seq<ControlEvent>
    requires |keys| == 8
  {
    [ Plain(TaskCreated, TaskTarget, t1, 0, keys[0], TaskPayload(NewTask(t1))),
      Plain(TaskCreated, TaskTarget, t2, 0, keys[1], TaskPayload(NewTask(t2))),
      Plain(WorkspaceRegistered, WorkspaceTarget, "w", 0, keys[2], WorkspacePayload(SITE)),
      Plain(AgentRegistered, AgentTarget, "g", 0, keys[3], AgentPayload(AGENT)),
      Plain(ContractCreated, ContractTarget, t1, 0, keys[4], ContractPayload(Terms(t1))),
      Plain(AttemptCreated, AttemptTarget, "a", 0, keys[5], AttemptPayload(Waiting(t1))),
      Plain(ApprovalRequested, ApprovalTarget, "p", 0, keys[6], ApprovalPayload(Asked(t2))),
      Grant(t2, keys[7]) ]
  }

  /** One accepted event of a log. */
  lemma Accepted(log: seq<ControlEvent>, i: nat, p: Projection)
    requires i < |log| && Fold(EMPTY, log[..i]) == p
    requires log[i].idempotencyKey !in p.idempotency && Check(p, log[i]).None?
    ensures Fold(EMPTY, log[..i + 1]) == Record(Store(p, log[i].payload), log[i])
  {
    assert log[..i + 1][..i] == log[..i];
    hide Check;
  }

  // ---------- Each event passes the checks ----------

  lemma TaskPasses(p: Projection, id: Id, key: string)
    requires id !in p.tasks
    ensures Check(p, Plain(TaskCreated, TaskTarget, id, 0, key, TaskPayload(NewTask(id)))).None?
  {
  }

  lemma SitePasses(p: Projection, key: string)
    requires "w" !in p.workspaces
    ensures Check(p, Plain(WorkspaceRegistered, WorkspaceTarget, "w", 0, key, WorkspacePayload(SITE))).None?
  {
  }

  lemma AgentPasses(p: Projection, key: string)
    requires "g" !in p.agents
    ensures Check(p, Plain(AgentRegistered, AgentTarget, "g", 0, key, AgentPayload(AGENT))).None?
  {
  }

  lemma TermsPass(p: Projection, task: Id, key: string)
    requires ActiveTask(p, task) && "w" in p.workspaces && task !in p.contracts
    ensures Check(p, Plain(ContractCreated, ContractTarget, task, 0, key, ContractPayload(Terms(task)))).None?
  {
  }

  predicate SetUp(p: Projection, task: Id) {
    && ActiveTask(p, task) && task in p.contracts && p.contracts[task] == Terms(task)
    && "g" in p.agents && p.agents["g"] == AGENT && "w" in p.workspaces && p.workspaces["w"] == SITE
  }

  lemma WaitingPasses(p: Projection, task: Id, key: string)
    requires SetUp(p, task) && "a" !in p.attempts
    ensures Check(p, Plain(AttemptCreated, AttemptTarget, "a", 0, key, AttemptPayload(Waiting(task)))).None?
  {
    hide CheckApprovalResolved, CheckApprovalMoved, CheckSchedule, CheckScheduleClaimed;
  }

  lemma AskedPasses(p: Projection, task: Id, key: string)
    requires task in p.tasks && "a" in p.attempts && "p" !in p.approvals
    ensures Check(p, Plain(ApprovalRequested, ApprovalTarget, "p", 0, key, ApprovalPayload(Asked(task)))).None?
  {
  }

  lemma GrantPasses(p: Projection, t1: Id, t2: Id, key: string)
    requires "a" in p.attempts && p.attempts["a"] == Waiting(t1) && "p" in p.approvals && p.approvals["p"] == Asked(t2)
    ensures Check(p, Grant(t2, key)).None?
  {
  }

  // ---------- The run ----------

  lemma Setup(t1: Id, t2: Id, keys: seq<string>) returns (p: Projection)
    requires t1 != t2 && |keys| == 8 && forall i, j :: 0 <= i < j < 8 ==> keys[i] != keys[j]
    ensures p == Fold(EMPTY, Crossed(t1, t2, keys)[..4]) && |p.events| == 4
    ensures p.idempotency.Keys == {keys[0], keys[1], keys[2], keys[3]}
    ensures ActiveTask(p, t1) && ActiveTask(p, t2) && p.contracts == map[] && p.attempts == map[] && p.approvals == map[]
    ensures "g" in p.agents && p.agents["g"] == AGENT && "w" in p.workspaces && p.workspaces["w"] == SITE
  {
    hide Fold, Check, Plain;
    var log := Crossed(t1, t2, keys);
    assert log[..0] == [];
    p := EMPTY;
    NothingFolded();
    TaskPasses(p, t1, keys[0]);
    Accepted(log, 0, p);
    p := Record(Store(p, log[0].payload), log[0]);
    TaskPasses(p, t2, keys[1]);
    Accepted(log, 1, p);
    p := Record(Store(p, log[1].payload), log[1]);
    SitePasses(p, keys[2]);
    Accepted(log, 2, p);
    p := Record(Store(p, log[2].payload), log[2]);
    AgentPasses(p, keys[3]);
    Accepted(log, 3, p);
    p := Record(Store(p, log[3].payload), log[3]);
  }

  lemma NothingFolded()
    ensures Fold(EMPTY, []) == EMPTY
  {
  }

  lemma AttemptWaits(t1: Id, t2: Id, keys: seq<string>) returns (p: Projection)
    requires t1 != t2 && |keys| == 8 && forall i, j :: 0 <= i < j < 8 ==> keys[i] != keys[j]
    ensures p == Fold(EMPTY, Crossed(t1, t2, keys)[..6]) && |p.events| == 6
    ensures p.idempotency.Keys == {keys[0], keys[1], keys[2], keys[3], keys[4], keys[5]}
    ensures t2 in p.tasks && t2 !in p.contracts && p.attempts == map["a" := Waiting(t1)] && p.approvals == map[]
  {
    hide Fold, Check, Plain;
    var log := Crossed(t1, t2, keys);
    p := Setup(t1, t2, keys);
    TermsPass(p, t1, keys[4]);
    Accepted(log, 4, p);
    p := Record(Store(p, log[4].payload), log[4]);
    WaitingPasses(p, t1, keys[5]);
    Accepted(log, 5, p);
    p := Record(Store(p, log[5].payload), log[5]);
  }

  /** Every event of the log is accepted, and the last one moves the attempt to a task that has no contract. */
  lemma ResolutionMayMoveAttempt(t1: Id, t2: Id, keys: seq<string>)
    requires t1 != t2 && |keys| == 8 && forall i, j :: 0 <= i < j < 8 ==> keys[i] != keys[j]
    ensures var log := Crossed(t1, t2, keys);
      && |Fold(EMPTY, log).events| == |log|
      && "a" in Fold(EMPTY, log[..7]).attempts && Fold(EMPTY, log[..7]).attempts["a"].identity.taskId == t1
      && "a" in Fold(EMPTY, log).attempts && Fold(EMPTY, log).attempts["a"].identity.taskId == t2
      && t2 !in Fold(EMPTY, log).contracts
  {
    hide Fold, Check, Plain;
    var log := Crossed(t1, t2, keys);
    var p := AttemptWaits(t1, t2, keys);
    AskedPasses(p, t2, keys[6]);
    Accepted(log, 6, p);
    p := Record(Store(p, log[6].payload), log[6]);
    GrantPasses(p, t1, t2, keys[7]);
    Accepted(log, 7, p);
    assert log[..8] == log;
  }
}
