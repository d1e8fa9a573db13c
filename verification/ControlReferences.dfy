/** References and merge chains in logs written by the store methods. */
module ControlReferences {
  import opened Common
  import opened ControlRecords
  import opened ControlReducer
  import opened ControlHistory
  import opened ControlStore
  import opened ControlRuns
  import opened ControlAttempts
  import opened ControlApprovals
  import opened ControlSchedules

  // ---------- What store calls never write ----------

  /** Records the reducer would accept but no store method commits. */
  ghost predicate StoreShaped(p: Projection, e: ControlEvent) {
    && (e.action.TaskCreated? && e.payload.TaskPayload? ==> e.payload.task.Active())
    && (e.action.AttemptCreated? && e.payload.AttemptPayload? ==>
      e.payload.attempt.proof.Empty() && e.payload.attempt.manifestId.None?)
    && (e.action.ApprovalResolved? && e.payload.ResolutionPayload? ==>
      e.payload.released.attemptId in p.attempts
      && e.payload.released.identity == p.attempts[e.payload.released.attemptId].identity)
  }

  lemma BuiltIsShaped(p: Projection, c: Call, d: Draft, e: ControlEvent)
    requires Keyed(p.attempts, ATTEMPT_ID, ATTEMPT_REV)
    requires Build(p, c) == Success(d) && e.action == d.action && e.payload == d.payload
    ensures StoreShaped(p, e)
  {
    hide NextTick, Transitioned, TaskContract.RequiresLaunchApproval, ScheduleSpec.Decodable;
  }

  lemma StoreStepsAreShaped(p: Projection, e: ControlEvent)
    requires AllKeyed(p) && StoreStep(p, e)
    ensures StoreShaped(p, e) && Apply(p, e).Applied?
  {
    hide Build, Apply, StoreShaped, Keyed;
    var c, meta :| CommitsAs(p, c, meta, e);
    BuiltIsShaped(p, c, Build(p, c).value, e);
  }

  // ---------- References resolve ----------

  ghost predicate TaskRefers(p: Projection, r: TaskRecord) { r.mergedInto.Some? ==> r.mergedInto.value in p.tasks }

  ghost predicate ContractRefers(p: Projection, r: TaskContract) {
    r.taskId in p.tasks && r.workspaceId in p.workspaces && forall b :: b in r.budgetPolicyIds ==> b in p.budgets
  }

  ghost predicate AttemptRefers(p: Projection, r: RunAttempt) {
    var a := r.identity;
    && a.taskId in p.tasks && a.taskId in p.contracts && a.agentId in p.agents && a.workspaceId in p.workspaces
    && a.contractRevision <= p.contracts[a.taskId].revision && a.agentRevision <= p.agents[a.agentId].revision
  }

  ghost predicate ApprovalRefers(p: Projection, r: ApprovalRequest) {
    r.scope.taskId in p.tasks && (Truthy(r.scope.attemptId) ==> r.scope.attemptId.value in p.attempts)
  }

  ghost predicate ScheduleRefers(p: Projection, r: ScheduleSpec) { r.taskId in p.tasks }

  ghost predicate ReferencesResolve(p: Projection) {
    && (forall id :: id in p.tasks ==> TaskRefers(p, p.tasks[id]))
    && (forall id :: id in p.contracts ==> ContractRefers(p, p.contracts[id]))
    && (forall id :: id in p.attempts ==> AttemptRefers(p, p.attempts[id]))
    && (forall id :: id in p.approvals ==> ApprovalRefers(p, p.approvals[id]))
    && (forall id :: id in p.schedules ==> ScheduleRefers(p, p.schedules[id]))
  }

  ghost predicate PayloadRefers(p: Projection, payload: Payload) {
    match payload
    case TaskPayload(r) => TaskRefers(p, r)
    case ContractPayload(r) => ContractRefers(p, r)
    case AttemptPayload(r) => AttemptRefers(p, r)
    case ApprovalPayload(r) => ApprovalRefers(p, r)
    case ResolutionPayload(r, a, _) => ApprovalRefers(p, r) && AttemptRefers(p, a)
    case SchedulePayload(r) => ScheduleRefers(p, r)
    case ClaimPayload(r, _) => ScheduleRefers(p, r)
    case _ => true
  }

  lemma TasksRefer(p: Projection, e: ControlEvent, r: TaskRecord)
    requires StoreShaped(p, e) && e.payload == TaskPayload(r)
    requires (e.action.TaskCreated? && CheckTaskCreated(p, e, r).None?) || CheckTaskMerged(p, e, r).None?
    ensures TaskRefers(p, r)
  {
  }

  lemma AttemptsRefer(p: Projection, e: ControlEvent, r: RunAttempt)
    requires ReferencesResolve(p) && (CheckAttemptCreated(p, e, r).None? || CheckAttemptTransitioned(p, e, r).None?)
    ensures AttemptRefers(p, r)
  {
    if r.attemptId in p.attempts {
      assert AttemptRefers(p, p.attempts[r.attemptId]);
    }
  }

  lemma ApprovalsRefer(p: Projection, e: ControlEvent, r: ApprovalRequest)
    requires ReferencesResolve(p) && (CheckApprovalRequested(p, e, r).None? || CheckApprovalMoved(p, e, r).None?)
    ensures ApprovalRefers(p, r)
  {
    if r.approvalId in p.approvals {
      assert ApprovalRefers(p, p.approvals[r.approvalId]);
    }
  }

  lemma ResolutionsRefer(p: Projection, e: ControlEvent, r: ApprovalRequest, a: RunAttempt, n: int)
    requires ReferencesResolve(p) && CheckApprovalResolved(p, e, r, a, n).None?
    requires a.attemptId in p.attempts && a.identity == p.attempts[a.attemptId].identity
    ensures ApprovalRefers(p, r) && AttemptRefers(p, a)
  {
    assert ApprovalRefers(p, p.approvals[r.approvalId]);
    assert AttemptRefers(p, p.attempts[a.attemptId]);
  }

  lemma ContractsRefer(p: Projection, e: ControlEvent, r: TaskContract)
    requires CheckContractCreated(p, e, r).None?
    ensures ContractRefers(p, r)
  {
  }

  lemma SchedulesRefer(p: Projection, e: ControlEvent, r: ScheduleSpec)
    requires CheckSchedule(p, e, r).None?
    ensures ScheduleRefers(p, r)
  {
  }

  lemma CheckedPayloadRefers(p: Projection, e: ControlEvent)
    requires ReferencesResolve(p) && StoreShaped(p, e) && Check(p, e).None?
    ensures PayloadRefers(p, e.payload)
  {
    hide CheckTaskCreated, CheckTaskMerged, CheckContractCreated, CheckAgentRegistered, CheckWorkspaceRegistered,
      CheckAttemptCreated, CheckAttemptTransitioned, CheckApprovalRequested, CheckApprovalResolved, CheckApprovalMoved,
      CheckBudgetRegistered, CheckSchedule, ReferencesResolve;
    hide TaskRefers, ContractRefers, AttemptRefers, ApprovalRefers, ScheduleRefers, ClaimFits;
    match e.payload {
      case TaskPayload(r) => TasksRefer(p, e, r);
      case ContractPayload(r) => ContractsRefer(p, e, r);
      case AttemptPayload(r) => AttemptsRefer(p, e, r);
      case ApprovalPayload(r) => ApprovalsRefer(p, e, r);
      case ResolutionPayload(r, a, n) => ResolutionsRefer(p, e, r, a, n);
      case SchedulePayload(r) => SchedulesRefer(p, e, r);
      case ClaimPayload(r, _) => SchedulesRefer(p, e, r);
      case _ =>
    }
  }

  lemma ReferencesPersist(p: Projection, q: Projection)
    requires RecordsLater(p, q)
    ensures forall r :: TaskRefers(p, r) ==> TaskRefers(q, r)
    ensures forall r :: ContractRefers(p, r) ==> ContractRefers(q, r)
    ensures forall r :: AttemptRefers(p, r) ==> AttemptRefers(q, r)
    ensures forall r :: ApprovalRefers(p, r) ==> ApprovalRefers(q, r)
    ensures forall r :: ScheduleRefers(p, r) ==> ScheduleRefers(q, r)
  {
  }

  lemma StoredContracts(p: Projection, payload: Payload)
    ensures Store(p, payload).contracts ==
            if payload.ContractPayload? then p.contracts[payload.contract.taskId := payload.contract] else p.contracts
  {
  }

  lemma StoreKeepsReferences(p: Projection, payload: Payload)
    requires ReferencesResolve(p) && PayloadRefers(p, payload) && RecordsLater(p, Store(p, payload))
    ensures ReferencesResolve(Store(p, payload))
  {
    hide Store, RecordsLater, TaskRefers, ContractRefers, AttemptRefers, ApprovalRefers, ScheduleRefers;
    ReferencesPersist(p, Store(p, payload));
    StoredTasks(p, payload);
    StoredContracts(p, payload);
    StoredAttempts(p, payload);
    StoredApprovals(p, payload);
    StoredSchedules(p, payload);
  }

  // ---------- Merge chains ----------

  /** Merging only ever points to a higher rank, so there is no cycle. */
  ghost predicate Ranked(tasks: map<Id, TaskRecord>, rank: map<Id, nat>) {
    && rank.Keys == tasks.Keys
    && forall id :: id in tasks && tasks[id].mergedInto.Some? ==>
      tasks[id].mergedInto.value in tasks && rank[id] < rank[tasks[id].mergedInto.value]
  }

  ghost predicate Forest(tasks: map<Id, TaskRecord>) { exists rank :: Ranked(tasks, rank) }

  /** The task reached after following at most n merges. */
  function Follow(tasks: map<Id, TaskRecord>, id: Id, n: nat): Id
    decreases n
  {
    if n == 0 || id !in tasks || tasks[id].Active() then id else Follow(tasks, tasks[id].mergedInto.value, n - 1)
  }

  predicate EndsAtIn(tasks: map<Id, TaskRecord>, id: Id, root: Id, n: nat) {
    root in tasks && tasks[root].Active() && Follow(tasks, id, n) == root
  }

  /** The merge chain of id ends at the active task root. */
  ghost predicate EndsAt(tasks: map<Id, TaskRecord>, id: Id, root: Id) { exists n: nat :: EndsAtIn(tasks, id, root, n) }

  lemma {:induction false} FollowFurther(tasks: map<Id, TaskRecord>, id: Id, root: Id, n: nat, m: nat)
    requires EndsAtIn(tasks, id, root, n) && n <= m
    ensures Follow(tasks, id, m) == root
    decreases n
  {
    if n > 0 && id in tasks && !tasks[id].Active() {
      FollowFurther(tasks, tasks[id].mergedInto.value, root, n - 1, m - 1);
    }
  }

  lemma ChainEndIsUnique(tasks: map<Id, TaskRecord>, id: Id, r: Id, s: Id)
    requires EndsAt(tasks, id, r) && EndsAt(tasks, id, s)
    ensures r == s
  {
    var n: nat :| EndsAtIn(tasks, id, r, n);
    var m: nat :| EndsAtIn(tasks, id, s, m);
    FollowFurther(tasks, id, r, n, n + m);
    FollowFurther(tasks, id, s, m, n + m);
  }

  lemma {:induction false} ChainEnds(tasks: map<Id, TaskRecord>, rank: map<Id, nat>, bound: nat, id: Id) returns (root: Id, n: nat)
    requires Ranked(tasks, rank) && id in tasks && forall k :: k in rank ==> rank[k] <= bound
    ensures EndsAtIn(tasks, id, root, n)
    decreases bound - rank[id]
  {
    if tasks[id].Active() {
      root, n := id, 0;
    } else {
      root, n := ChainEnds(tasks, rank, bound, tasks[id].mergedInto.value);
      n := n + 1;
    }
  }

  lemma {:induction false} RanksAreBounded(rank: map<Id, nat>, keys: set<Id>) returns (bound: nat)
    requires keys <= rank.Keys
    ensures forall k :: k in keys ==> rank[k] <= bound
    decreases |keys|
  {
    bound := 0;
    if keys != {} {
      var k :| k in keys;
      var b := RanksAreBounded(rank, keys - {k});
      bound := b + rank[k];
    }
  }

  /** In a forest every chain of merges ends, at exactly one active task. */
  lemma EveryChainEndsOnce(tasks: map<Id, TaskRecord>, id: Id) returns (root: Id)
    requires Forest(tasks) && id in tasks
    ensures EndsAt(tasks, id, root) && forall r :: EndsAt(tasks, id, r) ==> r == root
  {
    var rank :| Ranked(tasks, rank);
    var bound := RanksAreBounded(rank, rank.Keys);
    var n: nat;
    root, n := ChainEnds(tasks, rank, bound, id);
    forall r | EndsAt(tasks, id, r) ensures r == root {
      ChainEndIsUnique(tasks, id, r, root);
    }
  }

  ghost predicate Merges(tasks: map<Id, TaskRecord>, a: Id, r: TaskRecord) {
    && a in tasks && tasks[a].Active()
    && r.mergedInto.Some? && r.mergedInto.value != a && r.mergedInto.value in tasks && tasks[r.mergedInto.value].Active()
  }

  lemma MergeKeepsForest(tasks: map<Id, TaskRecord>, a: Id, r: TaskRecord)
    requires Forest(tasks) && Merges(tasks, a, r)
    ensures Forest(tasks[a := r])
  {
    var rank :| Ranked(tasks, rank);
    var bound := RanksAreBounded(rank, rank.Keys);
    assert Ranked(tasks[a := r], rank[r.mergedInto.value := bound + 1]);
  }

  lemma AddKeepsForest(tasks: map<Id, TaskRecord>, a: Id, r: TaskRecord)
    requires Forest(tasks) && a !in tasks && r.Active()
    ensures Forest(tasks[a := r])
  {
    var rank :| Ranked(tasks, rank);
    assert Ranked(tasks[a := r], rank[a := 0]);
  }

  lemma {:induction false} FollowMerged(tasks: map<Id, TaskRecord>, a: Id, r: TaskRecord, id: Id, root: Id, n: nat)
    requires Merges(tasks, a, r) && EndsAtIn(tasks, id, root, n)
    ensures EndsAt(tasks[a := r], id, if root == a then r.mergedInto.value else root)
    decreases n
  {
    var merged, into := tasks[a := r], r.mergedInto.value;
    if id == a {
      assert EndsAtIn(merged, into, into, 0);
      assert EndsAtIn(merged, id, into, 1);
    } else if n > 0 && id in tasks && !tasks[id].Active() {
      FollowMerged(tasks, a, r, tasks[id].mergedInto.value, root, n - 1);
      var end := if root == a then into else root;
      var m: nat :| EndsAtIn(merged, tasks[id].mergedInto.value, end, m);
      assert EndsAtIn(merged, id, end, m + 1);
    } else {
      assert EndsAtIn(merged, id, root, 0);
    }
  }

  /** Merging a redirects exactly the chains that ended at a, and to the task it was merged into. */
  lemma MergeRedirectsExactly(tasks: map<Id, TaskRecord>, a: Id, r: TaskRecord, id: Id, end: Id)
    requires Forest(tasks) && Merges(tasks, a, r) && id in tasks
    ensures EndsAt(tasks[a := r], id, end) <==>
            (EndsAt(tasks, id, a) && end == r.mergedInto.value) || (end != a && EndsAt(tasks, id, end))
  {
    var root := EveryChainEndsOnce(tasks, id);
    var n: nat :| EndsAtIn(tasks, id, root, n);
    FollowMerged(tasks, a, r, id, root, n);
    var now := if root == a then r.mergedInto.value else root;
    if EndsAt(tasks[a := r], id, end) {
      ChainEndIsUnique(tasks[a := r], id, end, now);
    }
  }

  // ---------- Over every run of the store ----------

  lemma CheckedTaskPayload(p: Projection, e: ControlEvent)
    requires StoreShaped(p, e) && Check(p, e).None? && e.payload.TaskPayload?
    ensures var r := e.payload.task; if r.taskId in p.tasks then Merges(p.tasks, r.taskId, r) else r.Active()
  {
  }

  lemma StoredTasks(p: Projection, payload: Payload)
    ensures Store(p, payload).tasks == if payload.TaskPayload? then p.tasks[payload.task.taskId := payload.task] else p.tasks
  {
  }

  lemma StoreKeepsForest(p: Projection, e: ControlEvent)
    requires Forest(p.tasks) && StoreShaped(p, e) && Check(p, e).None?
    ensures Forest(Store(p, e.payload).tasks)
  {
    hide Forest, Merges, Check, StoreShaped, Store;
    StoredTasks(p, e.payload);
    if e.payload.TaskPayload? {
      CheckedTaskPayload(p, e);
      var r := e.payload.task;
      if r.taskId !in p.tasks {
        AddKeepsForest(p.tasks, r.taskId, r);
      } else {
        MergeKeepsForest(p.tasks, r.taskId, r);
      }
    }
  }

  lemma StoreStepKeepsOrder(p: Projection, e: ControlEvent)
    requires Sound(p) && ReferencesResolve(p) && Forest(p.tasks) && StoreStep(p, e)
    ensures ReferencesResolve(After(p, e)) && Forest(After(p, e).tasks)
  {
    hide Check, Forest, StoreStep, PayloadRefers, Store, MovesForward, Later, Keyed, StoreShaped, Indexed;
    StoreStepsAreShaped(p, e);
    StoreKeepsForest(p, e);
    CheckedPayloadRefers(p, e);
    CheckedMovesForward(p, e);
    StoreEvolves(p, e.payload);
    StoreKeepsReferences(p, e.payload);
    RecordingKeepsReferences(Store(p, e.payload), e);
  }

  lemma RecordingKeepsReferences(p: Projection, e: ControlEvent)
    requires ReferencesResolve(p)
    ensures ReferencesResolve(Record(p, e))
  {
  }

  /** Whatever calls the store made, merges form a forest and every reference resolves. */
  lemma {:induction false} StoreLogsStayInOrder(events: seq<ControlEvent>)
    requires StoreWritten(events)
    ensures ReferencesResolve(Fold(EMPTY, events)) && Forest(Fold(EMPTY, events).tasks)
    decreases |events|
  {
    hide After, Forest, ReferencesResolve, StoreStep, Sound;
    if events == [] {
      EmptyInOrder();
    } else {
      var init := events[..|events| - 1];
      StoreLogsStayInOrder(init);
      EmptySound();
      FoldEvolves(EMPTY, init);
      StoreStepKeepsOrder(Fold(EMPTY, init), events[|events| - 1]);
    }
  }

  lemma EmptyInOrder()
    ensures ReferencesResolve(EMPTY) && Forest(EMPTY.tasks)
  {
    assert Ranked(EMPTY.tasks, map[]);
  }

  /** In a log written by the store every attempt's first version has no manifest and no process proof. */
  lemma {:induction false} StoreAttemptsStartUnowned(events: seq<ControlEvent>, id: Id)
    requires StoreWritten(events)
    ensures var h := AttemptHistory(events, id); h != [] ==> h[0].proof.Empty() && h[0].manifestId.None?
    decreases |events|
  {
    hide After, StoreStep, Lifecycle, AttemptsBacked;
    if events != [] {
      var init, e := events[..|events| - 1], events[|events| - 1];
      StoreAttemptsStartUnowned(init, id);
      AttemptsLiveLifecycles(init, id);
      EmptySound();
      FoldEvolves(EMPTY, init);
      if id !in Fold(EMPTY, init).attempts && id in Fold(EMPTY, events).attempts {
        NewAttemptsAreUnowned(Fold(EMPTY, init), e, id);
      }
    }
  }

  lemma NewAttemptsAreUnowned(p: Projection, e: ControlEvent, id: Id)
    requires Sound(p) && StoreStep(p, e) && id !in p.attempts && id in After(p, e).attempts
    ensures After(p, e).attempts[id].proof.Empty() && After(p, e).attempts[id].manifestId.None?
  {
    hide Check, StoreShaped, Store, StoreStep, Keyed;
    StoreStepsAreShaped(p, e);
    StoredAttempts(p, e.payload);
    if (e.payload.AttemptPayload? && e.payload.attempt.attemptId == id)
       || (e.payload.ResolutionPayload? && e.payload.released.attemptId == id) {
      NewAttemptIsUnowned(p, e, id);
    }
  }

  lemma NewAttemptIsUnowned(p: Projection, e: ControlEvent, id: Id)
    requires StoreShaped(p, e) && Check(p, e).None? && id !in p.attempts
    requires e.payload.AttemptPayload? ==> e.payload.attempt.attemptId == id
    requires e.payload.ResolutionPayload? ==> e.payload.released.attemptId == id
    ensures !e.payload.ResolutionPayload?
    ensures e.payload.AttemptPayload? ==> e.payload.attempt.proof.Empty() && e.payload.attempt.manifestId.None?
  {
  }

  // ---------- Merged tasks, over histories ----------

  /** What an accepted event asks of the tasks it works on. */
  lemma WorkNeedsActiveTasks(p: Projection, e: ControlEvent)
    requires Apply(p, e).Applied?
    ensures e.action.ContractCreated? && e.payload.ContractPayload? ==> ActiveTask(p, e.payload.contract.taskId)
    ensures e.action.AttemptCreated? && e.payload.AttemptPayload? ==> ActiveTask(p, e.payload.attempt.identity.taskId)
    ensures e.action.TaskMerged? && e.payload.TaskPayload? ==> Merges(p.tasks, e.payload.task.taskId, e.payload.task)
    ensures e.payload.TaskPayload? && e.payload.task.taskId in p.tasks ==> e.action.TaskMerged?
  {
    hide RunAttempt.Decodable, TaskContract.RequiresLaunchApproval, CheckApprovalResolved, CheckApprovalMoved,
      CheckSchedule, CheckScheduleClaimed, CheckAttemptTransitioned;
  }

  ghost predicate Merged(p: Projection, t: Id) { t in p.tasks && !p.tasks[t].Active() }

  lemma AfterKeepsMerged(p: Projection, e: ControlEvent, t: Id)
    requires Merged(p, t)
    ensures Merged(After(p, e), t) && After(p, e).tasks[t] == p.tasks[t]
  {
    hide Check;
    if Apply(p, e).Applied? {
      WorkNeedsActiveTasks(p, e);
      StoredTasks(p, e.payload);
      hide Store;
    }
  }

  /** A merged task stays as it is, along every log. */
  lemma {:induction false} MergedStaysMerged(log: seq<ControlEvent>, more: seq<ControlEvent>, t: Id)
    requires Merged(Fold(EMPTY, log), t)
    ensures Merged(Fold(EMPTY, log + more), t) && Fold(EMPTY, log + more).tasks[t] == Fold(EMPTY, log).tasks[t]
    decreases |more|
  {
    hide After, Merged;
    if more == [] {
      assert log + more == log;
    } else {
      var init := more[..|more| - 1];
      MergedStaysMerged(log, init, t);
      assert (log + more)[..|log + more| - 1] == log + init;
      AfterKeepsMerged(Fold(EMPTY, log + init), more[|more| - 1], t);
    }
  }

  /** Once a task has merged, no later event of any log creates a contract or attempt on it, merges it or merges into it. */
  lemma MergedTasksTakeNoWork(log: seq<ControlEvent>, more: seq<ControlEvent>, t: Id, e: ControlEvent)
    requires Merged(Fold(EMPTY, log), t) && Apply(Fold(EMPTY, log + more), e).Applied?
    ensures e.action.ContractCreated? ==> e.payload.ContractPayload? && e.payload.contract.taskId != t
    ensures e.action.AttemptCreated? ==> e.payload.AttemptPayload? && e.payload.attempt.identity.taskId != t
    ensures e.action.TaskMerged? ==> e.payload.TaskPayload? && e.payload.task.taskId != t && e.payload.task.mergedInto != Some(t)
  {
    MergedStaysMerged(log, more, t);
    WorkNeedsActiveTasks(Fold(EMPTY, log + more), e);
    ActionsCarryTheirPayload(Fold(EMPTY, log + more), e);
    hide Apply;
  }

  lemma ActionsCarryTheirPayload(p: Projection, e: ControlEvent)
    requires Apply(p, e).Applied?
    ensures e.action.ContractCreated? ==> e.payload.ContractPayload?
    ensures e.action.AttemptCreated? ==> e.payload.AttemptPayload?
    ensures e.action.TaskMerged? ==> e.payload.TaskPayload?
  {
    hide CheckContractCreated, CheckAttemptCreated, CheckTaskMerged;
  }

  /**
   In a log written by the store every cancellation was requested of a process that ran earlier, under the very
   same proof.
   */
  lemma StoreCancelsWhatRan(events: seq<ControlEvent>, id: Id, j: nat) returns (i: nat)
    requires StoreWritten(events) && j < |AttemptHistory(events, id)| && AttemptHistory(events, id)[j].execution.CancelRequested?
    ensures var h := AttemptHistory(events, id);
      0 < i < j && h[i].execution.Running? && h[i].proof == h[j].proof && h[i].HasCompleteProcessProof()
  {
    var h := AttemptHistory(events, id);
    AttemptsLiveLifecycles(events, id);
    StoreAttemptsStartUnowned(events, id);
    CancelRequestedHasProof(h, j);
    i := CancelledWasRunning(h, j);
    LifecycleBacks(h, i);
  }

  lemma LifecycleBacks(h: seq<RunAttempt>, i: nat)
    requires Lifecycle(h) && i < |h| && h[i].execution.Running?
    ensures h[i].HasCompleteProcessProof()
  {
  }
}
