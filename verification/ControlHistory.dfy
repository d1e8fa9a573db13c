/** What holds of the projection along every log, whoever wrote it. */
module ControlHistory {
  import opened ControlRecords
  import opened ControlReducer

  // ---------- One record map ----------

  ghost predicate Keyed<R>(m: map<Id, R>, id: R -> Id, revision: R -> int) {
    forall k :: k in m ==> id(m[k]) == k && revision(m[k]) >= 1
  }

  /** n is m later on: nothing disappears, and a record that kept its revision is unchanged. */
  ghost predicate Later<R>(m: map<Id, R>, n: map<Id, R>, revision: R -> int) {
    forall k :: k in m ==>
      k in n && revision(m[k]) <= revision(n[k]) && (revision(m[k]) == revision(n[k]) ==> m[k] == n[k])
  }

  lemma LaterUpdate<R>(m: map<Id, R>, k: Id, r: R, id: R -> Id, revision: R -> int)
    requires Keyed(m, id, revision) && id(r) == k && revision(r) >= 1
    requires k in m ==> revision(m[k]) < revision(r)
    ensures Later(m, m[k := r], revision) && Keyed(m[k := r], id, revision)
  {
  }

  lemma LaterTransitive<R>(m: map<Id, R>, n: map<Id, R>, o: map<Id, R>, revision: R -> int)
    requires Later(m, n, revision) && Later(n, o, revision)
    ensures Later(m, o, revision)
  {
  }

  // ---------- The whole projection ----------

  const TASK_ID := (r: TaskRecord) => r.taskId
  const TASK_REV := (r: TaskRecord) => r.revision
  const CONTRACT_ID := (r: TaskContract) => r.taskId
  const CONTRACT_REV := (r: TaskContract) => r.revision
  const AGENT_ID := (r: AgentSpec) => r.agentId
  const AGENT_REV := (r: AgentSpec) => r.revision
  const WORKSPACE_ID := (r: Workspace) => r.workspaceId
  const WORKSPACE_REV := (r: Workspace) => r.revision
  const ATTEMPT_ID := (r: RunAttempt) => r.attemptId
  const ATTEMPT_REV := (r: RunAttempt) => r.revision
  const APPROVAL_ID := (r: ApprovalRequest) => r.approvalId
  const APPROVAL_REV := (r: ApprovalRequest) => r.revision
  const BUDGET_ID := (r: BudgetPolicy) => r.policyId
  const BUDGET_REV := (r: BudgetPolicy) => r.revision
  const SCHEDULE_ID := (r: ScheduleSpec) => r.scheduleId
  const SCHEDULE_REV := (r: ScheduleSpec) => r.revision

  ghost predicate AllKeyed(p: Projection) {
    && Keyed(p.tasks, TASK_ID, TASK_REV) && Keyed(p.contracts, CONTRACT_ID, CONTRACT_REV)
    && Keyed(p.agents, AGENT_ID, AGENT_REV) && Keyed(p.workspaces, WORKSPACE_ID, WORKSPACE_REV)
    && Keyed(p.attempts, ATTEMPT_ID, ATTEMPT_REV) && Keyed(p.approvals, APPROVAL_ID, APPROVAL_REV)
    && Keyed(p.budgets, BUDGET_ID, BUDGET_REV) && Keyed(p.schedules, SCHEDULE_ID, SCHEDULE_REV)
  }

  ghost predicate RecordsLater(p: Projection, q: Projection) {
    && Later(p.tasks, q.tasks, TASK_REV) && Later(p.contracts, q.contracts, CONTRACT_REV)
    && Later(p.agents, q.agents, AGENT_REV) && Later(p.workspaces, q.workspaces, WORKSPACE_REV)
    && Later(p.attempts, q.attempts, ATTEMPT_REV) && Later(p.approvals, q.approvals, APPROVAL_REV)
    && Later(p.budgets, q.budgets, BUDGET_REV) && Later(p.schedules, q.schedules, SCHEDULE_REV)
  }

  /** The idempotency index lists exactly the recorded events, one per key. */
  ghost predicate Indexed(p: Projection) {
    && (forall i :: 0 <= i < |p.events| ==>
      p.events[i].idempotencyKey in p.idempotency && p.idempotency[p.events[i].idempotencyKey] == p.events[i])
    && (forall k :: k in p.idempotency ==> p.idempotency[k].idempotencyKey == k && p.idempotency[k] in p.events)
    && (forall i, j :: 0 <= i < j < |p.events| ==> p.events[i].idempotencyKey != p.events[j].idempotencyKey)
  }

  ghost predicate IndexLater(p: Projection, q: Projection) {
    && p.events <= q.events
    && (forall k :: k in p.idempotency ==> k in q.idempotency && q.idempotency[k] == p.idempotency[k])
  }

  ghost predicate Sound(p: Projection) { AllKeyed(p) && Indexed(p) }

  ghost predicate Evolves(p: Projection, q: Projection) { RecordsLater(p, q) && IndexLater(p, q) }

  lemma EvolvesReflexive(p: Projection)
    ensures Evolves(p, p)
  {
  }

  lemma EvolvesTransitive(p: Projection, q: Projection, r: Projection)
    requires Evolves(p, q) && Evolves(q, r)
    ensures Evolves(p, r)
  {
    hide Later;
    LaterTransitive(p.tasks, q.tasks, r.tasks, TASK_REV);
    LaterTransitive(p.contracts, q.contracts, r.contracts, CONTRACT_REV);
    LaterTransitive(p.agents, q.agents, r.agents, AGENT_REV);
    LaterTransitive(p.workspaces, q.workspaces, r.workspaces, WORKSPACE_REV);
    LaterTransitive(p.attempts, q.attempts, r.attempts, ATTEMPT_REV);
    LaterTransitive(p.approvals, q.approvals, r.approvals, APPROVAL_REV);
    LaterTransitive(p.budgets, q.budgets, r.budgets, BUDGET_REV);
    LaterTransitive(p.schedules, q.schedules, r.schedules, SCHEDULE_REV);
  }

  /** What a record must satisfy for `Store` to move its map forward. */
  ghost predicate MovesForward(p: Projection, payload: Payload) {
    match payload
    case TaskPayload(r) => r.revision >= 1 && (r.taskId in p.tasks ==> p.tasks[r.taskId].revision < r.revision)
    case ContractPayload(r) => r.revision >= 1 && (r.taskId in p.contracts ==> p.contracts[r.taskId].revision < r.revision)
    case AgentPayload(r) => r.revision >= 1 && (r.agentId in p.agents ==> p.agents[r.agentId].revision < r.revision)
    case WorkspacePayload(r) =>
      r.revision >= 1 && (r.workspaceId in p.workspaces ==> p.workspaces[r.workspaceId].revision < r.revision)
    case AttemptPayload(r) => r.revision >= 1 && (r.attemptId in p.attempts ==> p.attempts[r.attemptId].revision < r.revision)
    case ApprovalPayload(r) =>
      r.revision >= 1 && (r.approvalId in p.approvals ==> p.approvals[r.approvalId].revision < r.revision)
    case ResolutionPayload(r, a, _) =>
      && r.revision >= 1 && (r.approvalId in p.approvals ==> p.approvals[r.approvalId].revision < r.revision)
      && a.revision >= 1 && (a.attemptId in p.attempts ==> p.attempts[a.attemptId].revision < a.revision)
    case BudgetPayload(r) => r.revision >= 1 && (r.policyId in p.budgets ==> p.budgets[r.policyId].revision < r.revision)
    case SchedulePayload(r) =>
      r.revision >= 1 && (r.scheduleId in p.schedules ==> p.schedules[r.scheduleId].revision < r.revision)
    case ClaimPayload(r, _) =>
      r.revision >= 1 && (r.scheduleId in p.schedules ==> p.schedules[r.scheduleId].revision < r.revision)
    case UndecodedPayload => true
  }

  lemma CheckedMovesForward(p: Projection, e: ControlEvent)
    requires Keyed(p.attempts, ATTEMPT_ID, ATTEMPT_REV) && Check(p, e).None?
    ensures MovesForward(p, e.payload)
  {
  }

  lemma StoreEvolves(p: Projection, payload: Payload)
    requires AllKeyed(p) && MovesForward(p, payload)
    ensures AllKeyed(Store(p, payload)) && RecordsLater(p, Store(p, payload))
    ensures Store(p, payload).events == p.events && Store(p, payload).idempotency == p.idempotency
  {
    EvolvesReflexive(p);
    hide Later, Keyed;
    match payload {
      case TaskPayload(r) => LaterUpdate(p.tasks, r.taskId, r, TASK_ID, TASK_REV);
      case ContractPayload(r) => LaterUpdate(p.contracts, r.taskId, r, CONTRACT_ID, CONTRACT_REV);
      case AgentPayload(r) => LaterUpdate(p.agents, r.agentId, r, AGENT_ID, AGENT_REV);
      case WorkspacePayload(r) => LaterUpdate(p.workspaces, r.workspaceId, r, WORKSPACE_ID, WORKSPACE_REV);
      case AttemptPayload(r) => LaterUpdate(p.attempts, r.attemptId, r, ATTEMPT_ID, ATTEMPT_REV);
      case ApprovalPayload(r) => LaterUpdate(p.approvals, r.approvalId, r, APPROVAL_ID, APPROVAL_REV);
      case ResolutionPayload(r, a, _) =>
        LaterUpdate(p.approvals, r.approvalId, r, APPROVAL_ID, APPROVAL_REV);
        LaterUpdate(p.attempts, a.attemptId, a, ATTEMPT_ID, ATTEMPT_REV);
      case BudgetPayload(r) => LaterUpdate(p.budgets, r.policyId, r, BUDGET_ID, BUDGET_REV);
      case SchedulePayload(r) => LaterUpdate(p.schedules, r.scheduleId, r, SCHEDULE_ID, SCHEDULE_REV);
      case ClaimPayload(r, _) => LaterUpdate(p.schedules, r.scheduleId, r, SCHEDULE_ID, SCHEDULE_REV);
      case UndecodedPayload =>
    }
  }

  lemma RecordIndexed(p: Projection, q: Projection, e: ControlEvent)
    requires Indexed(p) && e.idempotencyKey !in p.idempotency
    requires q.events == p.events && q.idempotency == p.idempotency
    ensures Indexed(Record(q, e)) && IndexLater(p, Record(q, e))
  {
    var r := Record(q, e);
    assert r.events[|p.events|] == e;
    forall k | k in r.idempotency ensures r.idempotency[k].idempotencyKey == k && r.idempotency[k] in r.events {
      if k != e.idempotencyKey {
        var i :| 0 <= i < |p.events| && p.events[i] == p.idempotency[k];
        assert r.events[i] == p.events[i];
      }
    }
  }

  /** One event keeps the shape, and equal revisions keep meaning equal records. */
  lemma AfterEvolves(p: Projection, e: ControlEvent)
    requires Sound(p)
    ensures Sound(After(p, e)) && Evolves(p, After(p, e))
  {
    EvolvesReflexive(p);
    hide Check, Store, Later, Keyed, MovesForward, Indexed, IndexLater;
    if Apply(p, e).Applied? {
      CheckedMovesForward(p, e);
      StoreEvolves(p, e.payload);
      RecordIndexed(p, Store(p, e.payload), e);
    }
  }

  // ---------- Whole logs ----------

  lemma StoreKeepsIndex(p: Projection, payload: Payload)
    ensures Store(p, payload).events == p.events && Store(p, payload).idempotency == p.idempotency
  {
  }

  lemma AppliedRecords(p: Projection, e: ControlEvent)
    requires Apply(p, e).Applied?
    ensures After(p, e).events == p.events + [e] && After(p, e).idempotency == p.idempotency[e.idempotencyKey := e]
  {
    hide Check, Store;
    StoreKeepsIndex(p, e.payload);
  }

  lemma AcceptedIsIndexed(p: Projection, e: ControlEvent)
    requires !Apply(p, e).Refused?
    ensures e.idempotencyKey in After(p, e).idempotency && After(p, e).idempotency[e.idempotencyKey] == e
  {
    hide Check, Store;
    StoreKeepsIndex(p, e.payload);
  }

  lemma EmptySound()
    ensures Sound(EMPTY)
  {
  }

  lemma {:induction false} FoldEvolves(p: Projection, log: seq<ControlEvent>)
    requires Sound(p)
    ensures Sound(Fold(p, log)) && Evolves(p, Fold(p, log))
    decreases |log|
  {
    hide Sound, Evolves, After;
    if log == [] {
      EvolvesReflexive(p);
    } else {
      var q := Fold(p, log[..|log| - 1]);
      FoldEvolves(p, log[..|log| - 1]);
      AfterEvolves(q, log[|log| - 1]);
      EvolvesTransitive(p, q, Fold(p, log));
    }
  }

  lemma {:induction false} FoldAppend(p: Projection, a: seq<ControlEvent>, b: seq<ControlEvent>)
    ensures Fold(Fold(p, a), b) == Fold(p, a + b)
    decreases |b|
  {
    hide After;
    if b == [] {
      assert a + b == a;
    } else {
      var b' := b[..|b| - 1];
      FoldAppend(p, a, b');
      assert (a + b)[..|a + b| - 1] == a + b';
    }
  }

  /** Along a growing log records are never lost, and equal revisions mean equal records. */
  lemma RevisionsIdentifyRecords(log: seq<ControlEvent>, more: seq<ControlEvent>)
    ensures Sound(Fold(EMPTY, log + more)) && Evolves(Fold(EMPTY, log), Fold(EMPTY, log + more))
  {
    FoldEvolves(EMPTY, log);
    FoldEvolves(Fold(EMPTY, log), more);
    FoldAppend(EMPTY, log, more);
  }

  /** The recorded events are a log of their own that rebuilds everything without a refusal. */
  lemma {:induction false} RecordedEventsReplay(log: seq<ControlEvent>)
    ensures var events := Fold(EMPTY, log).events;
      && Fold(EMPTY, events) == Fold(EMPTY, log)
      && forall i :: 0 <= i < |events| ==> Apply(Fold(EMPTY, events[..i]), events[i]).Applied?
    decreases |log|
  {
    hide Check, Store;
    if log != [] {
      var log', e := log[..|log| - 1], log[|log| - 1];
      var p := Fold(EMPTY, log');
      RecordedEventsReplay(log');
      if Apply(p, e).Applied? {
        AppliedRecords(p, e);
        var events := p.events + [e];
        assert events[..|events| - 1] == p.events;
        forall i | 0 <= i < |events| ensures Apply(Fold(EMPTY, events[..i]), events[i]).Applied? {
          assert i < |p.events| ==> events[..i] == p.events[..i];
        }
      }
    }
  }

  /** A position the reducer accepts, or recognises as a verbatim repetition. */
  predicate AcceptedAt(log: seq<ControlEvent>, i: nat)
    requires i < |log|
  {
    !Apply(Fold(EMPTY, log[..i]), log[i]).Refused?
  }

  lemma AcceptedStays(log: seq<ControlEvent>, i: nat, j: nat)
    requires i < j <= |log| && AcceptedAt(log, i)
    ensures After(Fold(EMPTY, log[..j]), log[i]) == Fold(EMPTY, log[..j])
  {
    hide Evolves, Sound, After, Apply;
    var early := Fold(EMPTY, log[..i + 1]);
    assert log[..i + 1][..i] == log[..i];
    AcceptedIsIndexed(Fold(EMPTY, log[..i]), log[i]);
    EmptySound();
    FoldEvolves(EMPTY, log[..i + 1]);
    FoldEvolves(early, log[i + 1..j]);
    FoldAppend(EMPTY, log[..i + 1], log[i + 1..j]);
    assert log[..i + 1] + log[i + 1..j] == log[..j];
    KeyStays(early, Fold(EMPTY, log[..j]), log[i]);
  }

  /** Repeating an accepted event verbatim, anywhere later, changes nothing at all. */
  lemma RepetitionIsHarmless(log: seq<ControlEvent>, i: nat, j: nat)
    requires i < j <= |log| && AcceptedAt(log, i)
    ensures Fold(EMPTY, log[..j] + [log[i]] + log[j..]) == Fold(EMPTY, log)
  {
    hide AcceptedAt, Apply, After, Fold;
    AcceptedStays(log, i, j);
    FoldSkip(EMPTY, log[..j], log[i], log[j..]);
    assert log[..j] + log[j..] == log;
  }

  lemma FoldSkip(p: Projection, a: seq<ControlEvent>, e: ControlEvent, b: seq<ControlEvent>)
    requires After(Fold(p, a), e) == Fold(p, a)
    ensures Fold(p, a + [e] + b) == Fold(p, a + b)
  {
    hide After;
    assert (a + [e])[..|a + [e]| - 1] == a;
    FoldAppend(p, a + [e], b);
    FoldAppend(p, a, b);
  }

  lemma KeyStays(early: Projection, late: Projection, e: ControlEvent)
    requires Evolves(early, late) && e.idempotencyKey in early.idempotency && early.idempotency[e.idempotencyKey] == e
    ensures After(late, e) == late
  {
    hide Check, Store;
  }

  /** However often and by whomever a key is used, at most one recorded event carries it. */
  lemma OneEffectPerKey(log: seq<ControlEvent>, i: nat, j: nat)
    requires i < |Fold(EMPTY, log).events| && j < |Fold(EMPTY, log).events|
    requires Fold(EMPTY, log).events[i].idempotencyKey == Fold(EMPTY, log).events[j].idempotencyKey
    ensures i == j
  {
    FoldEvolves(EMPTY, log);
  }
}
