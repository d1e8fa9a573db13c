/**
 What a caller is answered when another caller's commit under the same key came first: by the duplicate branch
 under the lock, in logs that the store wrote and in others.
 */
module ControlRaces {
  import opened Common
  import opened ControlRecords
  import opened ControlReducer
  import opened ControlHistory
  import opened ControlStore
  import R = ControlRuns
  import opened ControlApprovals

  // ---------- Records and the places they are stored at ----------

  datatype Slot = Slot(kind: TargetKind, id: Id)

  /** The single records a payload stores, by the place they are stored at. */
  function RecordsOf(payload: Payload): map<Slot, Payload> {
    match payload
    case TaskPayload(r) => map[Slot(TaskTarget, r.taskId) := payload]
    case ContractPayload(r) => map[Slot(ContractTarget, r.taskId) := payload]
    case AgentPayload(r) => map[Slot(AgentTarget, r.agentId) := payload]
    case WorkspacePayload(r) => map[Slot(WorkspaceTarget, r.workspaceId) := payload]
    case AttemptPayload(r) => map[Slot(AttemptTarget, r.attemptId) := payload]
    case ApprovalPayload(r) => map[Slot(ApprovalTarget, r.approvalId) := payload]
    case ResolutionPayload(r, a, _) =>
      map[Slot(ApprovalTarget, r.approvalId) := ApprovalPayload(r), Slot(AttemptTarget, a.attemptId) := AttemptPayload(a)]
    case BudgetPayload(r) => map[Slot(BudgetTarget, r.policyId) := payload]
    case SchedulePayload(r) => map[Slot(ScheduleTarget, r.scheduleId) := payload]
    case ClaimPayload(r, _) => map[Slot(ScheduleTarget, r.scheduleId) := SchedulePayload(r)]
    case UndecodedPayload => map[]
  }

  function RecordAt(p: Projection, at: Slot): Option<Payload> {
    match at.kind
    case TaskTarget => if at.id in p.tasks then Some(TaskPayload(p.tasks[at.id])) else None
    case ContractTarget => if at.id in p.contracts then Some(ContractPayload(p.contracts[at.id])) else None
    case AgentTarget => if at.id in p.agents then Some(AgentPayload(p.agents[at.id])) else None
    case WorkspaceTarget => if at.id in p.workspaces then Some(WorkspacePayload(p.workspaces[at.id])) else None
    case AttemptTarget => if at.id in p.attempts then Some(AttemptPayload(p.attempts[at.id])) else None
    case ApprovalTarget => if at.id in p.approvals then Some(ApprovalPayload(p.approvals[at.id])) else None
    case BudgetTarget => if at.id in p.budgets then Some(BudgetPayload(p.budgets[at.id])) else None
    case ScheduleTarget => if at.id in p.schedules then Some(SchedulePayload(p.schedules[at.id])) else None
    case OtherTarget(_) => None
  }

  function RevisionOf(record: Payload): int {
    match record
    case TaskPayload(r) => r.revision
    case ContractPayload(r) => r.revision
    case AgentPayload(r) => r.revision
    case WorkspacePayload(r) => r.revision
    case AttemptPayload(r) => r.revision
    case ApprovalPayload(r) => r.revision
    case ResolutionPayload(r, _, _) => r.revision
    case BudgetPayload(r) => r.revision
    case SchedulePayload(r) => r.revision
    case ClaimPayload(r, _) => r.revision
    case UndecodedPayload => 0
  }

  /** Some later event of the log stores a record where the event at i did. */
  ghost predicate MovedSince(events: seq<ControlEvent>, i: nat, at: Slot) {
    exists j :: i < j < |events| && at in RecordsOf(events[j].payload)
  }

  lemma TasksMoveSlots(p: Projection, payload: Payload, at: Slot)
    requires payload.TaskPayload? || payload.ContractPayload? || payload.AgentPayload? || payload.WorkspacePayload?
    ensures RecordAt(Store(p, payload), at) == if at in RecordsOf(payload) then Some(RecordsOf(payload)[at]) else RecordAt(p, at)
  {
  }

  lemma AttemptsMoveSlots(p: Projection, payload: Payload, at: Slot)
    requires payload.AttemptPayload? || payload.ApprovalPayload?
    ensures RecordAt(Store(p, payload), at) == if at in RecordsOf(payload) then Some(RecordsOf(payload)[at]) else RecordAt(p, at)
  {
  }

  lemma ResolutionsMoveSlots(p: Projection, payload: Payload, at: Slot)
    requires payload.ResolutionPayload?
    ensures RecordAt(Store(p, payload), at) == if at in RecordsOf(payload) then Some(RecordsOf(payload)[at]) else RecordAt(p, at)
  {
  }

  lemma SchedulesMoveSlots(p: Projection, payload: Payload, at: Slot)
    requires payload.BudgetPayload? || payload.SchedulePayload? || payload.ClaimPayload?
    ensures RecordAt(Store(p, payload), at) == if at in RecordsOf(payload) then Some(RecordsOf(payload)[at]) else RecordAt(p, at)
  {
  }

  lemma StoreMovesSlots(p: Projection, payload: Payload, at: Slot)
    ensures RecordAt(Store(p, payload), at) == if at in RecordsOf(payload) then Some(RecordsOf(payload)[at]) else RecordAt(p, at)
  {
    hide Store, RecordAt, RecordsOf;
    match payload {
      case TaskPayload(_) => TasksMoveSlots(p, payload, at);
      case ContractPayload(_) => TasksMoveSlots(p, payload, at);
      case AgentPayload(_) => TasksMoveSlots(p, payload, at);
      case WorkspacePayload(_) => TasksMoveSlots(p, payload, at);
      case AttemptPayload(_) => AttemptsMoveSlots(p, payload, at);
      case ApprovalPayload(_) => AttemptsMoveSlots(p, payload, at);
      case ResolutionPayload(_, _, _) => ResolutionsMoveSlots(p, payload, at);
      case BudgetPayload(_) => SchedulesMoveSlots(p, payload, at);
      case SchedulePayload(_) => SchedulesMoveSlots(p, payload, at);
      case ClaimPayload(_, _) => SchedulesMoveSlots(p, payload, at);
      case UndecodedPayload => NothingMovesSlots(p, at);
    }
  }

  lemma NothingMovesSlots(p: Projection, at: Slot)
    ensures Store(p, UndecodedPayload) == p && RecordsOf(UndecodedPayload) == map[]
  {
  }

  lemma MovesForwardInSlots(p: Projection, payload: Payload, at: Slot)
    requires MovesForward(p, payload) && at in RecordsOf(payload) && RecordAt(p, at).Some?
    ensures RevisionOf(RecordAt(p, at).value) < RevisionOf(RecordsOf(payload)[at])
  {
    match payload {
      case TaskPayload(_) =>
      case ContractPayload(_) =>
      case AgentPayload(_) =>
      case WorkspacePayload(_) =>
      case AttemptPayload(_) =>
      case ApprovalPayload(_) =>
      case ResolutionPayload(_, _, _) =>
      case BudgetPayload(_) =>
      case SchedulePayload(_) =>
      case ClaimPayload(_, _) =>
    }
  }

  lemma StoredIsNewer(p: Projection, e: ControlEvent, at: Slot)
    requires AllKeyed(p) && Check(p, e).None? && at in RecordsOf(e.payload) && RecordAt(p, at).Some?
    ensures RevisionOf(RecordAt(p, at).value) < RevisionOf(RecordsOf(e.payload)[at])
  {
    hide Check, Keyed, MovesForward, RecordAt, RecordsOf, RevisionOf;
    CheckedMovesForward(p, e);
    MovesForwardInSlots(p, e.payload, at);
  }

  lemma AcceptedMovesSlots(p: Projection, e: ControlEvent, at: Slot)
    requires Sound(p) && Apply(p, e).Applied?
    ensures RecordAt(After(p, e), at) == if at in RecordsOf(e.payload) then Some(RecordsOf(e.payload)[at]) else RecordAt(p, at)
    ensures at in RecordsOf(e.payload) && RecordAt(p, at).Some? ==>
      RevisionOf(RecordAt(p, at).value) < RevisionOf(RecordsOf(e.payload)[at])
  {
    hide Check, Store, RecordAt, RecordsOf, Keyed, Indexed;
    StoreMovesSlots(p, e.payload, at);
    SameSlots(Store(p, e.payload), e, at);
    if at in RecordsOf(e.payload) && RecordAt(p, at).Some? {
      StoredIsNewer(p, e, at);
    }
  }

  lemma SameSlots(p: Projection, e: ControlEvent, at: Slot)
    ensures RecordAt(Record(p, e), at) == RecordAt(p, at)
  {
  }

  /** From the event that stored a record on, the record stays exactly until another event stores there. */
  lemma {:induction false} RecordStaysUntilMoved(events: seq<ControlEvent>, i: nat, at: Slot)
    requires i < |events| && at in RecordsOf(events[i].payload)
    requires forall k :: 0 <= k < |events| ==> Apply(Fold(EMPTY, events[..k]), events[k]).Applied?
    ensures var now, first := RecordAt(Fold(EMPTY, events), at), RecordsOf(events[i].payload)[at];
      now.Some? && RevisionOf(first) <= RevisionOf(now.value) && (now == Some(first) <==> !MovedSince(events, i, at))
    decreases |events|
  {
    hide Apply, After, RecordAt, RecordsOf, RevisionOf, Sound;
    var n := |events| - 1;
    var init, p := events[..n], Fold(EMPTY, events[..n]);
    EmptySound();
    FoldEvolves(EMPTY, init);
    AcceptedMovesSlots(p, events[n], at);
    if i < n {
      assert forall k :: 0 <= k < n ==> init[..k] == events[..k] && init[k] == events[k];
      RecordStaysUntilMoved(init, i, at);
      MovedStep(events, i, at);
    }
  }

  lemma MovedStep(events: seq<ControlEvent>, i: nat, at: Slot)
    requires i < |events| - 1
    ensures MovedSince(events, i, at) <==>
      MovedSince(events[..|events| - 1], i, at) || at in RecordsOf(events[|events| - 1].payload)
  {
    hide RecordsOf;
    if MovedSince(events[..|events| - 1], i, at) {
      var j :| i < j < |events| - 1 && at in RecordsOf(events[..|events| - 1][j].payload);
      assert at in RecordsOf(events[j].payload);
    }
    if MovedSince(events, i, at) {
      var j :| i < j < |events| && at in RecordsOf(events[j].payload);
      if j < |events| - 1 {
        assert at in RecordsOf(events[..|events| - 1][j].payload);
      }
    }
  }

  // ---------- The answer ----------

  /** The places a method reads its answer from: its own target, and the attempt when it resolves an approval. */
  function AnswerSlots(d: Draft): set<Slot> {
    {Slot(d.targetKind, d.targetId)}
    + if d.payload.ResolutionPayload? then {Slot(AttemptTarget, d.payload.released.attemptId)} else {}
  }

  /** What it reads there; an absent record is the source's `KeyError`. */
  function Answered(p: Projection, d: Draft): map<Slot, Option<Payload>> { map at | at in AnswerSlots(d) :: RecordAt(p, at) }

  /** What the event stored there. */
  function StoredBy(e: ControlEvent, d: Draft): map<Slot, Option<Payload>> {
    map at | at in AnswerSlots(d) :: if at in RecordsOf(e.payload) then Some(RecordsOf(e.payload)[at]) else None
  }

  lemma SameAnswers(p: Projection, e: ControlEvent, d: Draft)
    ensures Answered(p, d) == StoredBy(e, d) <==>
      forall at :: at in AnswerSlots(d) ==>
        RecordAt(p, at) == if at in RecordsOf(e.payload) then Some(RecordsOf(e.payload)[at]) else None
  {
    hide RecordAt, RecordsOf, AnswerSlots;
    if Answered(p, d) == StoredBy(e, d) {
      forall at | at in AnswerSlots(d)
        ensures RecordAt(p, at) == if at in RecordsOf(e.payload) then Some(RecordsOf(e.payload)[at]) else None
      {
        assert Answered(p, d)[at] == StoredBy(e, d)[at];
      }
    }
  }

  // ---------- Logs the store wrote ----------

  lemma {:induction false} StoreWrittenSteps(events: seq<ControlEvent>, k: nat)
    requires R.StoreWritten(events) && k < |events|
    ensures R.StoreStep(Fold(EMPTY, events[..k]), events[k])
    decreases |events|
  {
    hide Fold, R.StoreStep;
    if k < |events| - 1 {
      StoreWrittenSteps(events[..|events| - 1], k);
      assert events[..|events| - 1][..k] == events[..k];
    }
  }

  lemma StoreWrittenApplies(events: seq<ControlEvent>, k: nat)
    requires R.StoreWritten(events) && k < |events|
    ensures Apply(Fold(EMPTY, events[..k]), events[k]).Applied?
  {
    hide Fold, Apply, R.StoreStep, R.StoreWritten;
    StoreWrittenSteps(events, k);
    StoreStepApplies(Fold(EMPTY, events[..k]), events[k]);
  }

  lemma {:induction false} StoreWrittenIsRecorded(events: seq<ControlEvent>)
    requires R.StoreWritten(events)
    ensures Fold(EMPTY, events).events == events
    decreases |events|
  {
    hide After, Apply, R.StoreStep;
    if events != [] {
      var init, e := events[..|events| - 1], events[|events| - 1];
      StoreWrittenIsRecorded(init);
      StoreWrittenApplies(events, |events| - 1);
      AppliedRecords(Fold(EMPTY, init), e);
    }
  }

  lemma StoreStepApplies(p: Projection, e: ControlEvent)
    requires R.StoreStep(p, e)
    ensures Apply(p, e).Applied? && e.operationDigest.targetKind == e.targetKind && e.operationDigest.targetId == e.targetId
    ensures e.operationDigest.action == e.action
  {
    hide Build, Apply, Retry;
    var c, meta :| R.CommitsAs(p, c, meta, e);
    R.CommittedIsApplied(p, c, meta);
    CommittedEvent(p, Build(p, c).value, c, meta);
  }

  lemma CheckedNamesSlot(p: Projection, e: ControlEvent)
    requires Check(p, e).None?
    ensures Slot(e.targetKind, e.targetId) in RecordsOf(e.payload)
    ensures e.action.ApprovalResolved? <==> e.payload.ResolutionPayload?
    ensures e.action.ApprovalResolved? ==>
      && e.targetKind == ApprovalTarget && e.targetId == e.payload.resolved.approvalId
      && Slot(AttemptTarget, e.payload.released.attemptId) in RecordsOf(e.payload)
  {
  }

  lemma ResolutionNamesItsAttempt(p: Projection, e: ControlEvent)
    requires AllKeyed(p) && Check(p, e).None? && e.payload.ResolutionPayload?
    ensures e.payload.resolved.scope.attemptId == Some(e.payload.released.attemptId)
  {
  }

  lemma BuiltResolution(q: Projection, c: Call, d: Draft)
    requires AllKeyed(q) && Build(q, c) == Success(d) && d.action.ApprovalResolved?
    ensures d.payload.ResolutionPayload? && d.targetId in q.approvals
    ensures q.approvals[d.targetId].scope.attemptId == Some(d.payload.released.attemptId)
  {
    DraftKind(q, c, d);
    hide Transitioned, NextTick;
  }

  lemma DraftPayload(q: Projection, c: Call, d: Draft)
    requires Build(q, c) == Success(d)
    ensures d.action.ApprovalResolved? <==> d.payload.ResolutionPayload?
  {
    DraftKind(q, c, d);
    hide Build;
  }

  /** What the place-naming of an event and of a draft for the same intent come to. */
  lemma NamesMatch(p: Projection, e: ControlEvent, q: Projection, c: Call, d: Draft)
    requires AllKeyed(p) && Check(p, e).None? && AllKeyed(q) && Build(q, c) == Success(d)
    requires e.action == d.action && e.targetKind == d.targetKind && e.targetId == d.targetId
    requires e.payload.ResolutionPayload? && d.targetId in q.approvals ==>
      q.approvals[d.targetId].scope == e.payload.resolved.scope
    ensures AnswerSlots(d) <= RecordsOf(e.payload).Keys
  {
    hide Build, Check, AllKeyed;
    CheckedNamesSlot(p, e);
    DraftPayload(q, c, d);
    if d.action.ApprovalResolved? {
      BuiltResolution(q, c, d);
      ResolutionNamesItsAttempt(p, e);
    }
  }

  lemma AppliedPasses(p: Projection, e: ControlEvent)
    requires Apply(p, e).Applied?
    ensures Check(p, e).None?
  {
    hide Check;
  }

  lemma FoldIsKeyed(log: seq<ControlEvent>)
    ensures AllKeyed(Fold(EMPTY, log))
  {
    hide Fold, AllKeyed, Indexed;
    EmptySound();
    FoldEvolves(EMPTY, log);
  }

  /** In a log the store wrote, the first event of a key stored at every place the caller reads its answer from. */
  lemma FirstFillsAnswer(events: seq<ControlEvent>, m: nat, c: Call, d: Draft, i: nat)
    requires R.StoreWritten(events) && m <= |events| && i < |events|
    requires Build(Fold(EMPTY, events[..m]), c) == Success(d)
    requires events[i].operationDigest.action == d.action
    requires events[i].operationDigest.targetKind == d.targetKind && events[i].operationDigest.targetId == d.targetId
    ensures AnswerSlots(d) <= RecordsOf(events[i].payload).Keys
  {
    hide *;
    var q, p, first := Fold(EMPTY, events[..m]), Fold(EMPTY, events[..i]), events[i];
    StoreWrittenSteps(events, i);
    StoreStepApplies(p, first);
    AppliedPasses(p, first);
    FoldIsKeyed(events[..i]);
    FoldIsKeyed(events[..m]);
    CheckedNamesSlot(p, first);
    if first.payload.ResolutionPayload? {
      ScopesAgree(events, m, i);
    }
    NamesMatch(p, first, q, c, d);
  }

  /** A resolved approval has, at every moment of the log, the scope its resolution carries. */
  lemma ScopesAgree(events: seq<ControlEvent>, m: nat, i: nat)
    requires m <= |events| && i < |events| && events[i].payload.ResolutionPayload?
    requires Apply(Fold(EMPTY, events[..i]), events[i]).Applied?
    ensures var id := events[i].payload.resolved.approvalId; var q := Fold(EMPTY, events[..m]);
      id in q.approvals ==> q.approvals[id].scope == events[i].payload.resolved.scope
  {
    hide Apply, After, Settled;
    var id := events[i].payload.resolved.approvalId;
    assert events[..i + 1][..i] == events[..i];
    StoresResolution(Fold(EMPTY, events[..i]), events[i]);
    assert Fold(EMPTY, events[..i + 1]) == After(Fold(EMPTY, events[..i]), events[i]);
    hide Fold;
    if m <= i + 1 {
      SettledIsFinal(events[..m], events[m..i + 1], id);
      assert events[..m] + events[m..i + 1] == events[..i + 1];
    } else {
      SettledIsFinal(events[..i + 1], events[i + 1..m], id);
      assert events[..i + 1] + events[i + 1..m] == events[..m];
    }
  }

  lemma StoresResolution(p: Projection, e: ControlEvent)
    requires Apply(p, e).Applied? && e.payload.ResolutionPayload?
    ensures var id := e.payload.resolved.approvalId; id in After(p, e).approvals && After(p, e).approvals[id] == e.payload.resolved
  {
    hide Check;
  }

  /**
   A call that lost the race inside the lock (`Replayed` by `Commit`) answers with the records of its target at that
   moment. In a log the store wrote they are the ones the first commit stored exactly when no event recorded after
   that commit stores a record of the same target.
   */
  lemma RacingRetryAnswersFirstIffUnmoved(events: seq<ControlEvent>, m: nat, c: Call, d: Draft, meta: Meta) returns (i: nat)
    requires R.StoreWritten(events) && m <= |events| && Build(Fold(EMPTY, events[..m]), c) == Success(d)
    requires Commit(Fold(EMPTY, events), d, c, meta).Replayed?
    ensures var r, first := Fold(EMPTY, events), Commit(Fold(EMPTY, events), d, c, meta).first;
      && i < |events| && events[i] == first && first.idempotencyKey == c.key && AnswerSlots(d) <= RecordsOf(first.payload).Keys
      && (Answered(r, d) == StoredBy(first, d) <==> forall at :: at in AnswerSlots(d) ==> !MovedSince(events, i, at))
  {
    var r := Fold(EMPTY, events);
    EmptySound();
    FoldEvolves(EMPTY, events);
    StoreWrittenIsRecorded(events);
    var first := Commit(r, d, c, meta).first;
    i := ReplayedIsRecorded(r, d, c, meta);
    FirstFillsAnswer(events, m, c, d, i);
    hide Commit, Fold, RecordAt, RecordsOf, Apply, AnswerSlots, R.StoreWritten, Build, Sound;
    forall k | 0 <= k < |events| ensures Apply(Fold(EMPTY, events[..k]), events[k]).Applied? {
      StoreWrittenApplies(events, k);
    }
    forall at | at in AnswerSlots(d)
      ensures at in RecordsOf(first.payload)
      ensures RecordAt(r, at) == Some(RecordsOf(first.payload)[at]) <==> !MovedSince(events, i, at)
    {
      RecordStaysUntilMoved(events, i, at);
    }
    SameAnswers(r, first, d);
  }

  lemma ReplayedIsRecorded(r: Projection, d: Draft, c: Call, meta: Meta) returns (i: nat)
    requires Sound(r) && Commit(r, d, c, meta).Replayed?
    ensures i < |r.events| && r.events[i] == Commit(r, d, c, meta).first && r.events[i].idempotencyKey == c.key
    ensures var intent := r.events[i].operationDigest;
      && intent.action == d.action && intent.targetKind == d.targetKind && intent.targetId == d.targetId
      && intent.operation == d.operation && intent.priorState == d.prior && intent.nextState == d.next
  {
    hide Check, Store, AllKeyed, ValidActor;
    assert c.key in r.idempotency;
    i :| 0 <= i < |r.events| && r.events[i] == r.idempotency[c.key];
  }

  // ---------- Instances ----------

  /**
   It does happen. Two callers hold drafts for one key, built before anything was written; one commits, the
   agent is registered again, and then the other, with an event id of its own, is answered the newer record.
   */
  lemma RacingRetryMayAnswerLater(key: string, other: string, meta: Meta, meta': Meta, meta'': Meta)
    requires key != other
    ensures var c, again := Registering(key, 0, "ci", 1.0), Registering(other, 1, "ci", 2.0);
      && Retry(EMPTY, c).Fresh? && Build(EMPTY, c).Success?
      && var d := Build(EMPTY, c).value;
      && Commit(EMPTY, d, c, meta).Committed?
      && var first := Commit(EMPTY, d, c, meta).event;
      && var p := After(EMPTY, first);
      && Build(p, again).Success? && Commit(p, Build(p, again).value, again, meta').Committed?
      && var r := After(p, Commit(p, Build(p, again).value, again, meta').event);
      && Commit(r, d, c, meta'') == Replayed(first) && Answered(r, d) != StoredBy(first, d)
  {
    hide Strip, ValidText, CleanProfile;
    var c, again := Registering(key, 0, "ci", 1.0), Registering(other, 1, "ci", 2.0);
    PaddedActor();
    RegistrationCommits(EMPTY, c, meta);
    var d := Build(EMPTY, c).value;
    var first := Commit(EMPTY, d, c, meta).event;
    CommittedEvent(EMPTY, d, c, meta);
    var p := After(EMPTY, first);
    RegistrationCommits(p, again, meta');
    var r := After(p, Commit(p, Build(p, again).value, again, meta').event);
    DraftOfRegistration(EMPTY, c);
    DraftOfRegistration(p, again);
    hide Apply, Check, Build, After, Commit;
    ReplaysSameDraft(r, d, c, meta, meta'');
    NewerAgentIsRead(r, d, first);
  }

  lemma NewerAgentIsRead(r: Projection, d: Draft, first: ControlEvent)
    requires d.payload.AgentPayload? && d.targetKind == AgentTarget && d.targetId == d.payload.agent.agentId
    requires first.payload == d.payload && d.targetId in r.agents && r.agents[d.targetId].revision != d.payload.agent.revision
    ensures Answered(r, d) != StoredBy(first, d)
  {
    var at := Slot(AgentTarget, d.targetId);
    assert Answered(r, d)[at] == Some(AgentPayload(r.agents[d.targetId]));
    assert StoredBy(first, d)[at] == Some(d.payload);
  }

  lemma DraftOfRegistration(p: Projection, c: Call)
    requires c.request.RegisterAgent? && Build(p, c).Success? && c.expected >= 0
    ensures var d := Build(p, c).value;
      && d.payload.AgentPayload? && d.targetKind == AgentTarget && d.targetId == d.payload.agent.agentId == c.request.agentId
      && d.expected >= 0 && d.payload.agent.revision == c.expected + 1
  {
    hide CleanProfile;
  }

  lemma ReplaysSameDraft(r: Projection, d: Draft, c: Call, meta: Meta, meta': Meta)
    requires d.expected >= 0 && c.key in r.idempotency && r.idempotency[c.key] == EventOf(d, c, meta)
    ensures Commit(r, d, c, meta') == Replayed(EventOf(d, c, meta))
  {
    hide CleanActor;
  }

  /** An event that registers agent y under the digest of a caller's registration of agent "g". */
  function Misnamed(y: Id, d: Draft, c: Call, meta: Meta): ControlEvent {
    EventOf(d, c, meta).(targetId := y, payload := AgentPayload(AgentSpec(y, AgentProfile("Y", "x", "y", ["y"], []), true, 1, 1.0)))
  }

  /**
   In a log the store did not write, the digest of an event need not describe the event: the commit is replayed
   from it although the caller's own target does not exist.
   */
  lemma MisnamedKeyAnswersNothing(key: string, y: Id, meta: Meta, meta': Meta)
    requires y != "g"
    ensures var c := Registering(key, 0, "ci", 1.0);
      && Build(EMPTY, c).Success?
      && var d := Build(EMPTY, c).value;
      && var e := Misnamed(y, d, c, meta);
      && Apply(EMPTY, e).Applied? && Commit(After(EMPTY, e), d, c, meta') == Replayed(e)
      && Answered(After(EMPTY, e), d) == map[Slot(AgentTarget, "g") := None]
  {
    hide Strip, ValidText, CleanProfile;
    var c := Registering(key, 0, "ci", 1.0);
    PaddedActor();
    RegistrationCommits(EMPTY, c, meta);
    var d := Build(EMPTY, c).value;
    var e := Misnamed(y, d, c, meta);
    DraftOfRegistration(EMPTY, c);
    hide Build;
    assert Check(EMPTY, e).None?;
    var p := After(EMPTY, e);
    assert p == Record(Store(EMPTY, e.payload), e);
    assert AnswerSlots(d) == {Slot(AgentTarget, "g")};
    assert Answered(p, d)[Slot(AgentTarget, "g")].None?;
  }

  // ---------- A racing call with a snapshot of its own ----------

  /** What of the snapshot enters the operation digest of a call. */
  datatype Observation =
    | Nothing
    | BirthSeen(agentRevision: int, control: Control)
    | ExecutionSeen(execution: Execution)
    | ApprovalSeen(state: ApprovalState)
    | TickSeen(tick: Option<real>, cadence: Cadence)

  function Observed(q: Projection, c: Call): Observation {
    match c.request
    case CreateAttempt(_, task, agent, _, _, initial) =>
      if task !in q.contracts || agent !in q.agents then Nothing
      else BirthSeen(q.agents[agent].revision,
                     OrElse(initial, if q.contracts[task].RequiresLaunchApproval() then AwaitingApproval else Ready))
    case TransitionAttempt(id, _) => if id in q.attempts then ExecutionSeen(q.attempts[id].execution) else Nothing
    case ExpireApproval(id) => if id in q.approvals then ApprovalSeen(q.approvals[id].state) else Nothing
    case ClaimSchedule(id) => if id in q.schedules then TickSeen(q.schedules[id].nextRunAt, q.schedules[id].cadence) else Nothing
    case _ => Nothing
  }

  predicate SameIntent(d: Draft, d': Draft) {
    && d.action == d'.action && d.targetKind == d'.targetKind && d.targetId == d'.targetId && d.expected == d'.expected
    && d.prior == d'.prior && d.next == d'.next && d.operation == d'.operation
  }

  /** The same request, up to the initial control state of a new attempt. */
  predicate AsksAlike(a: Request, b: Request) {
    if a.CreateAttempt? && b.CreateAttempt? then b.(initialControl := a.initialControl) == a else a == b
  }

  ghost predicate IntentsFollow(q: Projection, q': Projection, c: Call, c': Call, d: Draft, d': Draft) {
    SameIntent(d, d') <==>
    AsksAlike(c.request, c'.request) && ExpectedOf(c) == ExpectedOf(c') && Observed(q, c) == Observed(q', c')
  }

  lemma CreationIntents(q: Projection, q': Projection, c: Call, c': Call, d: Draft, d': Draft)
    requires Build(q, c) == Success(d) && Build(q', c') == Success(d') && ActionOf(c.request) == ActionOf(c'.request)
    requires c.request.CreateAttempt?
    ensures IntentsFollow(q, q', c, c', d, d')
  {
    hide TaskContract.RequiresLaunchApproval;
  }

  lemma TransitionIntents(q: Projection, q': Projection, c: Call, c': Call, d: Draft, d': Draft)
    requires Build(q, c) == Success(d) && Build(q', c') == Success(d') && ActionOf(c.request) == ActionOf(c'.request)
    requires c.request.TransitionAttempt?
    ensures IntentsFollow(q, q', c, c', d, d')
  {
    hide Overlay, StripOptional;
  }

  lemma ResolutionIntents(q: Projection, q': Projection, c: Call, c': Call, d: Draft, d': Draft)
    requires Build(q, c) == Success(d) && Build(q', c') == Success(d') && ActionOf(c.request) == ActionOf(c'.request)
    requires c.request.ResolveApproval? || c.request.DecideApproval?
    ensures IntentsFollow(q, q', c, c', d, d')
  {
    hide Strip, ValidText;
  }

  lemma ApprovalIntents(q: Projection, q': Projection, c: Call, c': Call, d: Draft, d': Draft)
    requires Build(q, c) == Success(d) && Build(q', c') == Success(d') && ActionOf(c.request) == ActionOf(c'.request)
    requires c.request.ConsumeApproval? || c.request.ExpireApproval? || c.request.RequestApproval?
    ensures IntentsFollow(q, q', c, c', d, d')
  {
    hide Strip, ValidText;
  }

  lemma ScheduleIntents(q: Projection, q': Projection, c: Call, c': Call, d: Draft, d': Draft)
    requires Build(q, c) == Success(d) && Build(q', c') == Success(d') && ActionOf(c.request) == ActionOf(c'.request)
    requires c.request.UpdateSchedule? || c.request.ClaimSchedule? || c.request.RegisterSchedule?
    ensures IntentsFollow(q, q', c, c', d, d')
  {
    hide NextTick, ScheduleSpec.Decodable;
  }

  lemma TaskIntents(q: Projection, q': Projection, c: Call, c': Call, d: Draft, d': Draft)
    requires Build(q, c) == Success(d) && Build(q', c') == Success(d') && ActionOf(c.request) == ActionOf(c'.request)
    requires c.request.CreateTask? || c.request.MergeTask? || c.request.CreateContract?
    ensures IntentsFollow(q, q', c, c', d, d')
  {
    hide Strip, StripAll;
  }

  lemma RegistryIntents(q: Projection, q': Projection, c: Call, c': Call, d: Draft, d': Draft)
    requires Build(q, c) == Success(d) && Build(q', c') == Success(d') && ActionOf(c.request) == ActionOf(c'.request)
    requires c.request.RegisterWorkspace? || c.request.RegisterAgent? || c.request.RegisterBudget?
    ensures IntentsFollow(q, q', c, c', d, d')
  {
    hide Strip, StripOptional, StripAll, CleanProfile;
  }

  lemma IntentsFollowObservations(q: Projection, q': Projection, c: Call, c': Call, d: Draft, d': Draft)
    requires Build(q, c) == Success(d) && Build(q', c') == Success(d')
    ensures IntentsFollow(q, q', c, c', d, d')
  {
    DraftNames(q, c, d);
    DraftNames(q', c', d');
    if ActionOf(c.request) != ActionOf(c'.request) {
      assert !AsksAlike(c.request, c'.request);
    } else {
      hide Build, Observed, SameIntent, IntentsFollow, AsksAlike, ActionOf, TargetOf;
      match c.request {
        case CreateAttempt(_, _, _, _, _, _) => CreationIntents(q, q', c, c', d, d');
        case TransitionAttempt(_, _) => TransitionIntents(q, q', c, c', d, d');
        case ResolveApproval(_, _, _) => ResolutionIntents(q, q', c, c', d, d');
        case DecideApproval(_, _, _) => ResolutionIntents(q, q', c, c', d, d');
        case ConsumeApproval(_) => ApprovalIntents(q, q', c, c', d, d');
        case ExpireApproval(_) => ApprovalIntents(q, q', c, c', d, d');
        case RequestApproval(_, _) => ApprovalIntents(q, q', c, c', d, d');
        case UpdateSchedule(_, _, _) => ScheduleIntents(q, q', c, c', d, d');
        case ClaimSchedule(_) => ScheduleIntents(q, q', c, c', d, d');
        case RegisterSchedule(_, _, _, _, _, _) => ScheduleIntents(q, q', c, c', d, d');
        case CreateTask(_, _) => TaskIntents(q, q', c, c', d, d');
        case MergeTask(_, _) => TaskIntents(q, q', c, c', d, d');
        case CreateContract(_, _, _, _, _, _) => TaskIntents(q, q', c, c', d, d');
        case RegisterWorkspace(_, _, _, _) => RegistryIntents(q, q', c, c', d, d');
        case RegisterAgent(_, _, _) => RegistryIntents(q, q', c, c', d, d');
        case RegisterBudget(_, _, _, _, _, _, _) => RegistryIntents(q, q', c, c', d, d');
      }
    }
  }

  /**
   A racing call with the key of a committed one, whose own lookup came before the commit: it is answered that commit
   exactly when it asks alike, at the same revision and as the same actor as written, and its snapshot shows the same
   agent revision and initial control, execution state, approval state or tick as the first one's did. Otherwise it
   is refused. For the twelve methods that observe nothing the snapshot does not matter.
   */
  lemma RacingCallIsAnsweredIff(
    q: Projection, p: Projection, c: Call, d: Draft, meta: Meta, q': Projection, r: Projection, c': Call, d': Draft, meta': Meta)
    requires Build(q, c) == Success(d) && Commit(p, d, c, meta).Committed? && c'.key == c.key
    requires Evolves(After(p, EventOf(d, c, meta)), r) && Build(q', c') == Success(d')
    ensures Commit(r, d', c', meta') ==
            if ExpectedOf(c') < 0 then Raised(Malformed)
            else if
              && AsksAlike(c.request, c'.request) && ExpectedOf(c) == ExpectedOf(c') && c.actor == c'.actor
              && Observed(q, c) == Observed(q', c')
            then Replayed(EventOf(d, c, meta)) else Raised(IdempotencyConflict)
  {
    IntentsFollowObservations(q, q', c, c', d, d');
    DraftNames(q', c', d');
    AppliedRecords(p, EventOf(d, c, meta));
    hide Check, Build, RecordsLater, Store, After, Apply, Observed, CleanActor, ValidActor, AsksAlike, ExpectedOf;
    assert r.idempotency[c.key] == EventOf(d, c, meta);
  }

  lemma DraftNames(q: Projection, c: Call, d: Draft)
    requires Build(q, c) == Success(d)
    ensures d.action == ActionOf(c.request) && d.targetKind == TargetOf(c.request).0 && d.targetId == TargetOf(c.request).1
    ensures d.expected == ExpectedOf(c)
  {
    hide NextTick, Transitioned, TaskContract.RequiresLaunchApproval, ScheduleSpec.Decodable, CleanProfile, StripAll;
  }
}
