/** Approvals are decided once, used once and never after their expiry, over every log. */
module ControlApprovals {
  import opened Common
  import opened ControlRecords
  import opened ControlReducer
  import opened ControlHistory

  predicate Settled(s: ApprovalState) { s.Rejected? || s.Expired? || s.Withdrawn? || s.Consumed? }

  predicate DecidedInTime(a: ApprovalRequest) {
    Truthy(a.decidedBy) && a.decidedAt.Some? && a.decidedAt.value < a.scope.expiresAt
  }

  /** What an approval in a reachable projection looks like, state by state. */
  ghost predicate ApprovalShape(a: ApprovalRequest) {
    && 1 <= a.revision <= 3
    && match a.state {
         case Undecided => a.revision == 1 && a.decidedBy.None? && a.decidedAt.None? && a.consumedAt.None?
         case Approved => a.revision == 2 && DecidedInTime(a) && a.consumedAt.None?
         case Rejected => a.revision == 2 && DecidedInTime(a) && a.consumedAt.None?
         case Consumed =>
           a.revision >= 2 && DecidedInTime(a) && a.consumedAt.Some? && a.consumedAt.value < a.scope.expiresAt
         case Expired => a.revision >= 2 && a.consumedAt.None?
         case Withdrawn => a.revision >= 2 && a.consumedAt.None?
       }
  }

  ghost predicate ApprovalsShaped(p: Projection) {
    forall id :: id in p.approvals ==> p.approvals[id].approvalId == id && ApprovalShape(p.approvals[id])
  }

  /** The scope, which holds the expiry, never changes; a settled approval does not change at all. */
  ghost predicate ApprovalChange(p: Projection, q: Projection, id: Id) {
    id in p.approvals ==>
      && id in q.approvals && q.approvals[id].scope == p.approvals[id].scope
      && (Settled(p.approvals[id].state) ==> q.approvals[id] == p.approvals[id])
  }

  lemma MovedApproval(p: Projection, e: ControlEvent, r: ApprovalRequest)
    requires ApprovalsShaped(p) && CheckApprovalMoved(p, e, r).None?
    requires e.action.ApprovalDecided? || e.action.ApprovalConsumed? || e.action.ApprovalExpired? || e.action.ApprovalCancelled?
    ensures r.approvalId in p.approvals && ApprovalShape(r) && r.scope == p.approvals[r.approvalId].scope
    ensures !Settled(p.approvals[r.approvalId].state)
  {
  }

  lemma RequestedApproval(p: Projection, e: ControlEvent, r: ApprovalRequest)
    requires CheckApprovalRequested(p, e, r).None?
    ensures r.approvalId !in p.approvals && ApprovalShape(r)
  {
  }

  lemma ResolvedApproval(p: Projection, e: ControlEvent, r: ApprovalRequest, a: RunAttempt, n: int)
    requires ApprovalsShaped(p) && CheckApprovalResolved(p, e, r, a, n).None?
    ensures r.approvalId in p.approvals && ApprovalShape(r) && r.scope == p.approvals[r.approvalId].scope
    ensures p.approvals[r.approvalId].state.Undecided? && (r.state.Consumed? || r.state.Rejected?)
    ensures a.attemptId in p.attempts && Some(a.attemptId) == r.scope.attemptId ==>
            p.attempts[a.attemptId].control.AwaitingApproval? && a.control == if r.state.Consumed? then Ready else PolicyHold
  {
  }

  /** An approval record a payload may store next. */
  ghost predicate Follows(p: Projection, r: ApprovalRequest) {
    && ApprovalShape(r)
    && (r.approvalId in p.approvals ==>
      r.scope == p.approvals[r.approvalId].scope && !Settled(p.approvals[r.approvalId].state))
  }

  lemma CheckedApprovalFollows(p: Projection, e: ControlEvent)
    requires ApprovalsShaped(p) && Check(p, e).None?
    ensures e.payload.ApprovalPayload? ==> Follows(p, e.payload.approval)
    ensures e.payload.ResolutionPayload? ==> Follows(p, e.payload.resolved)
  {
    hide ApprovalShape, CheckApprovalRequested, CheckApprovalMoved, CheckApprovalResolved;
    if e.payload.ApprovalPayload? {
      if e.action.ApprovalRequested? {
        RequestedApproval(p, e, e.payload.approval);
      } else {
        MovedApproval(p, e, e.payload.approval);
      }
    } else if e.payload.ResolutionPayload? {
      ResolvedApproval(p, e, e.payload.resolved, e.payload.released, e.payload.expectedAttemptRevision);
    }
  }

  lemma StoreKeepsApprovals(p: Projection, e: ControlEvent, id: Id)
    requires ApprovalsShaped(p) && Check(p, e).None?
    ensures var q := Store(p, e.payload);
      ApprovalChange(p, q, id) && (id in q.approvals ==> q.approvals[id].approvalId == id && ApprovalShape(q.approvals[id]))
  {
    hide Check, ApprovalShape, Store;
    CheckedApprovalFollows(p, e);
    StoredApprovals(p, e.payload);
  }

  lemma StoredApprovals(p: Projection, payload: Payload)
    ensures Store(p, payload).approvals ==
      match payload
      case ApprovalPayload(r) => p.approvals[r.approvalId := r]
      case ResolutionPayload(r, _, _) => p.approvals[r.approvalId := r]
      case _ => p.approvals
  {
  }

  lemma AfterKeepsApprovals(p: Projection, e: ControlEvent)
    requires ApprovalsShaped(p)
    ensures ApprovalsShaped(After(p, e)) && forall id :: ApprovalChange(p, After(p, e), id)
  {
    hide Check, Store, ApprovalShape;
    if Apply(p, e).Applied? {
      forall id
        ensures ApprovalChange(p, After(p, e), id)
        ensures id in After(p, e).approvals ==>
          After(p, e).approvals[id].approvalId == id && ApprovalShape(After(p, e).approvals[id])
      {
        StoreKeepsApprovals(p, e, id);
      }
    }
  }

  // ---------- Releases ----------

  predicate Resolves(e: ControlEvent) { e.action.ApprovalResolved? && e.payload.ResolutionPayload? }

  /** Each resolving event still owns the approval it resolved, and no two own the same one. */
  ghost predicate ReleasesOwnApprovals(p: Projection) {
    && (forall i :: 0 <= i < |p.events| && Resolves(p.events[i]) ==>
      var r := p.events[i].payload.resolved;
      (r.state.Consumed? || r.state.Rejected?) && r.approvalId in p.approvals && p.approvals[r.approvalId] == r)
    && (forall i, j :: 0 <= i < j < |p.events| && Resolves(p.events[i]) && Resolves(p.events[j]) ==>
      p.events[i].payload.resolved.approvalId != p.events[j].payload.resolved.approvalId)
  }

  lemma ResolvingEvent(p: Projection, e: ControlEvent)
    requires ApprovalsShaped(p) && Apply(p, e).Applied? && Resolves(e)
    ensures var r := e.payload.resolved;
      && (r.state.Consumed? || r.state.Rejected?)
      && r.approvalId in p.approvals && p.approvals[r.approvalId].state.Undecided?
      && r.approvalId in After(p, e).approvals && After(p, e).approvals[r.approvalId] == r
  {
    assert Check(p, e).None?;
    ResolvedApproval(p, e, e.payload.resolved, e.payload.released, e.payload.expectedAttemptRevision);
    hide Check;
  }

  lemma AfterKeepsReleases(p: Projection, e: ControlEvent)
    requires ApprovalsShaped(p) && ReleasesOwnApprovals(p)
    ensures ReleasesOwnApprovals(After(p, e))
  {
    hide Check, Store, ApprovalShape;
    AfterKeepsApprovals(p, e);
    if Apply(p, e).Applied? {
      var q := After(p, e);
      AppliedRecords(p, e);
      if Resolves(e) {
        ResolvingEvent(p, e);
      }
      forall i | 0 <= i < |q.events| && Resolves(q.events[i])
        ensures var r := q.events[i].payload.resolved;
          (r.state.Consumed? || r.state.Rejected?) && r.approvalId in q.approvals && q.approvals[r.approvalId] == r
      {
        if i < |p.events| {
          assert q.events[i] == p.events[i];
          assert ApprovalChange(p, q, q.events[i].payload.resolved.approvalId);
        }
      }
      forall i, j | 0 <= i < j < |q.events| && Resolves(q.events[i]) && Resolves(q.events[j])
        ensures q.events[i].payload.resolved.approvalId != q.events[j].payload.resolved.approvalId
      {
        assert q.events[i] == p.events[i];
        assert j < |p.events| ==> q.events[j] == p.events[j];
      }
    }
  }

  /** Single use, for every log: shapes hold, and resolutions map injectively to approvals they settled. */
  lemma {:induction false} ApprovalsAreSingleUse(log: seq<ControlEvent>)
    ensures ApprovalsShaped(Fold(EMPTY, log)) && ReleasesOwnApprovals(Fold(EMPTY, log))
    decreases |log|
  {
    hide After, ApprovalsShaped, ReleasesOwnApprovals;
    if log == [] {
      EmptyApprovals();
    } else {
      var p := Fold(EMPTY, log[..|log| - 1]);
      ApprovalsAreSingleUse(log[..|log| - 1]);
      AfterKeepsApprovals(p, log[|log| - 1]);
      AfterKeepsReleases(p, log[|log| - 1]);
    }
  }

  lemma EmptyApprovals()
    ensures ApprovalsShaped(EMPTY) && ReleasesOwnApprovals(EMPTY)
  {
  }

  /** Along a growing log an approval keeps its expiry, and once settled it is final. */
  lemma {:induction false} SettledIsFinal(log: seq<ControlEvent>, more: seq<ControlEvent>, id: Id)
    ensures ApprovalChange(Fold(EMPTY, log), Fold(EMPTY, log + more), id)
    decreases |more|
  {
    hide After, ApprovalsShaped;
    if more == [] {
      assert log + more == log;
    } else {
      var init := more[..|more| - 1];
      SettledIsFinal(log, init, id);
      ApprovalsAreSingleUse(log + init);
      AfterKeepsApprovals(Fold(EMPTY, log + init), more[|more| - 1]);
      assert (log + more)[..|log + more| - 1] == log + init;
      assert ApprovalChange(Fold(EMPTY, log + init), Fold(EMPTY, log + more), id);
    }
  }

  // ---------- The task of a released attempt ----------

  /**
   Resolving an approval hands the attempt to the approval's task. The attempt keeps its identity exactly when
   the two agreed beforehand; the reducer itself does not ask.
   */
  lemma ReleaseKeepsTaskIff(p: Projection, e: ControlEvent)
    requires AllKeyed(p) && Apply(p, e).Applied? && Resolves(e)
    ensures var aid, rid := e.payload.released.attemptId, e.payload.resolved.approvalId;
      && aid in p.attempts && aid in After(p, e).attempts && rid in p.approvals
      && (After(p, e).attempts[aid].identity == p.attempts[aid].identity
          <==> p.approvals[rid].scope.taskId == p.attempts[aid].identity.taskId)
  {
    assert Check(p, e).None?;
    var r, a := e.payload.resolved, e.payload.released;
    assert CheckApprovalResolved(p, e, r, a, e.payload.expectedAttemptRevision).None?;
    hide Check;
  }
}
