/** The life of an attempt, over every log. */
module ControlAttempts {
  import opened ControlRecords
  import opened ControlReducer

  // ---------- One event ----------

  /** One accepted change of an attempt. */
  ghost predicate AttemptMove(a: RunAttempt, r: RunAttempt) {
    r.revision == a.revision + 1 && StateMoves(a, r) && FreezesOnce(a, r)
  }

  ghost predicate AttemptStarts(r: RunAttempt) { r.revision == 1 && r.execution.Pending? && r.outcome.Unknown? }

  /** What each execution state is backed by. */
  ghost predicate AttemptBacked(a: RunAttempt) {
    && (a.execution.Launching? || a.execution.Running? || a.execution.CancelRequested? ==> Truthy(a.manifestId))
    && (a.execution.Running? || a.execution.CancelRequested? || a.execution.Succeeded? ==> a.HasCompleteProcessProof())
    && (Terminal(a.execution) ==> a.endedAt.Some?)
  }

  ghost predicate AttemptsBacked(p: Projection) {
    forall id :: id in p.attempts ==> p.attempts[id].attemptId == id && AttemptBacked(p.attempts[id])
  }

  ghost predicate AttemptChange(p: Projection, q: Projection, id: Id) {
    if id in p.attempts then id in q.attempts && (q.attempts[id] == p.attempts[id] || AttemptMove(p.attempts[id], q.attempts[id]))
    else id in q.attempts ==> AttemptStarts(q.attempts[id])
  }

  lemma MovedStaysBacked(a: RunAttempt, r: RunAttempt)
    requires AttemptBacked(a) && AttemptMove(a, r) && CarriesEvidence(r)
    ensures AttemptBacked(r)
  {
  }

  /** The attempt a payload stores, if any, moves the one stored before. */
  ghost predicate Advances(p: Projection, r: RunAttempt) {
    AttemptBacked(r) && if r.attemptId in p.attempts then AttemptMove(p.attempts[r.attemptId], r) else AttemptStarts(r)
  }

  lemma CheckedAttemptAdvances(p: Projection, e: ControlEvent)
    requires AttemptsBacked(p) && Check(p, e).None?
    ensures e.payload.AttemptPayload? ==> Advances(p, e.payload.attempt)
    ensures e.payload.ResolutionPayload? ==> Advances(p, e.payload.released)
  {
    hide CheckAttemptTransitioned, CheckApprovalResolved, AttemptMove, AttemptBacked, AttemptStarts, CheckAttemptCreated;
    if e.payload.AttemptPayload? {
      if e.action.AttemptTransitioned? {
        TransitionMoves(p, e, e.payload.attempt);
      } else {
        CreationStarts(p, e, e.payload.attempt);
      }
    } else if e.payload.ResolutionPayload? {
      ResolutionMoves(p, e, e.payload.resolved, e.payload.released, e.payload.expectedAttemptRevision);
    }
  }

  lemma CreationStarts(p: Projection, e: ControlEvent, r: RunAttempt)
    requires CheckAttemptCreated(p, e, r).None?
    ensures r.attemptId !in p.attempts && AttemptStarts(r) && AttemptBacked(r)
  {
  }

  lemma StoredAttempts(p: Projection, payload: Payload)
    ensures Store(p, payload).attempts ==
      match payload
      case AttemptPayload(r) => p.attempts[r.attemptId := r]
      case ResolutionPayload(_, a, _) => p.attempts[a.attemptId := a]
      case _ => p.attempts
  {
  }

  lemma StoreMovesAttempts(p: Projection, e: ControlEvent, id: Id)
    requires AttemptsBacked(p) && Check(p, e).None?
    ensures var q := Store(p, e.payload);
      AttemptChange(p, q, id) && (id in q.attempts ==> q.attempts[id].attemptId == id && AttemptBacked(q.attempts[id]))
  {
    hide Check, Store, AttemptMove, AttemptBacked, AttemptStarts;
    CheckedAttemptAdvances(p, e);
    StoredAttempts(p, e.payload);
  }

  lemma TransitionMoves(p: Projection, e: ControlEvent, r: RunAttempt)
    requires AttemptsBacked(p) && CheckAttemptTransitioned(p, e, r).None?
    ensures r.attemptId in p.attempts && AttemptMove(p.attempts[r.attemptId], r) && AttemptBacked(r)
  {
    MovedStaysBacked(p.attempts[r.attemptId], r);
  }

  lemma ResolutionMoves(p: Projection, e: ControlEvent, r: ApprovalRequest, a: RunAttempt, n: int)
    requires AttemptsBacked(p) && CheckApprovalResolved(p, e, r, a, n).None?
    ensures a.attemptId in p.attempts && AttemptMove(p.attempts[a.attemptId], a) && AttemptBacked(a)
  {
  }

  lemma AfterMovesAttempts(p: Projection, e: ControlEvent)
    requires AttemptsBacked(p)
    ensures AttemptsBacked(After(p, e)) && forall id :: AttemptChange(p, After(p, e), id)
  {
    hide Check, Store, AttemptBacked, AttemptMove, AttemptStarts;
    if Apply(p, e).Applied? {
      forall id
        ensures AttemptChange(p, After(p, e), id)
        ensures id in After(p, e).attempts ==> After(p, e).attempts[id].attemptId == id && AttemptBacked(After(p, e).attempts[id])
      {
        StoreMovesAttempts(p, e, id);
      }
    }
  }

  // ---------- Whole histories ----------

  /** Every version of one attempt, in order. */
  function AttemptHistory(log: seq<ControlEvent>, id: Id): seq<RunAttempt>
    decreases |log|
  {
    if log == [] then []
    else
      var before, after := Fold(EMPTY, log[..|log| - 1]).attempts, Fold(EMPTY, log).attempts;
      var earlier := AttemptHistory(log[..|log| - 1], id);
      if id in after && (id !in before || after[id] != before[id]) then earlier + [after[id]] else earlier
  }

  /** A path in the transition tables, one revision per step, from pending, with every version backed. */
  ghost predicate Lifecycle(h: seq<RunAttempt>) {
    && (h != [] ==> AttemptStarts(h[0]))
    && (forall i :: 0 <= i < |h| ==> AttemptBacked(h[i]))
    && (forall i :: 0 < i < |h| ==> AttemptMove(h[i - 1], h[i]))
  }

  lemma LifecycleExtends(h: seq<RunAttempt>, r: RunAttempt)
    requires Lifecycle(h) && AttemptBacked(r)
    requires if h == [] then AttemptStarts(r) else AttemptMove(h[|h| - 1], r)
    ensures Lifecycle(h + [r])
  {
    hide AttemptBacked, AttemptMove, AttemptStarts;
    var g := h + [r];
    forall i | 0 < i < |g| ensures AttemptMove(g[i - 1], g[i]) {
      if i < |h| {
        assert g[i] == h[i];
      }
    }
  }

  lemma {:induction false} AttemptsLiveLifecycles(log: seq<ControlEvent>, id: Id)
    ensures var p, h := Fold(EMPTY, log), AttemptHistory(log, id);
      && AttemptsBacked(p) && Lifecycle(h)
      && (id in p.attempts <==> h != [])
      && (h != [] ==> p.attempts[id] == h[|h| - 1])
    decreases |log|
  {
    hide After, AttemptBacked, AttemptMove, AttemptStarts, Lifecycle;
    if log == [] {
      assert Lifecycle([]) by { EmptyLifecycle(); }
    } else {
      var init := log[..|log| - 1];
      AttemptsLiveLifecycles(init, id);
      AfterMovesAttempts(Fold(EMPTY, init), log[|log| - 1]);
      var p, q := Fold(EMPTY, init), Fold(EMPTY, log);
      assert AttemptChange(p, q, id);
      if id in q.attempts && (id !in p.attempts || q.attempts[id] != p.attempts[id]) {
        LifecycleExtends(AttemptHistory(init, id), q.attempts[id]);
      }
    }
  }

  lemma EmptyLifecycle()
    ensures Lifecycle([])
  {
  }

  // ---------- What a lifecycle implies ----------

  /** Terminal states absorb; a manifest or a process proof, once there, never changes. */
  lemma {:induction false} LifecycleNeverGoesBack(h: seq<RunAttempt>, i: nat, j: nat)
    requires Lifecycle(h) && i <= j < |h|
    ensures h[j].revision == h[i].revision + (j - i)
    ensures Terminal(h[i].execution) ==> h[j].execution == h[i].execution
    ensures h[i].manifestId.Some? ==> h[j].manifestId == h[i].manifestId
    ensures !h[i].proof.Empty() ==> h[j].proof == h[i].proof
    decreases j - i
  {
    if i < j {
      LifecycleNeverGoesBack(h, i, j - 1);
      assert AttemptMove(h[j - 1], h[j]);
    }
  }

  /** An attempt created without a process proof owned a running process before anyone could cancel it. */
  lemma {:induction false} CancelledWasRunning(h: seq<RunAttempt>, j: nat) returns (i: nat)
    requires Lifecycle(h) && j < |h| && h[0].proof.Empty() && !h[j].proof.Empty()
    ensures 0 < i <= j && h[i].execution.Running? && h[i].proof == h[j].proof && h[i - 1].execution.Launching?
    ensures h[j].execution.CancelRequested? ==> i < j
  {
    assert AttemptMove(h[j - 1], h[j]);
    if h[j - 1].proof.Empty() {
      i := j;
    } else {
      i := CancelledWasRunning(h, j - 1);
    }
  }

  /** Every version that is cancel_requested does carry a proof, so the lemma above applies to it. */
  lemma CancelRequestedHasProof(h: seq<RunAttempt>, j: nat)
    requires Lifecycle(h) && j < |h| && h[j].execution.CancelRequested?
    ensures !h[j].proof.Empty()
  {
    assert AttemptBacked(h[j]);
  }
}
