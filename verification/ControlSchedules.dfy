/** Fixed schedules: wherever claims come late, ticks stay on one lattice. Times are exact reals. */
module ControlSchedules {
  import opened Common
  import opened ControlRecords
  import opened ControlReducer
  import opened ControlStore

  // ---------- Arithmetic of one claim ----------

  lemma FloorShift(x: real, k: int)
    ensures (x - k as real).Floor == x.Floor - k
  {
  }

  lemma Quotient(a: real, i: real)
    requires i > 0.0
    ensures a / i * i == a
  {
  }

  lemma QuotientShift(a: real, k: real, b: real, i: real)
    requires i > 0.0 && b + k * i == a
    ensures b / i == a / i - k
  {
    var x := b / i;
    Quotient(b, i);
    Distribute(x, k, i);
    Cancel(x + k, i);
  }

  lemma Cancel(y: real, i: real)
    requires i != 0.0
    ensures y * i / i == y
  {
  }

  lemma Scaled(n: real, m: real, x: real, i: real)
    requires i > 0.0 && n <= x < m == n + 1.0
    ensures n * i <= x * i < m * i == n * i + i
  {
  }

  lemma Distribute(a: real, b: real, i: real)
    ensures a * i + b * i == (a + b) * i
  {
  }

  /** The first tick of the lattice that lies after a moment. */
  function LatticeTick(first: real, at: real, i: real): real
    requires i > 0.0
  {
    first + (((at - first) / i).Floor + 1) as real * i
  }

  /** The tick after a claim depends on the lattice and the claim time, not on which tick was claimed. */
  lemma NextTickIgnoresPath(first: real, k: int, at: real, i: real)
    requires i > 0.0 && first + k as real * i <= at
    ensures NextTick(first + k as real * i, at, i) == LatticeTick(first, at, i)
  {
    var tick := first + k as real * i;
    var n := ((at - first) / i).Floor;
    QuotientShift(at - first, k as real, at - tick, i);
    FloorShift((at - first) / i, k);
    var later := ((at - tick) / i).Floor + 1;
    assert later == n - k + 1;
    Distribute(k as real, later as real, i);
    assert k as real + later as real == (n + 1) as real;
  }

  /** It lies strictly after the claim and at most one interval later. */
  lemma NextTickIsNear(first: real, at: real, i: real)
    requires i > 0.0
    ensures at < LatticeTick(first, at, i) <= at + i
  {
    var x := (at - first) / i;
    var n, m := x.Floor as real, (x.Floor + 1) as real;
    assert LatticeTick(first, at, i) == first + m * i;
    hide LatticeTick;
    Quotient(at - first, i);
    assert m == n + 1.0 && n <= x < m;
    Scaled(n, m, x, i);
  }

  // ---------- Runs of claims ----------

  ghost predicate SameCadence(s: ScheduleSpec, r: ScheduleSpec) {
    r.taskId == s.taskId && r.cadence == s.cadence && r.interval == s.interval
  }

  ghost predicate ClaimMove(s: ScheduleSpec, r: ScheduleSpec) {
    SameCadence(s, r) && s.enabled && s.nextRunAt.Some? && ClaimFits(s, r, s.nextRunAt.value)
  }

  ghost predicate UpdateMove(s: ScheduleSpec, r: ScheduleSpec) {
    SameCadence(s, r) && r.claimCount == s.claimCount && r.lastClaimedAt == s.lastClaimedAt
  }

  /** Versions of a fixed schedule connected by claims and by updates that leave the next run alone. */
  ghost predicate ClaimRun(h: seq<ScheduleSpec>) {
    && h != [] && h[0].cadence.Fixed? && h[0].interval.Some? && h[0].interval.value >= 1.0 && h[0].nextRunAt.Some?
    && forall k :: 0 < k < |h| ==>
      ClaimMove(h[k - 1], h[k]) || (UpdateMove(h[k - 1], h[k]) && h[k].nextRunAt == h[k - 1].nextRunAt)
  }

  ghost predicate OnLattice(first: real, i: real, k: int, tick: real) { tick == first + k as real * i }

  lemma NextAfterLatticeTick(first: real, k: int, tick: real, at: real, i: real)
    requires i > 0.0 && OnLattice(first, i, k, tick) && tick <= at
    ensures NextTick(tick, at, i) == LatticeTick(first, at, i)
  {
    hide LatticeTick;
    NextTickIgnoresPath(first, k, at, i);
  }

  /** The tick a run of claims must be at, from its first tick and its last claim alone. */
  ghost predicate AtTick(first: ScheduleSpec, s: ScheduleSpec)
    requires first.nextRunAt.Some? && first.interval.Some? && first.interval.value > 0.0
  {
    var f, i := first.nextRunAt.value, first.interval.value;
    if s.claimCount == first.claimCount then s.nextRunAt == first.nextRunAt
    else s.lastClaimedAt.Some? && s.nextRunAt == Some(LatticeTick(f, s.lastClaimedAt.value, i))
  }

  lemma AtTickIsOnLattice(first: ScheduleSpec, s: ScheduleSpec) returns (k: int)
    requires first.nextRunAt.Some? && first.interval.Some? && first.interval.value > 0.0 && AtTick(first, s)
    ensures s.nextRunAt.Some? && OnLattice(first.nextRunAt.value, first.interval.value, k, s.nextRunAt.value)
  {
    k := if s.claimCount == first.claimCount then 0
         else ((s.lastClaimedAt.value - first.nextRunAt.value) / first.interval.value).Floor + 1;
  }

  lemma ClaimKeepsTick(first: ScheduleSpec, s: ScheduleSpec, r: ScheduleSpec)
    requires first.cadence.Fixed? && first.interval.Some? && first.interval.value >= 1.0 && first.nextRunAt.Some?
    requires SameCadence(first, s) && AtTick(first, s) && ClaimMove(s, r) && s.claimCount >= first.claimCount
    ensures AtTick(first, r) && s.nextRunAt.value < r.nextRunAt.value
  {
    var f, i, at := first.nextRunAt.value, first.interval.value, r.lastClaimedAt.value;
    var k := AtTickIsOnLattice(first, s);
    hide NextTick, LatticeTick, OnLattice;
    assert r.nextRunAt == Some(NextTick(s.nextRunAt.value, at, i));
    NextAfterLatticeTick(f, k, s.nextRunAt.value, at, i);
    NextTickIsNear(f, at, i);
  }

  /**
   Path independence: after any run of claims the next tick is a function of the first tick, the interval and
   the last claim time; every claim moves it strictly up the lattice, and the count counts the claims.
   */
  lemma {:induction false} ClaimsArePathIndependent(h: seq<ScheduleSpec>, j: nat)
    requires ClaimRun(h) && j < |h|
    ensures SameCadence(h[0], h[j]) && AtTick(h[0], h[j]) && h[j].nextRunAt.Some? && h[j].claimCount >= h[0].claimCount
    ensures h[j].claimCount > h[0].claimCount ==>
      && h[j].lastClaimedAt.Some?
      && h[j].lastClaimedAt.value < h[j].nextRunAt.value <= h[j].lastClaimedAt.value + h[0].interval.value
    ensures j > 0 && ClaimMove(h[j - 1], h[j]) ==> h[j - 1].nextRunAt.Some? && h[j - 1].nextRunAt.value < h[j].nextRunAt.value
    ensures j > 0 ==> h[j].claimCount == h[j - 1].claimCount + if ClaimMove(h[j - 1], h[j]) then 1 else 0
    decreases j
  {
    if j > 0 {
      ClaimsArePathIndependent(h, j - 1);
      hide AtTick, NextTick, ClaimFits;
      if ClaimMove(h[j - 1], h[j]) {
        ClaimKeepsTick(h[0], h[j - 1], h[j]);
      } else {
        UpdateKeepsTick(h[0], h[j - 1], h[j]);
      }
      TickIsNear(h[0], h[j]);
    } else {
      TickStarts(h[0]);
    }
  }

  lemma UpdateKeepsTick(first: ScheduleSpec, s: ScheduleSpec, r: ScheduleSpec)
    requires first.nextRunAt.Some? && first.interval.Some? && first.interval.value > 0.0
    requires AtTick(first, s) && UpdateMove(s, r) && r.nextRunAt == s.nextRunAt
    ensures AtTick(first, r)
  {
    hide LatticeTick;
  }

  lemma TickStarts(first: ScheduleSpec)
    requires first.nextRunAt.Some? && first.interval.Some? && first.interval.value > 0.0
    ensures AtTick(first, first)
  {
  }

  lemma TickIsNear(first: ScheduleSpec, s: ScheduleSpec)
    requires first.nextRunAt.Some? && first.interval.Some? && first.interval.value > 0.0 && AtTick(first, s)
    ensures s.nextRunAt.Some?
    ensures s.claimCount != first.claimCount ==>
      && s.lastClaimedAt.Some?
      && s.lastClaimedAt.value < s.nextRunAt.value <= s.lastClaimedAt.value + first.interval.value
  {
    if s.claimCount != first.claimCount {
      NextTickIsNear(first.nextRunAt.value, s.lastClaimedAt.value, first.interval.value);
    }
  }

  // ---------- The moves of a log ----------

  ghost predicate SchedulesSound(p: Projection) {
    forall id :: id in p.schedules ==>
      p.schedules[id].scheduleId == id && p.schedules[id].Decodable() && p.schedules[id].taskId in p.tasks
  }

  ghost predicate ScheduleChange(p: Projection, q: Projection, id: Id) {
    id in p.schedules ==>
      && id in q.schedules
      && var s, r := p.schedules[id], q.schedules[id]; r == s || ClaimMove(s, r) || UpdateMove(s, r)
  }

  lemma CheckedSchedule(p: Projection, e: ControlEvent)
    requires Check(p, e).None? && SchedulesSound(p)
    ensures e.payload.SchedulePayload? ==> var r := e.payload.schedule;
      r.Decodable() && r.taskId in p.tasks && (r.scheduleId in p.schedules ==> UpdateMove(p.schedules[r.scheduleId], r))
    ensures e.payload.ClaimPayload? ==> var r := e.payload.claimed;
      r.Decodable() && r.taskId in p.tasks && (r.scheduleId in p.schedules ==> ClaimMove(p.schedules[r.scheduleId], r))
  {
    hide NextTick;
  }

  lemma StoredSchedules(p: Projection, payload: Payload)
    ensures Store(p, payload).schedules ==
      match payload
      case SchedulePayload(r) => p.schedules[r.scheduleId := r]
      case ClaimPayload(r, _) => p.schedules[r.scheduleId := r]
      case _ => p.schedules
    ensures p.tasks.Keys <= Store(p, payload).tasks.Keys
  {
  }

  lemma AfterMovesSchedules(p: Projection, e: ControlEvent)
    requires SchedulesSound(p)
    ensures SchedulesSound(After(p, e)) && forall id :: ScheduleChange(p, After(p, e), id)
  {
    hide Check, Store, ClaimMove, UpdateMove, ScheduleSpec.Decodable;
    if Apply(p, e).Applied? {
      CheckedSchedule(p, e);
      StoredSchedules(p, e.payload);
    }
  }

  /** Every version of one schedule, in order. */
  function ScheduleHistory(log: seq<ControlEvent>, id: Id): seq<ScheduleSpec>
    decreases |log|
  {
    if log == [] then []
    else
      var before, after := Fold(EMPTY, log[..|log| - 1]).schedules, Fold(EMPTY, log).schedules;
      var earlier := ScheduleHistory(log[..|log| - 1], id);
      if id in after && (id !in before || after[id] != before[id]) then earlier + [after[id]] else earlier
  }

  /** In every log a schedule changes only by claims that fit the tick and by updates that keep its claims. */
  lemma {:induction false} SchedulesMoveByClaimsAndUpdates(log: seq<ControlEvent>, id: Id)
    ensures var p, h := Fold(EMPTY, log), ScheduleHistory(log, id);
      && SchedulesSound(p)
      && (id in p.schedules <==> h != []) && (h != [] ==> p.schedules[id] == h[|h| - 1])
      && (forall k :: 0 < k < |h| ==> ClaimMove(h[k - 1], h[k]) || UpdateMove(h[k - 1], h[k]))
      && forall k :: 0 <= k < |h| ==> h[k].Decodable()
    decreases |log|
  {
    hide After, ClaimMove, UpdateMove, ScheduleSpec.Decodable;
    if log != [] {
      var init := log[..|log| - 1];
      SchedulesMoveByClaimsAndUpdates(init, id);
      AfterMovesSchedules(Fold(EMPTY, init), log[|log| - 1]);
      var p, q, g, h := Fold(EMPTY, init), Fold(EMPTY, log), ScheduleHistory(init, id), ScheduleHistory(log, id);
      assert ScheduleChange(p, q, id);
      forall k | 0 < k < |h| ensures ClaimMove(h[k - 1], h[k]) || UpdateMove(h[k - 1], h[k]) {
        assert k < |g| ==> h[k - 1] == g[k - 1] && h[k] == g[k];
      }
    }
  }

  /** How many of the moves up to version j, after version i, are claims. */
  ghost function ClaimsBetween(h: seq<ScheduleSpec>, i: nat, j: nat): nat
    requires i <= j < |h|
    decreases j
  {
    if j == i then 0 else ClaimsBetween(h, i, j - 1) + if ClaimMove(h[j - 1], h[j]) then 1 else 0
  }

  /** In every log: as long as no update moves the next run, a fixed schedule's ticks forget how late the claims came. */
  lemma TicksOfLogsArePathIndependent(log: seq<ControlEvent>, id: Id, i: nat, j: nat)
    requires i <= j < |ScheduleHistory(log, id)|
    requires var h := ScheduleHistory(log, id);
      && h[i].cadence.Fixed? && h[i].nextRunAt.Some?
      && forall k :: i < k <= j && UpdateMove(h[k - 1], h[k]) ==> h[k].nextRunAt == h[k - 1].nextRunAt
    ensures var h := ScheduleHistory(log, id); var first, s := h[i], h[j];
      && first.interval.Some? && first.interval.value >= 1.0 && AtTick(first, s) && s.nextRunAt.Some?
      && s.claimCount == first.claimCount + ClaimsBetween(h, i, j)
      && (s.claimCount > first.claimCount ==>
            && s.lastClaimedAt.Some?
            && s.lastClaimedAt.value < s.nextRunAt.value <= s.lastClaimedAt.value + first.interval.value)
      && (j > i && ClaimMove(h[j - 1], s) ==> h[j - 1].nextRunAt.Some? && h[j - 1].nextRunAt.value < s.nextRunAt.value)
  {
    SchedulesMoveByClaimsAndUpdates(log, id);
    hide ScheduleHistory, AtTick, ClaimMove;
    var h := ScheduleHistory(log, id);
    var run := h[i..j + 1];
    assert ClaimRun(run) by {
      forall k | 0 < k < |run|
        ensures ClaimMove(run[k - 1], run[k]) || (UpdateMove(run[k - 1], run[k]) && run[k].nextRunAt == run[k - 1].nextRunAt)
      {
        assert run[k] == h[i + k] && run[k - 1] == h[i + k - 1];
      }
    }
    ClaimsArePathIndependent(run, j - i);
    assert run[0] == h[i] && run[j - i] == h[j] && (j > i ==> run[j - i - 1] == h[j - 1]);
    CountIsKept(h, i, j);
  }

  lemma {:induction false} CountIsKept(h: seq<ScheduleSpec>, i: nat, j: nat)
    requires i <= j < |h| && ClaimRun(h[i..j + 1])
    ensures h[j].claimCount == h[i].claimCount + ClaimsBetween(h, i, j)
    decreases j
  {
    hide AtTick, ClaimMove, UpdateMove;
    if j > i {
      var run := h[i..j + 1];
      ClaimsArePathIndependent(run, j - i);
      assert run[j - i] == h[j] && run[j - i - 1] == h[j - 1];
      assert ClaimRun(h[i..j]) by {
        assert forall k :: 0 <= k < j - i ==> h[i..j][k] == run[k];
      }
      CountIsKept(h, i, j - 1);
    }
  }

  // ---------- Due schedules ----------

  lemma DueClaimPasses(p: Projection, c: Call, id: Id, d: Draft, e: ControlEvent)
    requires SchedulesSound(p) && id in p.schedules && BuildClaim(p, c, id) == Success(d)
    requires Targets(e, ScheduleTarget, id) && e.action.ScheduleClaimed? && e.expectedRevision == p.schedules[id].revision
    requires p.schedules[id].revision >= 0
    ensures CheckScheduleClaimed(p, e, d.payload.claimed, d.payload.claimedFor).None?
  {
    var s := p.schedules[id];
    if s.cadence.Fixed? {
      NextTickIsLater(s.nextRunAt.value, c.now, s.interval.value);
    }
    hide NextTick;
  }

  ghost predicate ClaimsCurrent(p: Projection, c: Call) {
    && c.request.ClaimSchedule? && c.request.scheduleId in p.schedules
    && c.key !in p.idempotency && c.expected == p.schedules[c.request.scheduleId].revision
  }

  lemma ClaimIsBuilt(p: Projection, c: Call, meta: Meta)
    requires ClaimsCurrent(p, c)
    ensures Atomic(p, c, meta) ==
      match BuildClaim(p, c, c.request.scheduleId)
      case Failure(error) => Raised(error)
      case Success(d) => Commit(p, d, c, meta)
  {
    hide BuildClaim, Commit, RetryOperation;
  }

  lemma PassingClaimCommits(p: Projection, c: Call, d: Draft, meta: Meta)
    requires c.key !in p.idempotency && d.expected >= 0 && d.action.ScheduleClaimed? && d.payload.ClaimPayload?
    requires CheckScheduleClaimed(p, EventOf(d, c, meta), d.payload.claimed, d.payload.claimedFor).None?
    ensures Commit(p, d, c, meta).Committed? <==> ValidActor(c.actor)
  {
    hide CheckScheduleClaimed, Store;
  }

  /** A schedule is listed as due exactly when a claim of its current revision, by a well-formed actor, commits at that time. */
  lemma DueIffClaimCommits(p: Projection, c: Call, meta: Meta)
    requires SchedulesSound(p) && ClaimsCurrent(p, c)
    ensures Due(p.schedules[c.request.scheduleId], c.now) && ValidActor(c.actor) <==> Atomic(p, c, meta).Committed?
  {
    hide Atomic, ValidActor, Commit, CheckScheduleClaimed, NextTick;
    var id := c.request.scheduleId;
    ClaimIsBuilt(p, c, meta);
    if Due(p.schedules[id], c.now) {
      var d := BuildClaim(p, c, id).value;
      DueClaimPasses(p, c, id, d, EventOf(d, c, meta));
      PassingClaimCommits(p, c, d, meta);
    }
  }

  lemma NextTickIsLater(tick: real, at: real, i: real)
    requires i > 0.0 && tick <= at
    ensures NextTick(tick, at, i) > at
  {
    assert tick + 0 as real * i == tick;
    NextTickIgnoresPath(tick, 0, at, i);
    hide NextTick;
    NextTickIsNear(tick, at, i);
  }
}
