/**
 What a call of `stop` achieves: when it succeeds, whom it signals, and how long it waits, in terms of the answers
 it is given.
 */
module RuntimeCourse {
  import opened RuntimeStop

  // ---------- Graces ----------

  function Flatten(looks: seq<seq<Act>>): seq<Act>
    decreases |looks|
  {
    if looks == [] then [] else looks[0] + Flatten(looks[1..])
  }

  /** One look at the processes in turn that ends at the first answer that settles it. */
  ghost predicate Look(whom: seq<nat>, look: seq<Act>, answers: Environment, at: nat, settles: Answer -> bool) {
    && |look| <= |whom|
    && (forall i :: 0 <= i < |look| ==> look[i] == Probe(whom[i], answers(at + i)))
    && (forall i :: 0 <= i < |look| - 1 ==> look[i].Probe? && !settles(look[i].answer))
    && (|look| < |whom| ==> Settled(look, settles))
  }

  ghost predicate Settled(look: seq<Act>, settles: Answer -> bool) {
    look != [] && look[|look| - 1].Probe? && settles(look[|look| - 1].answer)
  }

  /** A grace period: looks in a row, as long as each is settled, until the clock runs out. */
  ghost predicate Watch(
    whom: seq<nat>, looks: seq<seq<Act>>, answers: Environment, at: nat, rounds: nat, settles: Answer -> bool)
  {
    && |looks| <= rounds
    && (forall k :: 0 <= k < |looks| ==> Look(whom, looks[k], answers, at + |Flatten(looks[..k])|, settles))
    && (forall k :: 0 <= k < |looks| - 1 ==> Settled(looks[k], settles))
    && (|looks| < rounds ==> looks != [] && !Settled(looks[|looks| - 1], settles))
  }

  const MATCHES: Answer -> bool := (a: Answer) => a.Ours?
  const MAY_RUN: Answer -> bool := (a: Answer) => !a.NotRunning?

  lemma ProbeThenRest(probe: Act, rest: seq<Act>)
    requires probe.Probe?
    ensures AnyMatches([probe] + rest) <==> probe.answer.Ours? || AnyMatches(rest)
    ensures AllGoneIn([probe] + rest) <==> probe.answer.NotRunning? && AllGoneIn(rest)
    ensures [probe] + [] == [probe] && !AnyMatches([]) && AllGoneIn([])
  {
    var all := [probe] + rest;
    assert all[0] == probe && forall i :: 0 <= i < |rest| ==> all[i + 1] == rest[i];
    if AnyMatches(rest) {
      var i :| 0 <= i < |rest| && rest[i].Probe? && rest[i].answer.Ours?;
      assert all[i + 1].answer.Ours?;
    }
  }

  lemma LookEnds(whom: seq<nat>, answers: Environment, at: nat, settles: Answer -> bool)
    ensures whom == [] ==> Look(whom, [], answers, at, settles) && !Settled([], settles)
    ensures whom != [] && settles(answers(at)) ==>
      Look(whom, [Probe(whom[0], answers(at))], answers, at, settles) && Settled([Probe(whom[0], answers(at))], settles)
  {
  }

  lemma {:induction false} ProbeAnyLooks(whom: seq<nat>, answers: Environment, at: nat)
    ensures Look(whom, ProbeAny(whom, answers, at), answers, at, MATCHES)
    ensures AnyMatches(ProbeAny(whom, answers, at)) <==> Settled(ProbeAny(whom, answers, at), MATCHES)
    decreases |whom|
  {
    hide Look, Settled, AnyMatches;
    LookEnds(whom, answers, at, MATCHES);
    ProbeThenRest(Probe(0, NotRunning), []);
    if whom != [] {
      ProbeThenRest(Probe(whom[0], answers(at)), []);
      if !answers(at).Ours? {
        var rest := ProbeAny(whom[1..], answers, at + 1);
        ProbeAnyLooks(whom[1..], answers, at + 1);
        LookLonger(whom, rest, answers, at, MATCHES);
        ProbeThenRest(Probe(whom[0], answers(at)), rest);
      }
    }
  }

  lemma {:induction false} ProbeAllLooks(whom: seq<nat>, answers: Environment, at: nat)
    ensures Look(whom, ProbeAll(whom, answers, at), answers, at, MAY_RUN)
    ensures !AllGoneIn(ProbeAll(whom, answers, at)) <==> Settled(ProbeAll(whom, answers, at), MAY_RUN)
    decreases |whom|
  {
    hide Look, Settled, AllGoneIn;
    LookEnds(whom, answers, at, MAY_RUN);
    ProbeThenRest(Probe(0, NotRunning), []);
    if whom != [] {
      ProbeThenRest(Probe(whom[0], answers(at)), []);
      if answers(at).NotRunning? {
        var rest := ProbeAll(whom[1..], answers, at + 1);
        ProbeAllLooks(whom[1..], answers, at + 1);
        LookLonger(whom, rest, answers, at, MAY_RUN);
        ProbeThenRest(Probe(whom[0], answers(at)), rest);
      }
    }
  }

  lemma LookLonger(whom: seq<nat>, rest: seq<Act>, answers: Environment, at: nat, settles: Answer -> bool)
    requires whom != [] && !settles(answers(at)) && Look(whom[1..], rest, answers, at + 1, settles)
    ensures Look(whom, [Probe(whom[0], answers(at))] + rest, answers, at, settles)
    ensures Settled([Probe(whom[0], answers(at))] + rest, settles) <==> Settled(rest, settles)
  {
    var look := [Probe(whom[0], answers(at))] + rest;
    forall i | 0 <= i < |look| ensures look[i] == Probe(whom[i], answers(at + i)) {
      if i > 0 {
        assert look[i] == rest[i - 1] && whom[i] == whom[1..][i - 1];
      }
    }
    forall i | 0 <= i < |look| - 1 ensures look[i].Probe? && !settles(look[i].answer) {
      assert i > 0 ==> look[i] == rest[i - 1];
    }
    assert look[|look| - 1] == if rest == [] then look[0] else rest[|rest| - 1];
  }

  lemma FlattenParts(look: seq<Act>, looks: seq<seq<Act>>, k: nat)
    requires k <= 1 + |looks|
    ensures Flatten(([look] + looks)[..k]) == if k == 0 then [] else look + Flatten(looks[..k - 1])
    ensures ([look] + looks)[..1 + |looks|] == [look] + looks && looks[..|looks|] == looks
  {
    if k > 0 {
      assert ([look] + looks)[..k][1..] == looks[..k - 1];
    }
  }

  lemma WatchLonger(
    whom: seq<nat>, look: seq<Act>, looks: seq<seq<Act>>, answers: Environment, at: nat, rounds: nat, settles: Answer -> bool)
    requires rounds > 0 && Look(whom, look, answers, at, settles)
    requires if Settled(look, settles) then Watch(whom, looks, answers, at + |look|, rounds - 1, settles) else looks == []
    ensures Watch(whom, [look] + looks, answers, at, rounds, settles) && Flatten([look] + looks) == look + Flatten(looks)
  {
    hide Look, Settled, Flatten;
    var all := [look] + looks;
    forall k | 0 <= k < |all| ensures Look(whom, all[k], answers, at + |Flatten(all[..k])|, settles) {
      FlattenParts(look, looks, k);
    }
    FlattenParts(look, looks, |all|);
    forall k | 0 <= k < |all| - 1 ensures Settled(all[k], settles) {
      assert k > 0 ==> all[k] == looks[k - 1];
    }
    assert all[|all| - 1] == if looks == [] then look else looks[|looks| - 1];
  }

  lemma {:induction false} ExitGraceWatches(whom: seq<nat>, answers: Environment, at: nat, rounds: nat) returns (looks: seq<seq<Act>>)
    ensures Watch(whom, looks, answers, at, rounds, MATCHES) && Flatten(looks) == ExitGrace(whom, answers, at, rounds)
    decreases rounds
  {
    hide Look, Settled, ProbeAny, AnyMatches;
    looks := [];
    if rounds > 0 {
      var look := ProbeAny(whom, answers, at);
      ProbeAnyLooks(whom, answers, at);
      var later := [];
      if AnyMatches(look) {
        later := ExitGraceWatches(whom, answers, at + |look|, rounds - 1);
      }
      looks := [look] + later;
      WatchLonger(whom, look, later, answers, at, rounds, MATCHES);
    }
  }

  lemma {:induction false} DeathGraceWatches(whom: seq<nat>, answers: Environment, at: nat, rounds: nat) returns (looks: seq<seq<Act>>)
    ensures Watch(whom, looks, answers, at, rounds, MAY_RUN) && Flatten(looks) == DeathGrace(whom, answers, at, rounds)
    decreases rounds
  {
    hide Look, Settled, ProbeAll, AllGoneIn;
    looks := [];
    if rounds > 0 {
      var look := ProbeAll(whom, answers, at);
      ProbeAllLooks(whom, answers, at);
      var later := [];
      if !AllGoneIn(look) {
        later := DeathGraceWatches(whom, answers, at + |look|, rounds - 1);
      }
      looks := [look] + later;
      WatchLonger(whom, look, later, answers, at, rounds, MAY_RUN);
    }
  }

  /** No answer from position `at` on, k of them, is foreign. */
  predicate NoneForeign(answers: Environment, at: nat, k: nat) { forall j :: at <= j < at + k ==> !answers(j).Other? }

  predicate NoneRuns(answers: Environment, at: nat, k: nat) { forall j :: at <= j < at + k ==> answers(j).NotRunning? }

  lemma {:induction false} SweptIffNoneForeign(k: nat, answers: Environment, at: nat)
    ensures |Swept(k, answers, at)| == k && Clear(Swept(k, answers, at)) <==> NoneForeign(answers, at, k)
    decreases k
  {
    if k > 0 && !answers(at).Other? {
      SweptIffNoneForeign(k - 1, answers, at + 1);
      var rest, all := Swept(k - 1, answers, at + 1), Swept(k, answers, at);
      assert all == [answers(at)] + rest;
      assert Clear(all) <==> Clear(rest) by {
        assert forall i :: 0 <= i < |rest| ==> all[i + 1] == rest[i];
      }
    } else if k > 0 {
      assert Swept(k, answers, at)[0].Other?;
    }
  }

  lemma {:induction false} ConfirmedIffNoneRuns(k: nat, answers: Environment, at: nat)
    ensures AllDead(k, Confirmed(k, answers, at)) <==> NoneRuns(answers, at, k)
    decreases k
  {
    if k > 0 && answers(at).NotRunning? {
      ConfirmedIffNoneRuns(k - 1, answers, at + 1);
      var rest, all := Confirmed(k - 1, answers, at + 1), Confirmed(k, answers, at);
      assert forall i :: 0 <= i < |rest| ==> all[i + 1] == rest[i];
    } else if k > 0 {
      assert !Confirmed(k, answers, at)[0].NotRunning?;
    }
  }

  /** Exactly the processes that matched in the first pass, in order. */
  ghost predicate Verified(n: nat, answers: Environment, whom: seq<nat>) {
    Increasing(whom, n) && forall w :: 0 <= w < n ==> (w in whom <==> answers(w).Ours?)
  }

  /** Where the looks of a call that got past its first pass took place, and how the graces went. */
  datatype Course = Course(whom: seq<nat>, termLooks: seq<seq<Act>>, recheck: nat, killed: seq<nat>, killLooks: seq<seq<Act>>, last: nat)

  /** The processes that matched again in the recheck, in order. */
  ghost predicate Survived(c: Course, answers: Environment) {
    && (forall w :: w in c.killed <==> exists i :: 0 <= i < |c.whom| && c.whom[i] == w && answers(c.recheck + i).Ours?)
    && forall i, j :: 0 <= i < j < |c.killed| ==> c.killed[i] < c.killed[j]
  }

  /** From position `at` on, the first k of these processes are asked in turn. */
  ghost predicate Asked(t: seq<Act>, at: nat, k: nat, whom: seq<nat>, answers: Environment) {
    at + k <= |t| && k <= |whom| && forall j :: at <= j < at + k ==> t[j] == Probe(whom[j - at], answers(j))
  }

  /** The course of a call: TERM to all that matched, a grace, a recheck, KILL to all that matched again, a grace, a last look. */
  ghost predicate Runs(n: nat, answers: Environment, termRounds: nat, killRounds: nat, c: Course, t: seq<Act>, outcome: Outcome) {
    && Verified(n, answers, c.whom) && NoneForeign(answers, 0, n) && !outcome.Refused?
    && Watch(c.whom, c.termLooks, answers, n + |c.whom|, termRounds, MATCHES)
    && c.recheck == n + |c.whom| + |Flatten(c.termLooks)| && c.recheck <= |t| && Asked(t, 0, n, Upto(n), answers)
    && t[n..c.recheck] == Terms(c.whom) + Flatten(c.termLooks)
    && (outcome.Unreadable? <==> !NoneForeign(answers, c.recheck, |c.whom|))
    && (outcome.Unreadable? ==> Asked(t, c.recheck, |t| - c.recheck, c.whom, answers))
    && (!outcome.Unreadable? ==>
          && Asked(t, c.recheck, |c.whom|, c.whom, answers)
          && Survived(c, answers) && Watch(c.killed, c.killLooks, answers, c.recheck + |c.whom| + |c.killed|, killRounds, MAY_RUN)
          && c.last == c.recheck + |c.whom| + |c.killed| + |Flatten(c.killLooks)| && c.last <= |t|
          && t[c.recheck + |c.whom|..c.last] == Kills(c.killed) + Flatten(c.killLooks)
          && (outcome.Stopped? <==> NoneRuns(answers, c.last, |c.whom|))
          && (if outcome.Stopped? then |t| == c.last + |c.whom| + 1 && t[|t| - 1].Unlink? && Asked(t, c.last, |c.whom|, c.whom, answers)
              else outcome.Unresolved? && Asked(t, c.last, |t| - c.last, c.whom, answers)))
  }

  /** The course names the processes of the shape. */
  ghost predicate Names(c: Course, s: Shape, outcome: Outcome) {
    && c.whom == s.verified
    && if outcome.Refused? || outcome.Unreadable? then s.survivors == []
       else Clamped(s) && c.killed == Pick(s.verified, s.survivors)
  }

  predicate Clamped(s: Shape) { forall i :: 0 <= i < |s.survivors| ==> s.survivors[i] < |s.verified| }

  /** What the call of these answers does, and how it ends, if no signal is denied. */
  lemma CallsRun(n: nat, answers: Environment, termRounds: nat, killRounds: nat) returns (c: Course)
    ensures var t, outcome := Acts(n, answers, termRounds, killRounds), Ending(n, ShapeOf(n, answers, termRounds, killRounds));
      && (if outcome.Refused? then !NoneForeign(answers, 0, n) && Asked(t, 0, |t|, Upto(n), answers)
          else Runs(n, answers, termRounds, killRounds, c, t, outcome))
      && Names(c, ShapeOf(n, answers, termRounds, killRounds), outcome)
  {
    var s := ShapeOf(n, answers, termRounds, killRounds);
    SweptIffNoneForeign(n, answers, 0);
    if NoneForeign(answers, 0, n) {
      c := LaterRun(n, answers, termRounds, killRounds);
    } else {
      RenderRefusal(n, s.first);
      c := Course([], [], 0, [], [], 0);
    }
  }

  lemma VerifiedByFirst(n: nat, answers: Environment, first: seq<Answer>, whom: seq<nat>)
    requires |first| == n && Matching(first, whom) && forall i :: 0 <= i < n ==> first[i] == answers(i)
    ensures Verified(n, answers, whom)
  {
  }

  lemma SurvivedByRecheck(c: Course, answers: Environment, recheck: seq<Answer>, survivors: seq<nat>, n: nat)
    requires |recheck| == |c.whom| && Matching(recheck, survivors) && Increasing(c.whom, n)
    requires forall i :: 0 <= i < |recheck| ==> recheck[i] == answers(c.recheck + i)
    requires c.killed == Pick(c.whom, survivors)
    ensures Survived(c, answers)
  {
    forall w ensures w in c.killed <==> exists i :: 0 <= i < |c.whom| && c.whom[i] == w && answers(c.recheck + i).Ours? {
      if w in c.killed {
        var j :| 0 <= j < |c.killed| && c.killed[j] == w;
        assert c.whom[survivors[j]] == w && recheck[survivors[j]] == answers(c.recheck + survivors[j]);
      }
      if i :| 0 <= i < |c.whom| && c.whom[i] == w && answers(c.recheck + i).Ours? {
        assert recheck[i].Ours?;
        var j :| 0 <= j < |survivors| && survivors[j] == i;
        assert c.killed[j] == w;
      }
    }
  }

  /** The phases of a rendered call, cut out again. */
  lemma PhasesOf(n: nat, s: Shape)
    requires Fits(n, s) && |s.first| == n
    ensures var t := Render(n, s); var (b1, b2, b3, b4, b5, b6, b7) := Starts(s);
      && b3 <= |t| && t[n..b3] == Terms(s.verified) + s.waiting
      && t[..n] == Probes(Upto(n), s.first) && t[b3..] == RenderRest(n, s)
  {
    var t := Render(n, s);
    var rest := RenderRest(n, s);
    hide RenderRest;
    assert t == Probes(Upto(n), s.first) + (Terms(s.verified) + s.waiting) + rest;
  }

  lemma HaltedRest(n: nat, s: Shape)
    requires Fits(n, s) && s.survivors == [] && s.dying == [] && s.last == [] && !s.unlinked
    ensures RenderRest(n, s) == Probes(s.verified, s.recheck)
  {
  }

  lemma EndOf(n: nat, s: Shape)
    requires Fits(n, s)
    ensures var t := RenderEnd(n, s);
      && |t| == |s.last| + (if s.unlinked then 1 else 0) && t[..|s.last|] == Probes(s.verified, s.last)
      && (s.unlinked ==> |s.last| == |s.verified| && t[|s.last|].Unlink?)
  {
  }

  /** The probes of a sweep, found in the call, are what was asked there. */
  lemma SweepIsAsked(t: seq<Act>, at: nat, whom: seq<nat>, found: seq<Answer>, answers: Environment)
    requires |found| <= |whom| && at + |found| <= |t| && t[at..at + |found|] == Probes(whom, found)
    requires forall i :: 0 <= i < |found| ==> found[i] == answers(at + i)
    ensures Asked(t, at, |found|, whom, answers)
  {
    forall j | at <= j < at + |found| ensures t[j] == Probe(whom[j - at], answers(j)) {
      assert t[j] == t[at..at + |found|][j - at] && found[j - at] == answers(at + (j - at));
    }
  }

  lemma Slices(a: seq<Act>, b: seq<Act>, c: seq<Act>, d: seq<Act>)
    ensures var t := a + (b + (c + d)); var i, j := |a| + |b|, |a| + |b| + |c|;
      j <= |t| && t[|a|..i] == b && t[i..j] == c && t[j..] == d
  {
    var t := a + (b + (c + d));
    assert t == (a + b) + (c + d) && t == (a + b + c) + d;
  }

  lemma RenderParts(n: nat, s: Shape)
    requires Fits(n, s)
    ensures Render(n, s)
         == (Probes(Upto(n), s.first) + (Terms(s.verified) + s.waiting))
            + (Probes(s.verified, s.recheck) + ((Kills(Pick(s.verified, s.survivors)) + s.dying) + RenderEnd(n, s)))
  {
    hide RenderEnd;
  }

  lemma MiddlePhasesOf(n: nat, s: Shape)
    requires Fits(n, s) && |s.first| == n && |s.recheck| == |s.verified|
    ensures var t := Render(n, s); var (b1, b2, b3, b4, b5, b6, b7) := Starts(s);
      && b6 <= |t| && t[b3..b4] == Probes(s.verified, s.recheck)
      && t[b4..b6] == Kills(Pick(s.verified, s.survivors)) + s.dying && t[b6..] == RenderEnd(n, s)
  {
    RenderParts(n, s);
    hide Render, RenderRest, RenderEnd;
    Slices(Probes(Upto(n), s.first) + (Terms(s.verified) + s.waiting), Probes(s.verified, s.recheck),
           Kills(Pick(s.verified, s.survivors)) + s.dying, RenderEnd(n, s));
  }

  lemma FullPhasesOf(n: nat, s: Shape)
    requires Fits(n, s) && |s.first| == n && |s.recheck| == |s.verified|
    ensures var t := Render(n, s); var b6, b7 := Starts(s).5, Starts(s).6;
      && |s.last| <= |s.verified| && |t| == b7 + (if s.unlinked then 1 else 0)
      && (s.unlinked ==> |s.last| == |s.verified| && t[b7].Unlink?) && t[b6..b7] == Probes(s.verified, s.last)
  {
    hide Render, RenderRest, RenderEnd, Probes, Kills, Terms;
    MiddlePhasesOf(n, s);
    EndOf(n, s);
    var t, end := Render(n, s), RenderEnd(n, s);
    var b6, b7 := Starts(s).5, Starts(s).6;
    assert t[b6..] == end;
    assert t[b6..b7] == end[..|s.last|];
  }

  lemma LaterRun(n: nat, answers: Environment, termRounds: nat, killRounds: nat) returns (c: Course)
    requires NoneForeign(answers, 0, n)
    ensures var t, outcome := Acts(n, answers, termRounds, killRounds), Ending(n, ShapeOf(n, answers, termRounds, killRounds));
      && Runs(n, answers, termRounds, killRounds, c, t, outcome)
      && Names(c, ShapeOf(n, answers, termRounds, killRounds), outcome)
  {
    hide *;
    var whom := Matched(Swept(n, answers, 0));
    var termLooks := ExitGraceWatches(whom, answers, n + |whom|, termRounds);
    if NoneForeign(answers, n + |whom| + |Flatten(termLooks)|, |whom|) {
      c := FullRun(n, answers, termRounds, killRounds, whom, termLooks);
    } else {
      c := HaltedRun(n, answers, termRounds, killRounds, whom, termLooks);
    }
  }

  lemma HaltedRun(
    n: nat, answers: Environment, termRounds: nat, killRounds: nat, whom: seq<nat>, termLooks: seq<seq<Act>>) returns (c: Course)
    requires NoneForeign(answers, 0, n) && whom == Matched(Swept(n, answers, 0))
    requires Watch(whom, termLooks, answers, n + |whom|, termRounds, MATCHES)
    requires Flatten(termLooks) == ExitGrace(whom, answers, n + |whom|, termRounds)
    requires !NoneForeign(answers, n + |whom| + |Flatten(termLooks)|, |whom|)
    ensures var t, outcome := Acts(n, answers, termRounds, killRounds), Ending(n, ShapeOf(n, answers, termRounds, killRounds));
      && Runs(n, answers, termRounds, killRounds, c, t, outcome)
      && Names(c, ShapeOf(n, answers, termRounds, killRounds), outcome)
  {
    hide ShapeOf, Render, RenderRest, Swept, Matched, ExitGrace, Clear, Matching, Watch, NoneForeign, NoneRuns, OnlyProbes,
      Increasing, Verified, Survived, Fits, Asked, Probes, Terms;
    var s := ShapeOf(n, answers, termRounds, killRounds);
    var at := n + |whom| + |Flatten(termLooks)|;
    FullShape(n, answers, termRounds, killRounds, whom, at);
    HaltedShape(n, answers, termRounds, killRounds, whom, at);
    VerifiedByFirst(n, answers, s.first, whom);
    PhasesOf(n, s);
    FirstIsAsked(n, answers, s);
    HaltIsAsked(n, answers, s);
    c := Course(whom, termLooks, at, [], [], 0);
  }

  lemma HaltedShape(n: nat, answers: Environment, termRounds: nat, killRounds: nat, whom: seq<nat>, at: nat)
    requires NoneForeign(answers, 0, n) && whom == Matched(Swept(n, answers, 0))
    requires at == n + |whom| + |ExitGrace(whom, answers, n + |whom|, termRounds)| && !NoneForeign(answers, at, |whom|)
    ensures var s := ShapeOf(n, answers, termRounds, killRounds);
      && !(|s.recheck| == |whom| && Clear(s.recheck)) && s.survivors == [] && s.dying == [] && s.last == [] && !s.unlinked
  {
    hide Swept, Matched, ExitGrace, DeathGrace, Confirmed, Clear, Matching, NoneForeign, NoneRuns, OnlyProbes, AllDead, Fits, Honest,
      Render;
    SweptIffNoneForeign(n, answers, 0);
    SweptIffNoneForeign(|whom|, answers, at);
  }

  lemma HaltIsAsked(n: nat, answers: Environment, s: Shape)
    requires Fits(n, s) && |s.first| == n && s.survivors == [] && s.dying == [] && s.last == [] && !s.unlinked
    requires forall i :: 0 <= i < |s.recheck| ==> s.recheck[i] == answers(Starts(s).2 + i)
    ensures var t, b := Render(n, s), Starts(s).2;
      |t| == b + |s.recheck| && Asked(t, b, |s.recheck|, s.verified, answers)
  {
    hide Render, RenderRest, Asked, Probes, Terms, Kills;
    var t, b := Render(n, s), Starts(s).2;
    PhasesOf(n, s);
    HaltedRest(n, s);
    assert |t| == b + |s.recheck| by { ProbesCount(s.verified, s.recheck); }
    assert t[b..] == t[b..b + |s.recheck|];
    SweepIsAsked(t, b, s.verified, s.recheck, answers);
  }

  lemma ProbesCount(whom: seq<nat>, found: seq<Answer>)
    requires |found| <= |whom|
    ensures |Probes(whom, found)| == |found|
  {
  }

  /** The shape of a call that gets past its recheck. */
  lemma FullShape(n: nat, answers: Environment, termRounds: nat, killRounds: nat, whom: seq<nat>, at: nat)
    requires NoneForeign(answers, 0, n) && whom == Matched(Swept(n, answers, 0))
    requires at == n + |whom| + |ExitGrace(whom, answers, n + |whom|, termRounds)|
    ensures var s := ShapeOf(n, answers, termRounds, killRounds);
      && s.first == Swept(n, answers, 0) && |s.first| == n && Clear(s.first) && s.verified == whom
      && s.waiting == ExitGrace(whom, answers, n + |whom|, termRounds) && s.recheck == Swept(|whom|, answers, at)
  {
    hide Swept, Matched, ExitGrace, DeathGrace, Confirmed, Clear, Matching, NoneForeign, NoneRuns, OnlyProbes, AllDead, Fits, Honest;
    SweptIffNoneForeign(n, answers, 0);
  }

  lemma FullEnd(n: nat, answers: Environment, termRounds: nat, killRounds: nat, whom: seq<nat>, at: nat)
    requires NoneForeign(answers, 0, n) && whom == Matched(Swept(n, answers, 0))
    requires at == n + |whom| + |ExitGrace(whom, answers, n + |whom|, termRounds)| && NoneForeign(answers, at, |whom|)
    ensures var s := ShapeOf(n, answers, termRounds, killRounds);
      && |s.recheck| == |whom| && Clear(s.recheck) && s.survivors == Matched(s.recheck) && Clamped(s)
      && var killed := Pick(whom, s.survivors); var b5 := at + |whom| + |killed|;
      && s.dying == DeathGrace(killed, answers, b5, killRounds) && s.last == Confirmed(|whom|, answers, b5 + |s.dying|)
      && s.unlinked == AllDead(|whom|, s.last)
  {
    hide Swept, Matched, ExitGrace, DeathGrace, Confirmed, Clear, Matching, NoneForeign, NoneRuns, OnlyProbes, AllDead, Fits, Honest,
      Render;
    SweptIffNoneForeign(n, answers, 0);
    SweptIffNoneForeign(|whom|, answers, at);
    MatchingInBounds(Swept(|whom|, answers, at), Matched(Swept(|whom|, answers, at)));
  }

  lemma FullRun(
    n: nat, answers: Environment, termRounds: nat, killRounds: nat, whom: seq<nat>, termLooks: seq<seq<Act>>) returns (c: Course)
    requires NoneForeign(answers, 0, n) && whom == Matched(Swept(n, answers, 0))
    requires Watch(whom, termLooks, answers, n + |whom|, termRounds, MATCHES)
    requires Flatten(termLooks) == ExitGrace(whom, answers, n + |whom|, termRounds)
    requires NoneForeign(answers, n + |whom| + |Flatten(termLooks)|, |whom|)
    ensures var t, outcome := Acts(n, answers, termRounds, killRounds), Ending(n, ShapeOf(n, answers, termRounds, killRounds));
      && Runs(n, answers, termRounds, killRounds, c, t, outcome)
      && Names(c, ShapeOf(n, answers, termRounds, killRounds), outcome)
  {
    hide ShapeOf, Render, RenderRest, Swept, Matched, ExitGrace, DeathGrace, Confirmed, Clear, Matching, Watch, NoneForeign,
      NoneRuns, OnlyProbes, Increasing, Verified, Survived, Fits, Asked, Probes, Terms, Kills, AllDead;
    var s := ShapeOf(n, answers, termRounds, killRounds);
    var at := n + |whom| + |Flatten(termLooks)|;
    FullShape(n, answers, termRounds, killRounds, whom, at);
    FullEnd(n, answers, termRounds, killRounds, whom, at);
    var killed := Pick(whom, s.survivors);
    var b5 := at + |whom| + |killed|;
    var killLooks := DeathGraceWatches(killed, answers, b5, killRounds);
    ConfirmedIffNoneRuns(|whom|, answers, b5 + |s.dying|);
    c := Course(whom, termLooks, at, killed, killLooks, b5 + |Flatten(killLooks)|);
    FullRunMeets(n, answers, c, s, Acts(n, answers, termRounds, killRounds));
  }

  lemma FullRunMeets(n: nat, answers: Environment, c: Course, s: Shape, t: seq<Act>)
    requires Fits(n, s) && |s.first| == n && s.verified == c.whom && |s.recheck| == |c.whom| && t == Render(n, s)
    requires Matching(s.first, c.whom) && Matching(s.recheck, s.survivors) && Clamped(s) && c.killed == Pick(c.whom, s.survivors)
    requires c.recheck == Starts(s).2 && c.last == Starts(s).5
    requires forall i :: 0 <= i < n ==> s.first[i] == answers(i)
    requires forall i :: 0 <= i < |s.recheck| ==> s.recheck[i] == answers(c.recheck + i)
    requires forall i :: 0 <= i < |s.last| ==> s.last[i] == answers(c.last + i)
    ensures Verified(n, answers, c.whom) && Survived(c, answers) && Asked(t, 0, n, Upto(n), answers)
    ensures Asked(t, c.recheck, |c.whom|, c.whom, answers) && Asked(t, c.last, |s.last|, c.whom, answers)
    ensures |t| == c.last + |s.last| + (if s.unlinked then 1 else 0) && (s.unlinked ==> |s.last| == |c.whom| && t[|t| - 1].Unlink?)
    ensures c.recheck <= |t| && t[n..c.recheck] == Terms(c.whom) + s.waiting
    ensures c.recheck + |c.whom| <= c.last && t[c.recheck + |c.whom|..c.last] == Kills(c.killed) + s.dying
  {
    PhasesOf(n, s);
    MiddlePhasesOf(n, s);
    FullPhasesOf(n, s);
    hide Render, RenderRest, Matching, Fits, Asked, Probes, Terms, Kills, Verified, Survived, Increasing, Clamped;
    VerifiedByFirst(n, answers, s.first, c.whom);
    VerifiedIncreases(n, answers, c.whom);
    SurvivedByRecheck(c, answers, s.recheck, s.survivors, n);
    FirstIsAsked(n, answers, s);
    LaterIsAsked(n, answers, s);
  }

  lemma FirstIsAsked(n: nat, answers: Environment, s: Shape)
    requires Fits(n, s) && |s.first| == n && forall i :: 0 <= i < n ==> s.first[i] == answers(i)
    ensures Asked(Render(n, s), 0, n, Upto(n), answers)
  {
    hide Render, RenderRest, Asked, Probes, Terms, Kills;
    var t := Render(n, s);
    PhasesOf(n, s);
    assert t[..n] == t[0..0 + n];
    SweepIsAsked(t, 0, Upto(n), s.first, answers);
  }

  lemma LaterIsAsked(n: nat, answers: Environment, s: Shape)
    requires Fits(n, s) && |s.first| == n && |s.recheck| == |s.verified|
    requires forall i :: 0 <= i < |s.recheck| ==> s.recheck[i] == answers(Starts(s).2 + i)
    requires forall i :: 0 <= i < |s.last| ==> s.last[i] == answers(Starts(s).5 + i)
    ensures Asked(Render(n, s), Starts(s).2, |s.verified|, s.verified, answers)
    ensures Asked(Render(n, s), Starts(s).5, |s.last|, s.verified, answers)
  {
    hide Render, RenderRest, Asked, Probes, Terms, Kills;
    MiddlePhasesOf(n, s);
    FullPhasesOf(n, s);
    SweepIsAsked(Render(n, s), Starts(s).2, s.verified, s.recheck, answers);
    SweepIsAsked(Render(n, s), Starts(s).5, s.verified, s.last, answers);
  }

  lemma TermsOfShape(n: nat, s: Shape, t: seq<Act>, w: nat)
    requires Rendered(n, s, t)
    ensures Term(w) in t <==> w in s.verified
  {
    var b1 := |s.first|;
    if Term(w) in t {
      var j :| 0 <= j < |t| && t[j] == Term(w);
      assert ActAt(n, s, j, t[j]);
    }
    if w in s.verified {
      var i :| 0 <= i < |s.verified| && s.verified[i] == w;
      assert ActAt(n, s, b1 + i, t[b1 + i]);
    }
  }

  lemma KillIsOfSurvivor(n: nat, s: Shape, t: seq<Act>, j: nat, w: nat)
    requires Rendered(n, s, t) && j < |t| && t[j] == Kill(w)
    ensures w in Pick(s.verified, s.survivors)
  {
    var killed := Pick(s.verified, s.survivors);
    assert ActAt(n, s, j, t[j]);
    hide Rendered, Fits;
    assert killed[j - Starts(s).3] == w;
  }

  lemma SurvivorIsKilled(n: nat, s: Shape, t: seq<Act>, i: nat)
    requires Rendered(n, s, t) && i < |s.survivors|
    ensures Kill(Pick(s.verified, s.survivors)[i]) in t
  {
    var b4 := Starts(s).3;
    assert ActAt(n, s, b4 + i, t[b4 + i]);
  }

  lemma KillsOfShape(n: nat, s: Shape, t: seq<Act>, w: nat)
    requires Rendered(n, s, t)
    ensures Kill(w) in t <==> w in Pick(s.verified, s.survivors)
  {
    if Kill(w) in t {
      var j :| 0 <= j < |t| && t[j] == Kill(w);
      KillIsOfSurvivor(n, s, t, j, w);
    }
    var killed := Pick(s.verified, s.survivors);
    if w in killed {
      var i :| 0 <= i < |killed| && killed[i] == w;
      SurvivorIsKilled(n, s, t, i);
    }
  }

  lemma SignalsOfShape(n: nat, s: Shape)
    requires Fits(n, s)
    ensures forall w :: Term(w) in Render(n, s) <==> w in s.verified
    ensures forall w :: Kill(w) in Render(n, s) <==> w in Pick(s.verified, s.survivors)
  {
    RenderIsRendered(n, s);
    hide Render, Rendered, Fits;
    forall w ensures Term(w) in Render(n, s) <==> w in s.verified { TermsOfShape(n, s, Render(n, s), w); }
    forall w ensures Kill(w) in Render(n, s) <==> w in Pick(s.verified, s.survivors) { KillsOfShape(n, s, Render(n, s), w); }
  }

  lemma CutIffDenied(t: seq<Act>, denied: Denials)
    ensures Cut(t, denied) == t <==> Permitted(t, denied)
  {
    if Permitted(t, denied) {
      CutIsUnique(t, denied, t);
    }
  }

  /** TERM went to exactly the processes that matched at first, KILL to exactly those that matched again. */
  ghost predicate SignalsAll(n: nat, answers: Environment, c: Course, t: seq<Act>) {
    && (forall w: nat :: Term(w) in t <==> NoneForeign(answers, 0, n) && w < n && answers(w).Ours?)
    && (forall w: nat :: Kill(w) in t <==>
          NoneForeign(answers, 0, n) && NoneForeign(answers, c.recheck, |c.whom|) && MatchedAgain(c, answers, w))
  }

  ghost predicate MatchedAgain(c: Course, answers: Environment, w: nat) {
    exists i :: 0 <= i < |c.whom| && c.whom[i] == w && answers(c.recheck + i).Ours?
  }

  /** What success comes down to. */
  ghost predicate Succeeds(n: nat, answers: Environment, c: Course) {
    && NoneForeign(answers, 0, n) && NoneForeign(answers, c.recheck, |c.whom|) && NoneRuns(answers, c.last, |c.whom|)
  }

  lemma UndeniedCallSucceedsIff(n: nat, answers: Environment, termRounds: nat, killRounds: nat) returns (c: Course)
    ensures var t, outcome := Acts(n, answers, termRounds, killRounds), Ending(n, ShapeOf(n, answers, termRounds, killRounds));
      && (NoneForeign(answers, 0, n) ==> Runs(n, answers, termRounds, killRounds, c, t, outcome))
      && (outcome.Stopped? <==> Succeeds(n, answers, c)) && SignalsAll(n, answers, c, t)
  {
    c := CallsRun(n, answers, termRounds, killRounds);
    var s := ShapeOf(n, answers, termRounds, killRounds);
    SignalsOfShape(n, s);
    hide Render, ShapeOf, Watch, Flatten, NoneForeign, NoneRuns, Asked, Fits, Ending, SignalsAll;
    SignalsFollow(n, answers, c, Acts(n, answers, termRounds, killRounds), s, Ending(n, s));
  }

  lemma SignalsFollow(n: nat, answers: Environment, c: Course, t: seq<Act>, s: Shape, outcome: Outcome)
    requires Names(c, s, outcome) && Clamped(s)
    requires outcome.Refused? ==> s.verified == [] && !NoneForeign(answers, 0, n)
    requires !outcome.Refused? ==> NoneForeign(answers, 0, n) && Verified(n, answers, c.whom)
    requires !outcome.Refused? ==> (outcome.Unreadable? <==> !NoneForeign(answers, c.recheck, |c.whom|))
    requires !outcome.Refused? && !outcome.Unreadable? ==> Survived(c, answers)
    requires forall w :: Term(w) in t <==> w in s.verified
    requires forall w :: Kill(w) in t <==> w in Pick(s.verified, s.survivors)
    ensures SignalsAll(n, answers, c, t)
  {
    hide NoneForeign;
  }

  /**
   For all answers, denials and graces: the call succeeds exactly when no first answer and no answer of the recheck is
   foreign, nobody it verified runs at the last look, and none of its signals is denied; and if none is denied, it
   sends every signal it should.
   */
  lemma StopSucceedsIff(n: nat, answers: Environment, denied: Denials, termRounds: nat, killRounds: nat) returns (c: Course)
    ensures var whole := Acts(n, answers, termRounds, killRounds);
      var outcome := Ending(n, ShapeOf(n, answers, termRounds, killRounds));
      var result := EndOfCall(n, answers, denied, termRounds, killRounds);
      && (NoneForeign(answers, 0, n) ==> Runs(n, answers, termRounds, killRounds, c, whole, outcome))
      && (result.Denied? <==> !Permitted(whole, denied))
      && (result.Stopped? <==> Succeeds(n, answers, c) && Permitted(whole, denied))
      && (!result.Denied? ==> SignalsAll(n, answers, c, Done(n, answers, denied, termRounds, killRounds)))
  {
    c := UndeniedCallSucceedsIff(n, answers, termRounds, killRounds);
    CutIffDenied(Acts(n, answers, termRounds, killRounds), denied);
    hide Acts, Runs, Succeeds, SignalsAll, Permitted, Cut, ShapeOf;
  }

  lemma VerifiedIncreases(n: nat, answers: Environment, whom: seq<nat>)
    requires Verified(n, answers, whom)
    ensures Increasing(whom, n)
  {
  }
}
