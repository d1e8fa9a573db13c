/**
 Stopping the managed processes. What the ownership check answers, which signals the operating system denies, and how
 long each grace period lasts are the environment's choice.
 */
module RuntimeStop {
  import opened Common

  datatype Process = Process(role: string, pid: int, group: int)

  /** `_matches`: ours, gone, or anything else. */
  datatype Answer = Ours | NotRunning | Other

  /** What the call does to the outside, process by process. */
  datatype Act = Probe(who: nat, answer: Answer) | Term(who: nat) | Kill(who: nat) | Unlink

  datatype Outcome = Corrupt | NothingRecorded | Refused | Denied | Unreadable | Unresolved | Stopped

  predicate Signal(a: Act) { a.Term? || a.Kill? }

  // ---------- The protocol ----------

  /** A process that is neither ours nor gone in the first pass stops everything. */
  ghost predicate NobodyIfForeign(n: nat, t: seq<Act>) {
    (exists k :: 0 <= k < n && k < |t| && t[k] == Probe(k, Other)) ==> forall j :: 0 <= j < |t| ==> !Signal(t[j]) && !t[j].Unlink?
  }

  /** TERM goes only to processes that matched in the first pass, each at most once; KILL at most once. */
  ghost predicate OncePerProcess(n: nat, t: seq<Act>) {
    && (forall j :: 0 <= j < |t| && t[j].Term? ==> t[j].who < n && t[j].who < j && t[t[j].who] == Probe(t[j].who, Ours))
    && (forall i, j :: 0 <= i < j < |t| && Signal(t[i]) ==> t[i] != t[j])
  }

  /** The last probe of w before position j is at m. */
  predicate LastProbe(t: seq<Act>, w: nat, m: nat, j: nat) {
    m < j <= |t| && t[m].Probe? && t[m].who == w && forall k :: m < k < j ==> !(t[k].Probe? && t[k].who == w)
  }

  /** KILL goes only to a process that got TERM and whose last probe, after that TERM, matched again. */
  ghost predicate KillIsJustified(t: seq<Act>, j: nat)
    requires j < |t|
  {
    t[j].Kill? ==> exists m: nat ::
      LastProbe(t, t[j].who, m, j) && t[m].answer.Ours? && exists i :: 0 <= i < m && t[i] == Term(t[j].who)
  }

  /** The lease goes last, when every signalled process was last seen not running. */
  ghost predicate UnlinkIsJustified(t: seq<Act>, j: nat)
    requires j < |t|
  {
    t[j].Unlink? ==>
      && j == |t| - 1
      && forall i :: 0 <= i < |t| && t[i].Term? ==> exists m: nat :: LastProbe(t, t[i].who, m, j) && t[m].answer.NotRunning?
  }

  ghost predicate Orderly(n: nat, t: seq<Act>) {
    && NobodyIfForeign(n, t) && OncePerProcess(n, t)
    && (forall j :: 0 <= j < |t| ==> KillIsJustified(t, j) && UnlinkIsJustified(t, j))
  }

  // ---------- The shape of a call ----------

  /** The phases of one call, in order; `survivors` index the recheck. */
  datatype Shape = Shape(
    first: seq<Answer>, verified: seq<nat>, waiting: seq<Act>, recheck: seq<Answer>, survivors: seq<nat>, dying: seq<Act>,
    last: seq<Answer>, unlinked: bool)

  function Probes(whom: seq<nat>, answers: seq<Answer>): seq<Act>
    requires |answers| <= |whom|
  {
    seq(|answers|, i requires 0 <= i < |answers| => Probe(whom[i], answers[i]))
  }

  function Upto(n: nat): (s: seq<nat>)
    ensures |s| == n
  {
    seq(n, i => i)
  }

  function Terms(whom: seq<nat>): seq<Act> { seq(|whom|, i requires 0 <= i < |whom| => Term(whom[i])) }

  function Kills(whom: seq<nat>): seq<Act> { seq(|whom|, i requires 0 <= i < |whom| => Kill(whom[i])) }

  predicate OnlyProbes(t: seq<Act>) { forall i :: 0 <= i < |t| ==> t[i].Probe? }

  predicate Increasing(s: seq<nat>, bound: nat) {
    (forall i :: 0 <= i < |s| ==> s[i] < bound) && forall i, j :: 0 <= i < j < |s| ==> s[i] < s[j]
  }

  /** `at` lists, in order, exactly the positions that answered Ours. */
  ghost predicate Matching(answers: seq<Answer>, at: seq<nat>) {
    && Increasing(at, |answers|)
    && (forall i :: 0 <= i < |at| ==> answers[at[i]].Ours?)
    && (forall k :: 0 <= k < |answers| && answers[k].Ours? ==> k in at)
  }

  function Pick(whom: seq<nat>, at: seq<nat>): (s: seq<nat>)
    requires forall i :: 0 <= i < |at| ==> at[i] < |whom|
    ensures |s| == |at| && forall i :: 0 <= i < |at| ==> s[i] == whom[at[i]]
  {
    seq(|at|, i requires 0 <= i < |at| => whom[at[i]])
  }

  predicate Clear(answers: seq<Answer>) { forall i :: 0 <= i < |answers| ==> !answers[i].Other? }

  predicate Sized(n: nat, s: Shape) {
    && |s.first| <= n && |s.recheck| <= |s.verified| && |s.last| <= |s.verified|
    && forall i :: 0 <= i < |s.survivors| ==> s.survivors[i] < |s.verified|
  }

  ghost predicate Fits(n: nat, s: Shape) {
    && Sized(n, s) && OnlyProbes(s.waiting) && OnlyProbes(s.dying)
    && (if |s.first| == n && Clear(s.first) then Matching(s.first, s.verified)
        else s.verified == [] && s.waiting == [] && s.dying == [] && !s.unlinked)
    && (if |s.recheck| == |s.verified| && Clear(s.recheck) then Matching(s.recheck, s.survivors) else s.survivors == [])
    && (s.unlinked ==> |s.recheck| == |s.verified| && Clear(s.recheck))
    && (s.unlinked ==> |s.last| == |s.verified| && forall i :: 0 <= i < |s.last| ==> s.last[i].NotRunning?)
  }

  function Render(n: nat, s: Shape): seq<Act>
    requires Sized(n, s)
  {
    Probes(Upto(n), s.first) + (Terms(s.verified) + (s.waiting + RenderRest(n, s)))
  }

  /** The phases from the recheck on. */
  function RenderRest(n: nat, s: Shape): (t: seq<Act>)
    requires Sized(n, s)
    ensures |t| == Starts(s).6 - Starts(s).2 + if s.unlinked then 1 else 0
  {
    Probes(s.verified, s.recheck) + (Kills(Pick(s.verified, s.survivors)) + (s.dying + RenderEnd(n, s)))
  }

  function RenderEnd(n: nat, s: Shape): (t: seq<Act>)
    requires Sized(n, s)
    ensures |t| == |s.last| + if s.unlinked then 1 else 0
  {
    Probes(s.verified, s.last) + if s.unlinked then [Unlink] else []
  }

  /** Where each phase of a rendered call begins. */
  function Starts(s: Shape): (nat, nat, nat, nat, nat, nat, nat) {
    var b1 := |s.first|;
    var b2 := b1 + |s.verified|;
    var b3 := b2 + |s.waiting|;
    var b4 := b3 + |s.recheck|;
    var b5 := b4 + |s.survivors|;
    var b6 := b5 + |s.dying|;
    (b1, b2, b3, b4, b5, b6, b6 + |s.last|)
  }

  /** The act at position j, by phase. */
  ghost predicate ActAt(n: nat, s: Shape, j: nat, act: Act)
    requires Sized(n, s)
  {
    var (b1, b2, b3, b4, b5, b6, b7) := Starts(s);
    if j < b1 then act == Probe(j, s.first[j])
    else if j < b2 then act == Term(s.verified[j - b1])
    else if j < b3 then act.Probe? && act == s.waiting[j - b2]
    else if j < b4 then act == Probe(s.verified[j - b3], s.recheck[j - b3])
    else if j < b5 then act == Kill(s.verified[s.survivors[j - b4]])
    else if j < b6 then act.Probe? && act == s.dying[j - b5]
    else if j < b7 then act == Probe(s.verified[j - b6], s.last[j - b6])
    else act.Unlink? && s.unlinked && j == b7
  }

  ghost predicate Rendered(n: nat, s: Shape, t: seq<Act>) {
    && Fits(n, s) && |t| == Starts(s).6 + (if s.unlinked then 1 else 0)
    && forall j :: 0 <= j < |t| ==> ActAt(n, s, j, t[j])
  }

  lemma RestIsRendered(n: nat, s: Shape, j: nat)
    requires Sized(n, s) && OnlyProbes(s.dying) && j < |RenderRest(n, s)|
    ensures ActAt(n, s, Starts(s).2 + j, RenderRest(n, s)[j])
  {
    var tail := s.dying + RenderEnd(n, s);
    var kills := Kills(Pick(s.verified, s.survivors));
    var k := j - |s.recheck|;
    if k >= 0 {
      assert RenderRest(n, s)[j] == (kills + tail)[k];
      if k >= |s.survivors| {
        assert RenderRest(n, s)[j] == tail[k - |s.survivors|];
      }
    }
  }

  lemma RenderIsRendered(n: nat, s: Shape)
    requires Fits(n, s)
    ensures Rendered(n, s, Render(n, s))
  {
    var t := Render(n, s);
    forall j | 0 <= j < |t| ensures ActAt(n, s, j, t[j]) {
      ActIsRendered(n, s, j);
    }
    hide ActAt;
  }

  lemma ActIsRendered(n: nat, s: Shape, j: nat)
    requires Sized(n, s) && OnlyProbes(s.waiting) && OnlyProbes(s.dying) && j < |Render(n, s)|
    ensures ActAt(n, s, j, Render(n, s)[j])
  {
    var rest := RenderRest(n, s);
    var later := s.waiting + rest;
    hide RenderRest, Sized;
    var k := j - |s.first| - |s.verified|;
    if k >= 0 {
      assert Render(n, s)[j] == later[k];
      if k >= |s.waiting| {
        assert Render(n, s)[j] == rest[k - |s.waiting|];
        RestIsRendered(n, s, k - |s.waiting|);
      }
    }
  }

  /** Between the recheck of one process and the end of the KILLs that process is not probed again. */
  lemma NotProbedAgain(n: nat, s: Shape, t: seq<Act>, x: nat, k: nat)
    requires Rendered(n, s, t) && x < |s.verified| && Starts(s).2 + x < k < |t| && k < Starts(s).4
    requires s.survivors != []
    ensures !(t[k].Probe? && t[k].who == s.verified[x])
  {
    var b3, b4 := Starts(s).2, Starts(s).3;
    assert ActAt(n, s, k, t[k]);
    if k < b4 {
      assert t[k] == Probe(s.verified[k - b3], s.recheck[k - b3]) && s.verified[x] < s.verified[k - b3];
    }
  }

  lemma KillsAreJustified(n: nat, s: Shape, t: seq<Act>, j: nat)
    requires Rendered(n, s, t) && j < |t|
    ensures KillIsJustified(t, j)
  {
    var (b1, b2, b3, b4, b5, b6, b7) := Starts(s);
    assert ActAt(n, s, j, t[j]);
    if t[j].Kill? {
      var x := s.survivors[j - b4];
      assert ActAt(n, s, b3 + x, t[b3 + x]) && ActAt(n, s, b1 + x, t[b1 + x]);
      assert t[b3 + x] == Probe(t[j].who, Ours) && t[b1 + x] == Term(t[j].who);
      forall k | b3 + x < k < j ensures !(t[k].Probe? && t[k].who == t[j].who) {
        NotProbedAgain(n, s, t, x, k);
      }
      hide ActAt, Rendered;
      assert LastProbe(t, t[j].who, b3 + x, j);
    }
  }

  lemma UnlinkIsLast(n: nat, s: Shape, t: seq<Act>, j: nat)
    requires Rendered(n, s, t) && j < |t|
    ensures UnlinkIsJustified(t, j)
  {
    var (b1, b2, b3, b4, b5, b6, b7) := Starts(s);
    assert ActAt(n, s, j, t[j]);
    if t[j].Unlink? {
      forall i | 0 <= i < |t| && t[i].Term? ensures exists m: nat :: LastProbe(t, t[i].who, m, j) && t[m].answer.NotRunning? {
        assert ActAt(n, s, i, t[i]);
        var m := b6 + (i - b1);
        assert ActAt(n, s, m, t[m]);
        forall k | m < k < j ensures !(t[k].Probe? && t[k].who == t[i].who) {
          assert ActAt(n, s, k, t[k]);
        }
        assert LastProbe(t, t[i].who, m, j);
      }
    }
  }

  lemma SignalsOnce(n: nat, s: Shape, t: seq<Act>)
    requires Rendered(n, s, t)
    ensures OncePerProcess(n, t)
  {
    var (b1, b2, b3, b4, b5, b6, b7) := Starts(s);
    forall j | 0 <= j < |t| && t[j].Term? ensures t[j].who < n && t[j].who < j && t[t[j].who] == Probe(t[j].who, Ours) {
      assert ActAt(n, s, j, t[j]);
      assert ActAt(n, s, t[j].who, t[t[j].who]);
    }
    forall i, j | 0 <= i < j < |t| && Signal(t[i]) ensures t[i] != t[j] {
      assert ActAt(n, s, i, t[i]) && ActAt(n, s, j, t[j]);
    }
  }

  lemma ForeignSilences(n: nat, s: Shape, t: seq<Act>)
    requires Rendered(n, s, t)
    ensures NobodyIfForeign(n, t)
  {
    if k: nat :| k < n && k < |t| && t[k] == Probe(k, Other) {
      forall j | 0 <= j < |t| ensures !Signal(t[j]) && !t[j].Unlink? {
        assert ActAt(n, s, k, t[k]) && ActAt(n, s, j, t[j]);
      }
    }
  }

  lemma RenderedIsOrderly(n: nat, s: Shape, t: seq<Act>)
    requires Rendered(n, s, t)
    ensures Orderly(n, t)
  {
    ForeignSilences(n, s, t);
    SignalsOnce(n, s, t);
    hide Rendered, KillIsJustified, UnlinkIsJustified;
    forall j | 0 <= j < |t| ensures KillIsJustified(t, j) && UnlinkIsJustified(t, j) {
      KillsAreJustified(n, s, t, j);
      UnlinkIsLast(n, s, t, j);
    }
  }

  /** A rendered call is the plain concatenation of its phases. */
  lemma RenderInOrder(n: nat, s: Shape)
    requires Sized(n, s)
    ensures Render(n, s) ==
      Probes(Upto(n), s.first) + Terms(s.verified) + s.waiting + Probes(s.verified, s.recheck)
      + Kills(Pick(s.verified, s.survivors)) + s.dying + Probes(s.verified, s.last) + (if s.unlinked then [Unlink] else [])
  {
  }

  lemma NothingMatches()
    ensures Clear([]) && Matching([], [])
  {
  }

  lemma MatchingInBounds(answers: seq<Answer>, at: seq<nat>)
    requires Matching(answers, at)
    ensures forall i :: 0 <= i < |at| ==> at[i] < |answers|
  {
  }

  /** The call ends with the unlink exactly when its shape says so. */
  lemma UnlinkEndsCall(n: nat, s: Shape)
    requires Fits(n, s)
    ensures s.unlinked <==> Render(n, s) != [] && Render(n, s)[|Render(n, s)| - 1].Unlink?
  {
    RenderIsRendered(n, s);
    hide Render, Fits;
    var t := Render(n, s);
    assert t != [] ==> ActAt(n, s, |t| - 1, t[|t| - 1]);
  }

  lemma RenderRefusal(n: nat, first: seq<Answer>)
    requires |first| <= n
    ensures Render(n, Shape(first, [], [], [], [], [], [], false)) == Probes(Upto(n), first)
  {
  }

  lemma RenderHalt(n: nat, first: seq<Answer>, verified: seq<nat>, waiting: seq<Act>, recheck: seq<Answer>)
    requires |first| <= n && |recheck| <= |verified|
    ensures Render(n, Shape(first, verified, waiting, recheck, [], [], [], false))
         == Probes(Upto(n), first) + Terms(verified) + waiting + Probes(verified, recheck)
  {
  }

  lemma ShapesAreOrderly(n: nat, s: Shape)
    requires Fits(n, s)
    ensures Orderly(n, Render(n, s))
  {
    RenderIsRendered(n, s);
    RenderedIsOrderly(n, s, Render(n, s));
  }

  /** How a call with this shape ends. */
  function Ending(n: nat, s: Shape): Outcome {
    if !(|s.first| == n && Clear(s.first)) then Refused
    else if !(|s.recheck| == |s.verified| && Clear(s.recheck)) then Unreadable
    else if s.unlinked then Stopped
    else Unresolved
  }

  // ---------- Groups ----------

  /** The same signal at two positions, to processes recorded with one group. */
  predicate SameSignal(ps: seq<Process>, a: Act, b: Act) {
    && ((a.Term? && b.Term?) || (a.Kill? && b.Kill?))
    && a.who < |ps| && b.who < |ps| && ps[a.who].group == ps[b.who].group
  }

  ghost predicate GroupHitTwice(ps: seq<Process>, t: seq<Act>) {
    exists i, j :: 0 <= i < j < |t| && SameSignal(ps, t[i], t[j])
  }

  predicate DistinctGroups(ps: seq<Process>) { forall v, w :: 0 <= v < w < |ps| ==> ps[v].group != ps[w].group }

  lemma DistinctGroupsAreHitOnce(ps: seq<Process>, t: seq<Act>)
    requires DistinctGroups(ps) && OncePerProcess(|ps|, t)
    ensures !GroupHitTwice(ps, t)
  {
    forall i, j | 0 <= i < j < |t| ensures !SameSignal(ps, t[i], t[j]) {
      assert SameSignal(ps, t[i], t[j]) ==> t[i].who == t[j].who && Signal(t[i]);
    }
  }

  // ---------- What a call does, as a function of the answers ----------

  /** The environment: what the ownership check answers as the j-th act of the call. */
  type Environment = nat -> Answer

  /** k checks in a row, ending early at an answer that is neither ours nor gone. */
  function Swept(k: nat, answers: Environment, at: nat): (found: seq<Answer>)
    ensures |found| <= k && forall i :: 0 <= i < |found| ==> found[i] == answers(at + i)
    ensures |found| < k ==> !Clear(found)
    ensures forall i :: 0 <= i < |found| - 1 ==> !found[i].Other?
  {
    if k == 0 then []
    else if answers(at).Other? then
      assert [answers(at)][0].Other?;
      [answers(at)]
    else
      var rest := Swept(k - 1, answers, at + 1);
      var all := [answers(at)] + rest;
      assert !Clear(rest) ==> !Clear(all) by {
        if !Clear(rest) {
          var i :| 0 <= i < |rest| && rest[i].Other?;
          assert all[i + 1].Other?;
        }
      }
      all
  }

  /** The positions that answered Ours, in order. */
  function Matched(found: seq<Answer>): (at: seq<nat>)
    ensures Matching(found, at)
    decreases |found|
  {
    if found == [] then []
    else
      var n := |found| - 1;
      var before := Matched(found[..n]);
      assert found == found[..n] + [found[n]];
      if found[n].Ours? then before + [n] else before
  }

  /** `any(matches)`: probes up to the first match. */
  function ProbeAny(whom: seq<nat>, answers: Environment, at: nat): seq<Act>
    decreases |whom|
  {
    if whom == [] then []
    else
      var first := [Probe(whom[0], answers(at))];
      if answers(at).Ours? then first else first + ProbeAny(whom[1..], answers, at + 1)
  }

  /** `all(not running)`: probes up to the first that may run. */
  function ProbeAll(whom: seq<nat>, answers: Environment, at: nat): seq<Act>
    decreases |whom|
  {
    if whom == [] then []
    else
      var first := [Probe(whom[0], answers(at))];
      if !answers(at).NotRunning? then first else first + ProbeAll(whom[1..], answers, at + 1)
  }

  predicate TrueProbes(seen: seq<Act>, answers: Environment, at: nat) {
    forall i :: 0 <= i < |seen| && seen[i].Probe? ==> seen[i].answer == answers(at + i)
  }

  ghost predicate Honest(seen: seq<Act>, answers: Environment, at: nat) { OnlyProbes(seen) && TrueProbes(seen, answers, at) }

  lemma HonestJoin(a: seq<Act>, b: seq<Act>, answers: Environment, at: nat)
    requires Honest(a, answers, at) && Honest(b, answers, at + |a|)
    ensures Honest(a + b, answers, at)
  {
    var c := a + b;
    forall i | 0 <= i < |c| ensures c[i].Probe? && c[i].answer == answers(at + i) {
      if i >= |a| {
        assert c[i] == b[i - |a|];
      }
    }
  }

  lemma {:induction false} ProbesAreHonest(whom: seq<nat>, answers: Environment, at: nat)
    ensures Honest(ProbeAny(whom, answers, at), answers, at) && Honest(ProbeAll(whom, answers, at), answers, at)
    decreases |whom|
  {
    if whom != [] {
      var first := [Probe(whom[0], answers(at))];
      assert Honest(first, answers, at);
      ProbesAreHonest(whom[1..], answers, at + 1);
      hide Honest;
      HonestJoin(first, ProbeAny(whom[1..], answers, at + 1), answers, at);
      HonestJoin(first, ProbeAll(whom[1..], answers, at + 1), answers, at);
    }
  }

  predicate AnyMatches(seen: seq<Act>) { exists i :: 0 <= i < |seen| && seen[i].Probe? && seen[i].answer.Ours? }

  predicate AllGoneIn(seen: seq<Act>) { forall i :: 0 <= i < |seen| && seen[i].Probe? ==> seen[i].answer.NotRunning? }

  /** The grace after TERM; `rounds` is how often the clock is found before its deadline. */
  function ExitGrace(whom: seq<nat>, answers: Environment, at: nat, rounds: nat): seq<Act>
    decreases rounds
  {
    if rounds == 0 then []
    else
      var look := ProbeAny(whom, answers, at);
      if AnyMatches(look) then look + ExitGrace(whom, answers, at + |look|, rounds - 1) else look
  }

  /** The grace after KILL; an ambiguous answer keeps it waiting. */
  function DeathGrace(whom: seq<nat>, answers: Environment, at: nat, rounds: nat): seq<Act>
    decreases rounds
  {
    if rounds == 0 then []
    else
      var look := ProbeAll(whom, answers, at);
      if AllGoneIn(look) then look else look + DeathGrace(whom, answers, at + |look|, rounds - 1)
  }

  lemma ExitGraceUnfolds(whom: seq<nat>, answers: Environment, at: nat, rounds: nat)
    requires rounds > 0
    ensures ExitGrace(whom, answers, at, rounds) ==
            var look := ProbeAny(whom, answers, at);
            if AnyMatches(look) then look + ExitGrace(whom, answers, at + |look|, rounds - 1) else look
  {
  }

  lemma DeathGraceUnfolds(whom: seq<nat>, answers: Environment, at: nat, rounds: nat)
    requires rounds > 0
    ensures DeathGrace(whom, answers, at, rounds) ==
            var look := ProbeAll(whom, answers, at);
            if AllGoneIn(look) then look else look + DeathGrace(whom, answers, at + |look|, rounds - 1)
  {
  }

  lemma {:induction false} ExitGraceIsHonest(whom: seq<nat>, answers: Environment, at: nat, rounds: nat)
    ensures Honest(ExitGrace(whom, answers, at, rounds), answers, at)
    decreases rounds
  {
    hide Honest, ProbeAny, AnyMatches, ExitGrace, OnlyProbes, TrueProbes;
    if rounds == 0 {
      GraceEnds([], whom, answers, at, 0);
      NothingHonest(answers, at);
    } else {
      ExitGraceUnfolds(whom, answers, at, rounds);
      var look := ProbeAny(whom, answers, at);
      ProbesAreHonest(whom, answers, at);
      ExitGraceIsHonest(whom, answers, at + |look|, rounds - 1);
      HonestJoin(look, ExitGrace(whom, answers, at + |look|, rounds - 1), answers, at);
    }
  }

  lemma {:induction false} DeathGraceIsHonest(whom: seq<nat>, answers: Environment, at: nat, rounds: nat)
    ensures Honest(DeathGrace(whom, answers, at, rounds), answers, at)
    decreases rounds
  {
    hide Honest, ProbeAll, AllGoneIn, DeathGrace, OnlyProbes, TrueProbes;
    if rounds == 0 {
      GraceEnds([], whom, answers, at, 0);
      NothingHonest(answers, at);
    } else {
      DeathGraceUnfolds(whom, answers, at, rounds);
      var look := ProbeAll(whom, answers, at);
      ProbesAreHonest(whom, answers, at);
      DeathGraceIsHonest(whom, answers, at + |look|, rounds - 1);
      HonestJoin(look, DeathGrace(whom, answers, at + |look|, rounds - 1), answers, at);
    }
  }

  /** The last look: k checks in a row, ending early at one that may run. */
  function Confirmed(k: nat, answers: Environment, at: nat): (found: seq<Answer>)
    ensures |found| <= k && forall i :: 0 <= i < |found| ==> found[i] == answers(at + i)
  {
    if k == 0 then []
    else if !answers(at).NotRunning? then [answers(at)]
    else [answers(at)] + Confirmed(k - 1, answers, at + 1)
  }

  predicate AllDead(k: nat, found: seq<Answer>) { |found| == k && forall i :: 0 <= i < k ==> found[i].NotRunning? }

  /** `stop` on n recorded processes. */
  function ShapeOf(n: nat, answers: Environment, termRounds: nat, killRounds: nat): (s: Shape)
    ensures Fits(n, s)
  {
    var first := Swept(n, answers, 0);
    if !(|first| == n && Clear(first)) then Refusal(n, first)
    else
      var verified := Matched(first);
      var b2 := n + |verified|;
      var waiting := ExitGrace(verified, answers, b2, termRounds);
      ExitGraceIsHonest(verified, answers, b2, termRounds);
      AfterTerm(n, answers, killRounds, first, verified, waiting)
  }

  function Refusal(n: nat, first: seq<Answer>): (s: Shape)
    requires |first| <= n && !(|first| == n && Clear(first))
    ensures Fits(n, s)
  {
    NothingMatches();
    Shape(first, [], [], [], [], [], [], false)
  }

  function AfterTerm(n: nat, answers: Environment, killRounds: nat, first: seq<Answer>, verified: seq<nat>, waiting: seq<Act>): (s: Shape)
    requires |first| == n && Clear(first) && Matching(first, verified) && OnlyProbes(waiting)
    ensures Fits(n, s) && s.first == first && s.verified == verified && s.waiting == waiting
  {
    var b3 := n + |verified| + |waiting|;
    var recheck := Swept(|verified|, answers, b3);
    if !(|recheck| == |verified| && Clear(recheck)) then Shape(first, verified, waiting, recheck, [], [], [], false)
    else
      var survivors := Matched(recheck);
      var b5 := b3 + |recheck| + |survivors|;
      var dying := DeathGrace(Pick(verified, survivors), answers, b5, killRounds);
      DeathGraceIsHonest(Pick(verified, survivors), answers, b5, killRounds);
      var last := Confirmed(|verified|, answers, b5 + |dying|);
      Shape(first, verified, waiting, recheck, survivors, dying, last, AllDead(|verified|, last))
  }

  /** Everything a call of `stop` does, in order, if no signal is denied. */
  function Acts(n: nat, answers: Environment, termRounds: nat, killRounds: nat): seq<Act> {
    Render(n, ShapeOf(n, answers, termRounds, killRounds))
  }

  lemma UndeniedCallsAreOrderly(n: nat, answers: Environment, termRounds: nat, killRounds: nat)
    ensures Orderly(n, Acts(n, answers, termRounds, killRounds))
    ensures TrueProbes(Acts(n, answers, termRounds, killRounds), answers, 0)
  {
    var s := ShapeOf(n, answers, termRounds, killRounds);
    ShapesAreOrderly(n, s);
    RenderIsRendered(n, s);
    ShapeIsTold(n, answers, termRounds, killRounds);
    hide Render, Fits, ShapeOf, Orderly;
    var t := Acts(n, answers, termRounds, killRounds);
    forall j | 0 <= j < |t| && t[j].Probe? ensures t[j].answer == answers(j) {
      assert ActAt(n, s, j, t[j]);
    }
  }

  ghost predicate Told(s: Shape, answers: Environment) {
    var (b1, b2, b3, b4, b5, b6, b7) := Starts(s);
    && (forall i :: 0 <= i < |s.first| ==> s.first[i] == answers(i))
    && TrueProbes(s.waiting, answers, b2)
    && (forall i :: 0 <= i < |s.recheck| ==> s.recheck[i] == answers(b3 + i))
    && TrueProbes(s.dying, answers, b5)
    && (forall i :: 0 <= i < |s.last| ==> s.last[i] == answers(b6 + i))
  }

  lemma AfterTermIsTold(
    n: nat, answers: Environment, killRounds: nat, first: seq<Answer>, verified: seq<nat>, waiting: seq<Act>)
    requires |first| == n && Clear(first) && Matching(first, verified) && OnlyProbes(waiting)
    requires (forall i :: 0 <= i < n ==> first[i] == answers(i)) && TrueProbes(waiting, answers, n + |verified|)
    ensures Told(AfterTerm(n, answers, killRounds, first, verified, waiting), answers)
  {
    hide Matching, Clear, OnlyProbes, Matched, DeathGrace, Swept, Confirmed, AllDead, TrueProbes, Fits;
    var b3 := n + |verified| + |waiting|;
    var recheck := Swept(|verified|, answers, b3);
    NothingHonest(answers, b3 + |recheck|);
    if |recheck| == |verified| && Clear(recheck) {
      var survivors := Matched(recheck);
      MatchingInBounds(recheck, survivors);
      DeathGraceIsHonest(Pick(verified, survivors), answers, b3 + |recheck| + |survivors|, killRounds);
    }
  }

  lemma ShapeIsTold(n: nat, answers: Environment, termRounds: nat, killRounds: nat)
    ensures Told(ShapeOf(n, answers, termRounds, killRounds), answers)
  {
    hide Matching, Clear, OnlyProbes, Matched, ExitGrace, Swept, AfterTerm, Fits;
    var first := Swept(n, answers, 0);
    NothingHonest(answers, |first|);
    if |first| == n && Clear(first) {
      var verified := Matched(first);
      ExitGraceIsHonest(verified, answers, n + |verified|, termRounds);
      AfterTermIsTold(n, answers, killRounds, first, verified, ExitGrace(verified, answers, n + |verified|, termRounds));
    }
  }

  lemma NothingHonest(answers: Environment, at: nat)
    ensures TrueProbes([], answers, at) && Honest([], answers, at)
  {
  }

  // ---------- Denied signals ----------

  /** Which signals the operating system refuses with a permission error, by the place in the call they would take. */
  type Denials = nat -> bool

  predicate Permitted(t: seq<Act>, denied: Denials) { forall j :: 0 <= j < |t| && Signal(t[j]) ==> !denied(j) }

  /** The longest part of t without a denied signal: the error ends the call there, and nothing catches it. */
  function Cut(t: seq<Act>, denied: Denials): (done: seq<Act>)
    ensures done <= t && Permitted(done, denied) && (done != t ==> Signal(t[|done|]) && denied(|done|))
  {
    if t == [] then []
    else
      var n := |t| - 1;
      var done := Cut(t[..n], denied);
      if done != t[..n] || (Signal(t[n]) && denied(n)) then done else t
  }

  lemma CutIsUnique(t: seq<Act>, denied: Denials, done: seq<Act>)
    requires done <= t && Permitted(done, denied) && (done != t ==> Signal(t[|done|]) && denied(|done|))
    ensures Cut(t, denied) == done
  {
  }

  lemma PartsAreOrderly(n: nat, t: seq<Act>, done: seq<Act>)
    requires Orderly(n, t) && done <= t
    ensures Orderly(n, done)
  {
    assert forall j :: 0 <= j < |done| ==> done[j] == t[j];
    forall j | 0 <= j < |done| ensures KillIsJustified(done, j) && UnlinkIsJustified(done, j) {
      PartsAreJustified(t, done, j);
    }
    hide KillIsJustified, UnlinkIsJustified, LastProbe;
  }

  lemma PartsAreJustified(t: seq<Act>, done: seq<Act>, j: nat)
    requires done <= t && j < |done| && KillIsJustified(t, j) && UnlinkIsJustified(t, j)
    ensures KillIsJustified(done, j) && UnlinkIsJustified(done, j)
  {
    assert forall k :: 0 <= k < |done| ==> done[k] == t[k];
    if t[j].Unlink? {
      assert done == t;
    } else if t[j].Kill? {
      var m: nat :| LastProbe(t, t[j].who, m, j) && t[m].answer.Ours? && exists i :: 0 <= i < m && t[i] == Term(t[j].who);
      var i: nat :| i < m && t[i] == Term(t[j].who);
      assert LastProbe(done, done[j].who, m, j) && done[i] == Term(done[j].who);
    }
  }

  /** Everything a call of `stop` does, in order. */
  function Done(n: nat, answers: Environment, denied: Denials, termRounds: nat, killRounds: nat): seq<Act> {
    Cut(Acts(n, answers, termRounds, killRounds), denied)
  }

  /** For all answers, denials and grace periods, the call is orderly, sent nothing denied and asked what it was told. */
  lemma CallsAreOrderly(n: nat, answers: Environment, denied: Denials, termRounds: nat, killRounds: nat)
    ensures var t := Done(n, answers, denied, termRounds, killRounds);
      Orderly(n, t) && TrueProbes(t, answers, 0) && Permitted(t, denied)
  {
    UndeniedCallsAreOrderly(n, answers, termRounds, killRounds);
    hide Acts, Orderly;
    PartsAreOrderly(n, Acts(n, answers, termRounds, killRounds), Done(n, answers, denied, termRounds, killRounds));
  }

  lemma StoppedUnlinks(n: nat, answers: Environment, denied: Denials, termRounds: nat, killRounds: nat)
    ensures var s := ShapeOf(n, answers, termRounds, killRounds);
      var t := Done(n, answers, denied, termRounds, killRounds);
      (t == Acts(n, answers, termRounds, killRounds) && Ending(n, s).Stopped?) <==> (t != [] && t[|t| - 1].Unlink?)
  {
    var s := ShapeOf(n, answers, termRounds, killRounds);
    UndeniedCallsAreOrderly(n, answers, termRounds, killRounds);
    UnlinkEndsCall(n, s);
    hide ShapeOf, Render, Cut, Permitted, NobodyIfForeign, OncePerProcess, KillIsJustified;
    var t := Done(n, answers, denied, termRounds, killRounds);
    assert t != [] ==> UnlinkIsJustified(Acts(n, answers, termRounds, killRounds), |t| - 1);
  }

  lemma LookingIsPermitted(before: seq<Act>, look: seq<Act>, denied: Denials)
    requires Permitted(before, denied) && OnlyProbes(look)
    ensures Permitted(before + look, denied)
  {
    forall j | 0 <= j < |before + look| ensures Signal((before + look)[j]) ==> !denied(j) {
      assert j >= |before| ==> (before + look)[j] == look[j - |before|];
    }
  }

  lemma ProbesArePermitted(before: seq<Act>, whom: seq<nat>, found: seq<Answer>, denied: Denials)
    requires Permitted(before, denied) && |found| <= |whom|
    ensures Permitted(before + Probes(whom, found), denied)
  {
    LookingIsPermitted(before, Probes(whom, found), denied);
  }

  lemma SignalIsPermitted(before: seq<Act>, act: Act, denied: Denials)
    requires Permitted(before, denied) && (Signal(act) ==> !denied(|before|))
    ensures Permitted(before + [act], denied)
  {
  }

  lemma SignalIsDenied(before: seq<Act>, signals: seq<Act>, rest: seq<Act>, sent: nat, denied: Denials)
    requires sent < |signals| && forall i :: 0 <= i < |signals| ==> Signal(signals[i])
    requires Permitted(before + signals[..sent], denied) && denied(|before| + sent)
    ensures before + signals[..sent] != before + (signals + rest)
    ensures Cut(before + (signals + rest), denied) == before + signals[..sent]
  {
    var t := before + (signals + rest);
    assert t[|before| + sent] == signals[sent];
    CutIsUnique(t, denied, before + signals[..sent]);
  }

  lemma TermIsDenied(n: nat, s: Shape, sent: nat, denied: Denials)
    requires Fits(n, s) && sent < |s.verified|
    requires var done := Probes(Upto(n), s.first) + Terms(s.verified[..sent]); Permitted(done, denied) && denied(|done|)
    ensures var done := Probes(Upto(n), s.first) + Terms(s.verified[..sent]); Cut(Render(n, s), denied) == done != Render(n, s)
  {
    assert Terms(s.verified[..sent]) == Terms(s.verified)[..sent];
    SignalIsDenied(Probes(Upto(n), s.first), Terms(s.verified), s.waiting + RenderRest(n, s), sent, denied);
  }

  lemma KillIsDenied(n: nat, s: Shape, sent: nat, denied: Denials)
    requires Sized(n, s) && sent < |s.survivors|
    requires var done := BeforeKill(n, s) + Kills(Pick(s.verified, s.survivors)[..sent]); Permitted(done, denied) && denied(|done|)
    ensures var done := BeforeKill(n, s) + Kills(Pick(s.verified, s.survivors)[..sent]);
      Cut(Render(n, s), denied) == done != Render(n, s)
  {
    var who := Pick(s.verified, s.survivors);
    assert Kills(who[..sent]) == Kills(who)[..sent];
    var rest := s.dying + RenderEnd(n, s);
    assert Render(n, s) == BeforeKill(n, s) + (Kills(who) + rest);
    hide Render, BeforeKill, RenderEnd;
    SignalIsDenied(BeforeKill(n, s), Kills(who), rest, sent, denied);
  }

  /** The phases up to the recheck. */
  function BeforeKill(n: nat, s: Shape): seq<Act>
    requires Sized(n, s)
  {
    Probes(Upto(n), s.first) + Terms(s.verified) + s.waiting + Probes(s.verified, s.recheck)
  }

  /** How a call of `stop` ends. */
  function EndOfCall(n: nat, answers: Environment, denied: Denials, termRounds: nat, killRounds: nat): Outcome {
    if Done(n, answers, denied, termRounds, killRounds) == Acts(n, answers, termRounds, killRounds)
    then Ending(n, ShapeOf(n, answers, termRounds, killRounds)) else Denied
  }

  // ---------- Groups and calls ----------

  /** Everyone is ours at first and gone afterwards. */
  function OursThenGone(n: nat): Environment { j => if j < n then Ours else NotRunning }

  lemma AllAreSent(n: nat, termRounds: nat, killRounds: nat)
    ensures var s := ShapeOf(n, OursThenGone(n), termRounds, killRounds); |s.first| == n && s.verified == Upto(n)
  {
    var answers := OursThenGone(n);
    var first := Swept(n, answers, 0);
    assert Clear(first);
    assert |first| == n;
    MatchedAll(first);
  }

  lemma {:induction false} MatchedAll(found: seq<Answer>)
    requires forall i :: 0 <= i < |found| ==> found[i].Ours?
    ensures Matched(found) == Upto(|found|)
    decreases |found|
  {
    if found != [] {
      MatchedAll(found[..|found| - 1]);
      assert Upto(|found|) == Upto(|found| - 1) + [|found| - 1];
    }
  }

  /** No call can send a group the same signal twice exactly when the recorded groups are distinct. */
  lemma GroupsHitOnceIffDistinct(ps: seq<Process>)
    ensures (forall answers, denied, termRounds, killRounds ::
              !GroupHitTwice(ps, Done(|ps|, answers, denied, termRounds, killRounds)))
            <==> DistinctGroups(ps)
  {
    hide Done, Orderly, GroupHitTwice;
    var n := |ps|;
    if DistinctGroups(ps) {
      forall answers, denied, termRounds, killRounds ensures !GroupHitTwice(ps, Done(n, answers, denied, termRounds, killRounds)) {
        CallsAreOrderly(n, answers, denied, termRounds, killRounds);
        OrderlyIsOnce(n, Done(n, answers, denied, termRounds, killRounds));
        DistinctGroupsAreHitOnce(ps, Done(n, answers, denied, termRounds, killRounds));
      }
    } else {
      SharedGroupIsHitTwice(ps, _ => false, 0, 0);
    }
  }

  lemma OrderlyIsOnce(n: nat, t: seq<Act>)
    requires Orderly(n, t)
    ensures OncePerProcess(n, t)
  {
  }

  /** With a shared group a call hits it twice as soon as everyone answers Ours in the first pass and no TERM is denied. */
  lemma SharedGroupIsHitTwice(ps: seq<Process>, denied: Denials, termRounds: nat, killRounds: nat)
    requires !DistinctGroups(ps) && forall j :: 0 <= j < 2 * |ps| ==> !denied(j)
    ensures GroupHitTwice(ps, Done(|ps|, OursThenGone(|ps|), denied, termRounds, killRounds))
  {
    var n := |ps|;
    var v: nat, w: nat :| v < w < n && ps[v].group == ps[w].group;
    var s := ShapeOf(n, OursThenGone(n), termRounds, killRounds);
    AllAreSent(n, termRounds, killRounds);
    TermIsAt(n, s, v);
    TermIsAt(n, s, w);
    hide Render, ShapeOf, Fits, DistinctGroups, OursThenGone, Permitted, Upto;
    var t := Acts(n, OursThenGone(n), termRounds, killRounds);
    var done := Cut(t, denied);
    assert |done| < |t| ==> |done| >= 2 * n;
    assert SameSignal(ps, done[n + v], done[n + w]);
  }

  lemma TermIsAt(n: nat, s: Shape, v: nat)
    requires Fits(n, s) && |s.first| == n && s.verified == Upto(n) && v < n
    ensures |Render(n, s)| >= 2 * n && Render(n, s)[n + v] == Term(v)
  {
    RenderIsRendered(n, s);
    hide Render;
    assert ActAt(n, s, n + v, Render(n, s)[n + v]);
  }

  // ---------- The call ----------

  lemma SweepStep(found: seq<Answer>, k: nat, answers: Environment, at: nat)
    requires k > 0
    ensures found + Swept(k, answers, at)
         == found + [answers(at)] + if answers(at).Other? then [] else Swept(k - 1, answers, at + 1)
    ensures Matched(found + [answers(at)]) == Matched(found) + if answers(at).Ours? then [|found|] else []
    ensures Clear(found + [answers(at)]) <==> Clear(found) && !answers(at).Other?
  {
    assert (found + [answers(at)])[..|found|] == found;
    assert (found + [answers(at)])[|found|] == answers(at);
    assert forall i :: 0 <= i < |found| ==> (found + [answers(at)])[i] == found[i];
  }

  lemma SweepEnds(found: seq<Answer>, answers: Environment, at: nat)
    ensures found + Swept(0, answers, at) == found && found + [] == found && Clear([]) && Matched([]) == []
  {
  }

  lemma ConfirmStep(found: seq<Answer>, k: nat, answers: Environment, at: nat)
    requires k > 0
    ensures found + Confirmed(k, answers, at)
         == found + [answers(at)] + if answers(at).NotRunning? then Confirmed(k - 1, answers, at + 1) else []
    ensures found + Confirmed(0, answers, at) == found
  {
  }

  lemma Plus(a: seq<Act>, b: seq<Act>, c: seq<Act>)
    ensures a + (b + c) == a + b + c && a + [] == a
  {
  }

  lemma ProbeAnyUnfolds(whom: seq<nat>, i: nat, answers: Environment, at: nat)
    requires i < |whom|
    ensures ProbeAny(whom[i..], answers, at) ==
            [Probe(whom[i], answers(at))] + if answers(at).Ours? then [] else ProbeAny(whom[i + 1..], answers, at + 1)
  {
    assert whom[i..][1..] == whom[i + 1..];
  }

  lemma ProbeAllUnfolds(whom: seq<nat>, i: nat, answers: Environment, at: nat)
    requires i < |whom|
    ensures ProbeAll(whom[i..], answers, at) ==
            [Probe(whom[i], answers(at))] + if answers(at).NotRunning? then ProbeAll(whom[i + 1..], answers, at + 1) else []
  {
    assert whom[i..][1..] == whom[i + 1..];
  }

  lemma ProbeAnyStep(seen: seq<Act>, whom: seq<nat>, i: nat, answers: Environment, at: nat)
    requires i < |whom|
    ensures seen + ProbeAny(whom[i..], answers, at)
         == seen + [Probe(whom[i], answers(at))] + if answers(at).Ours? then [] else ProbeAny(whom[i + 1..], answers, at + 1)
  {
    ProbeAnyUnfolds(whom, i, answers, at);
    hide ProbeAny;
    Plus(seen, [Probe(whom[i], answers(at))], if answers(at).Ours? then [] else ProbeAny(whom[i + 1..], answers, at + 1));
  }

  lemma ProbeAllStep(seen: seq<Act>, whom: seq<nat>, i: nat, answers: Environment, at: nat)
    requires i < |whom|
    ensures seen + ProbeAll(whom[i..], answers, at)
         == seen + [Probe(whom[i], answers(at))] + if answers(at).NotRunning? then ProbeAll(whom[i + 1..], answers, at + 1) else []
  {
    ProbeAllUnfolds(whom, i, answers, at);
    hide ProbeAll;
    Plus(seen, [Probe(whom[i], answers(at))], if answers(at).NotRunning? then ProbeAll(whom[i + 1..], answers, at + 1) else []);
  }

  lemma ProbesEnd(seen: seq<Act>, whom: seq<nat>, answers: Environment, at: nat)
    ensures whom[0..] == whom && whom[|whom|..] == []
    ensures seen + ProbeAny([], answers, at) == seen && seen + ProbeAll([], answers, at) == seen && seen + [] == seen
    ensures [] + ProbeAny(whom, answers, at) == ProbeAny(whom, answers, at)
    ensures [] + ProbeAll(whom, answers, at) == ProbeAll(whom, answers, at)
    ensures !AnyMatches([]) && AllGoneIn([])
  {
  }

  lemma ExitGraceStep(seen: seq<Act>, whom: seq<nat>, answers: Environment, at: nat, rounds: nat)
    requires rounds > 0
    ensures var look := ProbeAny(whom, answers, at);
      seen + ExitGrace(whom, answers, at, rounds) ==
      if AnyMatches(look) then (seen + look) + ExitGrace(whom, answers, at + |look|, rounds - 1) else seen + look
  {
    hide *;
    ExitGraceUnfolds(whom, answers, at, rounds);
    var look := ProbeAny(whom, answers, at);
    Plus(seen, look, ExitGrace(whom, answers, at + |look|, rounds - 1));
  }

  lemma DeathGraceStep(seen: seq<Act>, whom: seq<nat>, answers: Environment, at: nat, rounds: nat)
    requires rounds > 0
    ensures var look := ProbeAll(whom, answers, at);
      seen + DeathGrace(whom, answers, at, rounds) ==
      if AllGoneIn(look) then seen + look else (seen + look) + DeathGrace(whom, answers, at + |look|, rounds - 1)
  {
    hide *;
    DeathGraceUnfolds(whom, answers, at, rounds);
    var look := ProbeAll(whom, answers, at);
    Plus(seen, look, DeathGrace(whom, answers, at + |look|, rounds - 1));
  }

  lemma GraceEnds(seen: seq<Act>, whom: seq<nat>, answers: Environment, at: nat, rounds: nat)
    ensures seen + ExitGrace(whom, answers, at, 0) == seen && seen + DeathGrace(whom, answers, at, 0) == seen && seen + [] == seen
    ensures [] + ExitGrace(whom, answers, at, rounds) == ExitGrace(whom, answers, at, rounds)
    ensures [] + DeathGrace(whom, answers, at, rounds) == DeathGrace(whom, answers, at, rounds)
  {
  }

  lemma ConfirmEnds(found: seq<Answer>, answers: Environment, at: nat)
    ensures found + Confirmed(0, answers, at) == found && found + [] == found && AllDead(0, [])
  {
  }

  lemma OneMoreDead(found: seq<Answer>, answer: Answer, k: nat)
    requires AllDead(|found|, found)
    ensures answer.NotRunning? ==> AllDead(|found| + 1, found + [answer])
    ensures !answer.NotRunning? ==> !AllDead(k, found + [answer])
  {
    assert (found + [answer])[|found|] == answer;
  }

  lemma NoProbes(whom: seq<nat>)
    ensures Probes(whom, []) == []
  {
  }

  lemma OneMoreProbe(whom: seq<nat>, found: seq<Answer>, answer: Answer)
    requires |found| < |whom|
    ensures Probes(whom, found + [answer]) == Probes(whom, found) + [Probe(whom[|found|], answer)]
    ensures Probes(whom, []) == []
  {
  }

  lemma OneMoreLook(seen: seq<Act>, probe: Act)
    requires probe.Probe?
    ensures AnyMatches(seen + [probe]) <==> AnyMatches(seen) || probe.answer.Ours?
    ensures AllGoneIn(seen + [probe]) <==> AllGoneIn(seen) && probe.answer.NotRunning?
  {
    var more := seen + [probe];
    assert more[|seen|] == probe;
    assert forall i :: 0 <= i < |seen| ==> more[i] == seen[i];
  }

  lemma LengthsOfPhases(n: nat, first: seq<Answer>, verified: seq<nat>, waiting: seq<Act>)
    requires |first| == n
    ensures |Probes(Upto(n), first) + Terms(verified) + waiting| == n + |verified| + |waiting|
  {
  }

  lemma LengthsOfSignals(verified: seq<nat>, recheck: seq<Answer>, who: seq<nat>)
    requires |recheck| <= |verified|
    ensures |Probes(verified, recheck)| == |recheck| && |Kills(who)| == |who|
  {
  }

  class RuntimeManager {
    const answers: Environment
    const denied: Denials
    var corrupt: bool
    var lease: Option<seq<Process>>
    var acts: seq<Act>

    constructor (answers: Environment, denied: Denials, corrupt: bool, lease: Option<seq<Process>>)
      ensures this.answers == answers && this.denied == denied && this.corrupt == corrupt && this.lease == lease && acts == []
    {
      this.answers, this.denied, this.corrupt, this.lease, acts := answers, denied, corrupt, lease, [];
    }

    method Matches(who: nat) returns (answer: Answer)
      modifies this`acts
      ensures answer == answers(|old(acts)|) && acts == old(acts) + [Probe(who, answer)]
    {
      answer := answers(|acts|);
      acts := acts + [Probe(who, answer)];
    }

    /** One pass over recorded processes that ends early at an answer that is neither ours nor gone. */
    method Sweep(whom: seq<nat>) returns (found: seq<Answer>, matched: seq<nat>)
      modifies this`acts
      ensures found == Swept(|whom|, answers, |old(acts)|) && acts == old(acts) + Probes(whom, found)
      ensures |found| == |whom| && Clear(found) ==> matched == Matched(found)
    {
      hide Swept, Matched, Clear, Probes;
      found, matched := [], [];
      SweepEnds([], answers, |acts|);
      ghost var before := acts;
      assert [] + Swept(|whom|, answers, |acts|) == Swept(|whom|, answers, |acts|);
      NoProbes(whom);
      while |found| < |whom|
        invariant |found| <= |whom| && acts == before + Probes(whom, found) && |acts| == |before| + |found|
        invariant found + Swept(|whom| - |found|, answers, |acts|) == Swept(|whom|, answers, |before|)
        invariant matched == Matched(found) && Clear(found)
        decreases |whom| - |found|
      {
        SweepStep(found, |whom| - |found|, answers, |acts|);
        var answer := Matches(whom[|found|]);
        OneMoreProbe(whom, found, answer);
        if answer.Ours? {
          matched := matched + [|found|];
        }
        found := found + [answer];
        if answer.Other? {
          SweepEnds(found, answers, |acts|);
          return;
        }
      }
      SweepEnds(found, answers, |acts|);
    }

    /** TERM to each in turn; a denied one ends the call. */
    method SendTerm(whom: seq<nat>) returns (sent: nat)
      requires Permitted(acts, denied)
      modifies this`acts
      ensures sent <= |whom| && acts == old(acts) + Terms(whom[..sent]) && Permitted(acts, denied)
      ensures |acts| == |old(acts)| + sent && (sent < |whom| ==> denied(|acts|))
    {
      sent := 0;
      while sent < |whom| && !denied(|acts|)
        invariant sent <= |whom| && acts == old(acts) + Terms(whom[..sent]) && Permitted(acts, denied)
        invariant |acts| == |old(acts)| + sent
        decreases |whom| - sent
      {
        acts := acts + [Term(whom[sent])];
        assert Terms(whom[..sent + 1]) == Terms(whom[..sent]) + [Term(whom[sent])];
        sent := sent + 1;
      }
    }

    /** KILL to each in turn; a denied one ends the call. */
    method SendKill(whom: seq<nat>) returns (sent: nat)
      requires Permitted(acts, denied)
      modifies this`acts
      ensures sent <= |whom| && acts == old(acts) + Kills(whom[..sent]) && Permitted(acts, denied)
      ensures |acts| == |old(acts)| + sent && (sent < |whom| ==> denied(|acts|))
    {
      sent := 0;
      while sent < |whom| && !denied(|acts|)
        invariant sent <= |whom| && acts == old(acts) + Kills(whom[..sent]) && Permitted(acts, denied)
        invariant |acts| == |old(acts)| + sent
        decreases |whom| - sent
      {
        acts := acts + [Kill(whom[sent])];
        assert Kills(whom[..sent + 1]) == Kills(whom[..sent]) + [Kill(whom[sent])];
        sent := sent + 1;
      }
    }

    /** `any(matches)`, stopping at the first match. */
    method AnyOurs(whom: seq<nat>) returns (any: bool)
      modifies this`acts
      ensures acts == old(acts) + ProbeAny(whom, answers, |old(acts)|)
      ensures any == AnyMatches(ProbeAny(whom, answers, |old(acts)|))
    {
      hide ProbeAny, AnyMatches;
      any := false;
      var i := 0;
      ghost var before, seen: seq<Act> := acts, [];
      ProbesEnd([], whom, answers, |acts|);
      while i < |whom| && !any
        invariant i <= |whom| && acts == before + seen && any == AnyMatches(seen)
        invariant ProbeAny(whom, answers, |before|) == if any then seen else seen + ProbeAny(whom[i..], answers, |acts|)
      {
        ProbeAnyStep(seen, whom, i, answers, |acts|);
        var answer := Matches(whom[i]);
        OneMoreLook(seen, Probe(whom[i], answer));
        seen := seen + [Probe(whom[i], answer)];
        any := answer.Ours?;
        i := i + 1;
        ProbesEnd(seen, whom, answers, |acts|);
      }
      ProbesEnd(seen, whom, answers, |acts|);
    }

    /** `all(not running)`, stopping at the first that may run. */
    method AllGone(whom: seq<nat>) returns (all: bool)
      modifies this`acts
      ensures acts == old(acts) + ProbeAll(whom, answers, |old(acts)|)
      ensures all == AllGoneIn(ProbeAll(whom, answers, |old(acts)|))
    {
      hide ProbeAll, AllGoneIn;
      all := true;
      var i := 0;
      ghost var before, seen: seq<Act> := acts, [];
      ProbesEnd([], whom, answers, |acts|);
      while i < |whom| && all
        invariant i <= |whom| && acts == before + seen && all == AllGoneIn(seen)
        invariant ProbeAll(whom, answers, |before|) == if all then seen + ProbeAll(whom[i..], answers, |acts|) else seen
      {
        ProbeAllStep(seen, whom, i, answers, |acts|);
        var answer := Matches(whom[i]);
        OneMoreLook(seen, Probe(whom[i], answer));
        seen := seen + [Probe(whom[i], answer)];
        all := answer.NotRunning?;
        i := i + 1;
        ProbesEnd(seen, whom, answers, |acts|);
      }
      ProbesEnd(seen, whom, answers, |acts|);
    }

    /** The grace after TERM. */
    method AwaitExit(whom: seq<nat>, rounds: nat)
      modifies this`acts
      ensures acts == old(acts) + ExitGrace(whom, answers, |old(acts)|, rounds)
    {
      hide ExitGrace, DeathGrace, ProbeAny, ProbeAll, AnyMatches;
      var left := rounds;
      ghost var before, seen: seq<Act> := acts, [];
      GraceEnds([], whom, answers, |acts|, rounds);
      while left > 0
        invariant acts == before + seen
        invariant ExitGrace(whom, answers, |before|, rounds) == seen + ExitGrace(whom, answers, |acts|, left)
      {
        ExitGraceStep(seen, whom, answers, |acts|, left);
        ghost var look := ProbeAny(whom, answers, |acts|);
        var any := AnyOurs(whom);
        seen := seen + look;
        GraceEnds(seen, whom, answers, |acts|, rounds);
        if !any {
          return;
        }
        left := left - 1;
      }
      GraceEnds(seen, whom, answers, |acts|, rounds);
    }

    /** The grace after KILL. */
    method AwaitDeath(whom: seq<nat>, rounds: nat)
      modifies this`acts
      ensures acts == old(acts) + DeathGrace(whom, answers, |old(acts)|, rounds)
    {
      hide ExitGrace, DeathGrace, ProbeAny, ProbeAll, AllGoneIn;
      var left := rounds;
      ghost var before, seen: seq<Act> := acts, [];
      GraceEnds([], whom, answers, |acts|, rounds);
      while left > 0
        invariant acts == before + seen
        invariant DeathGrace(whom, answers, |before|, rounds) == seen + DeathGrace(whom, answers, |acts|, left)
      {
        DeathGraceStep(seen, whom, answers, |acts|, left);
        ghost var look := ProbeAll(whom, answers, |acts|);
        var all := AllGone(whom);
        seen := seen + look;
        GraceEnds(seen, whom, answers, |acts|, rounds);
        if all {
          return;
        }
        left := left - 1;
      }
      GraceEnds(seen, whom, answers, |acts|, rounds);
    }

    /** The last look: everyone verified must be gone. */
    method ConfirmGone(whom: seq<nat>) returns (found: seq<Answer>, gone: bool)
      modifies this`acts
      ensures found == Confirmed(|whom|, answers, |old(acts)|) && acts == old(acts) + Probes(whom, found)
      ensures gone == AllDead(|whom|, found)
    {
      hide Confirmed, Probes, AllDead;
      found := [];
      ghost var before := acts;
      NoProbes(whom);
      assert [] + Confirmed(|whom|, answers, |acts|) == Confirmed(|whom|, answers, |acts|);
      ConfirmEnds([], answers, |acts|);
      while |found| < |whom|
        invariant |found| <= |whom| && acts == before + Probes(whom, found) && |acts| == |before| + |found|
        invariant AllDead(|found|, found)
        invariant found + Confirmed(|whom| - |found|, answers, |acts|) == Confirmed(|whom|, answers, |before|)
        decreases |whom| - |found|
      {
        ConfirmStep(found, |whom| - |found|, answers, |acts|);
        var answer := Matches(whom[|found|]);
        OneMoreProbe(whom, found, answer);
        OneMoreDead(found, answer, |whom|);
        found := found + [answer];
        if !answer.NotRunning? {
          ConfirmEnds(found, answers, |acts|);
          return found, false;
        }
      }
      ConfirmEnds(found, answers, |acts|);
      gone := true;
    }

    /** `stop`. */
    method Stop(termRounds: nat, killRounds: nat) returns (outcome: Outcome)
      modifies this
      ensures corrupt == old(corrupt) && lease == if outcome.Stopped? then None else old(lease)
      ensures outcome.Corrupt? <==> corrupt
      ensures !corrupt ==> (outcome.NothingRecorded? <==> old(lease).None?)
      ensures corrupt || old(lease).None? ==> acts == []
      ensures !corrupt && old(lease).Some? ==> var n := |old(lease).value|;
        && acts == Done(n, answers, denied, termRounds, killRounds)
        && outcome == EndOfCall(n, answers, denied, termRounds, killRounds)
      ensures old(lease).Some? ==> Orderly(|old(lease).value|, acts)
      ensures TrueProbes(acts, answers, 0) && Permitted(acts, denied)
      ensures outcome.Stopped? <==> acts != [] && acts[|acts| - 1].Unlink?
    {
      acts := [];
      if corrupt {
        return Corrupt;
      }
      if lease.None? {
        return NothingRecorded;
      }
      var n := |lease.value|;
      hide Orderly, Fits, Render, ShapeOf, Acts, Done, TrueProbes, Permitted;
      outcome := StopProcesses(n, termRounds, killRounds);
      CallsAreOrderly(n, answers, denied, termRounds, killRounds);
      StoppedUnlinks(n, answers, denied, termRounds, killRounds);
      if outcome.Stopped? {
        lease := None;
      }
    }

    method StopProcesses(n: nat, termRounds: nat, killRounds: nat) returns (outcome: Outcome)
      requires acts == []
      modifies this`acts
      ensures acts == Done(n, answers, denied, termRounds, killRounds)
      ensures outcome == if acts == Acts(n, answers, termRounds, killRounds) then Ending(n, ShapeOf(n, answers, termRounds, killRounds))
                         else Denied
    {
      hide Render, Probes, Terms, Kills, Matching, Clear, OnlyProbes, Upto, Fits, Swept, Matched, ExitGrace, DeathGrace, Confirmed,
        AllDead, Permitted, Cut, AfterTerm, Signal;
      ghost var s := ShapeOf(n, answers, termRounds, killRounds);
      var first, verified := Sweep(Upto(n));
      ProbesArePermitted([], Upto(n), first, denied);
      if !(|first| == n && Clear(first)) {
        RenderRefusal(n, first);
        CutIsUnique(acts, denied, acts);
        return Refused;
      }
      var sent := SendTerm(verified);
      ghost var waiting := ExitGrace(verified, answers, n + |verified|, termRounds);
      ExitGraceIsHonest(verified, answers, n + |verified|, termRounds);
      if sent < |verified| {
        TermIsDenied(n, s, sent, denied);
        return Denied;
      }
      assert verified[..sent] == verified;
      LengthsOfPhases(n, first, verified, []);
      LookingIsPermitted(acts, waiting, denied);
      AwaitExit(verified, termRounds);
      outcome := StopSurvivors(n, first, verified, waiting, killRounds);
    }

    /** The call from the recheck on. */
    method StopSurvivors(n: nat, ghost first: seq<Answer>, verified: seq<nat>, ghost waiting: seq<Act>, killRounds: nat)
      returns (outcome: Outcome)
      requires |first| == n && Clear(first) && Matching(first, verified) && OnlyProbes(waiting)
      requires acts == Probes(Upto(n), first) + Terms(verified) + waiting && Permitted(acts, denied)
      modifies this`acts
      ensures var s := AfterTerm(n, answers, killRounds, first, verified, waiting);
        acts == Cut(Render(n, s), denied) && outcome == if acts == Render(n, s) then Ending(n, s) else Denied
    {
      hide Render, Probes, Terms, Kills, Matching, Clear, OnlyProbes, Upto, Fits, Swept, Matched, DeathGrace, Confirmed, Permitted, Cut;
      ghost var s := AfterTerm(n, answers, killRounds, first, verified, waiting);
      LengthsOfPhases(n, first, verified, waiting);
      ghost var before := acts;
      var recheck, survivors := Sweep(verified);
      ProbesArePermitted(before, verified, recheck, denied);
      if !(|recheck| == |verified| && Clear(recheck)) {
        RenderHalt(n, first, verified, waiting, recheck);
        CutIsUnique(acts, denied, acts);
        return Unreadable;
      }
      assert forall i :: 0 <= i < |survivors| ==> survivors[i] < |verified| by { MatchingInBounds(recheck, survivors); }
      var survivingWho := Pick(verified, survivors);
      LengthsOfSignals(verified, recheck, survivingWho);
      var sent := SendKill(survivingWho);
      if sent < |survivingWho| {
        KillIsDenied(n, s, sent, denied);
        return Denied;
      }
      assert survivingWho[..sent] == survivingWho;
      before := acts;
      AwaitDeath(survivingWho, killRounds);
      DeathGraceIsHonest(survivingWho, answers, |before|, killRounds);
      LookingIsPermitted(before, s.dying, denied);
      before := acts;
      var last, gone := ConfirmGone(verified);
      ProbesArePermitted(before, verified, last, denied);
      RenderInOrder(n, s);
      if !gone {
        CutIsUnique(acts, denied, acts);
        return Unresolved;
      }
      SignalIsPermitted(acts, Unlink, denied);
      acts := acts + [Unlink];
      CutIsUnique(acts, denied, acts);
      return Stopped;
    }
  }
}
