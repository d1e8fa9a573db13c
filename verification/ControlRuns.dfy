/**
 Whole runs: one log file shared by many callers, each between its snapshot and its commit, with
 appends that may be cut short; and the replay of a file, line by line.
 */
module ControlRuns {
  import opened Common
  import opened ControlRecords
  import opened ControlReducer
  import opened ControlHistory
  import opened ActionLog
  import opened ControlStore

  type EventCodec = Codec<ControlEvent>

  // ---------- Replaying lines ----------

  /** The projection and the numbers (from 1) of the lines reported as issues. */
  datatype Reading = Reading(projection: Projection, issues: seq<nat>)

  predicate LineFails(codec: EventCodec, p: Projection, line: seq<Byte>) {
    !Blank(line) && match codec.decode(line) { case None => true case Some(e) => Apply(p, e).Refused? }
  }

  function Replay(codec: EventCodec, lines: seq<seq<Byte>>): Reading
    decreases |lines|
  {
    if lines == [] then Reading(EMPTY, [])
    else
      var before, line := Replay(codec, lines[..|lines| - 1]), lines[|lines| - 1];
      Reading(
        match Decoded(codec, line) { case Some(e) => After(before.projection, e) case None => before.projection },
        if LineFails(codec, before.projection, line) then before.issues + [|lines|] else before.issues)
  }

  lemma {:induction false} ReplayIsFold(codec: EventCodec, lines: seq<seq<Byte>>)
    ensures Replay(codec, lines).projection == Fold(EMPTY, Records(codec, lines))
    decreases |lines|
  {
    hide After, LineFails;
    if lines != [] {
      ReplayIsFold(codec, lines[..|lines| - 1]);
      var before := Records(codec, lines[..|lines| - 1]);
      match Decoded(codec, lines[|lines| - 1]) {
        case Some(e) => assert (before + [e])[..|before + [e]| - 1] == before;
        case None =>
      }
    }
  }

  /** Line n holds something that is no event, or an event the reducer refuses after the lines before it. */
  ghost predicate Faulty(codec: EventCodec, lines: seq<seq<Byte>>, n: nat) {
    && 1 <= n <= |lines| && !Blank(lines[n - 1])
    && match codec.decode(lines[n - 1])
       case None => true
       case Some(e) => Apply(Fold(EMPTY, Records(codec, lines[..n - 1])), e).Refused?
  }

  /** Issues are the numbers of exactly those lines, in order. */
  lemma {:induction false} IssuesIff(codec: EventCodec, lines: seq<seq<Byte>>)
    ensures var issues := Replay(codec, lines).issues;
      && (forall n: nat :: n in issues <==> Faulty(codec, lines, n))
      && (forall i, j :: 0 <= i < j < |issues| ==> issues[i] < issues[j])
    decreases |lines|
  {
    hide Apply, Blank, After;
    if lines != [] {
      var m := |lines|;
      var init := lines[..m - 1];
      IssuesIff(codec, init);
      ReplayIsFold(codec, init);
      forall n: nat ensures n < m ==> (Faulty(codec, lines, n) <==> Faulty(codec, init, n)) {
        assert 1 <= n < m ==> init[..n - 1] == lines[..n - 1] && init[n - 1] == lines[n - 1];
      }
      var before := Replay(codec, init).issues;
      assert forall i :: 0 <= i < |before| ==> before[i] in before && Faulty(codec, init, before[i]);
      assert Faulty(codec, lines, m) <==> LineFails(codec, Replay(codec, init).projection, lines[m - 1]);
    }
  }

  /** The file without the lines it reports as issues. */
  function Cleaned(codec: EventCodec, lines: seq<seq<Byte>>): seq<seq<Byte>>
    decreases |lines|
  {
    if lines == [] then []
    else
      var init, line := lines[..|lines| - 1], lines[|lines| - 1];
      if LineFails(codec, Replay(codec, init).projection, line) then Cleaned(codec, init) else Cleaned(codec, init) + [line]
  }

  /** Reported lines carry no state: without them the same projection comes back, with no issue left. */
  lemma {:induction false} IssuesCarryNoState(codec: EventCodec, lines: seq<seq<Byte>>)
    ensures Replay(codec, Cleaned(codec, lines)) == Reading(Replay(codec, lines).projection, [])
    decreases |lines|
  {
    hide Apply, Blank;
    if lines != [] {
      var init, line := lines[..|lines| - 1], lines[|lines| - 1];
      IssuesCarryNoState(codec, init);
      var cleaned := Cleaned(codec, init);
      assert (cleaned + [line])[..|cleaned + [line]| - 1] == cleaned;
    }
  }

  // ---------- Many callers, one file ----------

  /** Where a caller is: past its retry lookup, or holding a draft built from a snapshot. */
  datatype Phase = Asked(call: Call) | Drafted(call: Call, draft: Draft)

  /** What a caller got back. */
  datatype Answer = Answer(call: Call, result: CommitResult)

  datatype World = World(file: seq<Byte>, pending: map<nat, Phase>, answers: seq<Answer>)

  const START := World([], map[], [])

  /** `reach` bounds how many bytes of the commit's append reach the file before a crash. */
  datatype Step =
    | Begin(caller: nat, call: Call)
    | Snapshot(caller: nat)
    | Commit(caller: nat, meta: Meta, reach: nat)
    | Abandon(caller: nat)

  function View(codec: EventCodec, file: seq<Byte>): Projection { Fold(EMPTY, Contents(codec, file)) }

  function Leave(w: World, caller: nat): World { w.(pending := w.pending - {caller}) }

  function Tell(w: World, caller: nat, call: Call, result: CommitResult): World {
    Leave(w, caller).(answers := w.answers + [Answer(call, result)])
  }

  /** The append returned, so its caller is answered. */
  predicate Survives(file: seq<Byte>, record: seq<Byte>, reach: nat) { reach > |Separator(file)| + |record| }

  predicate Holds(w: World, caller: nat) { caller in w.pending && w.pending[caller].Drafted? }

  /** What the commit of a caller's draft comes to. */
  function ResultOf(codec: EventCodec, w: World, caller: nat, meta: Meta): CommitResult
    requires Holds(w, caller)
  {
    ControlStore.Commit(View(codec, w.file), w.pending[caller].draft, w.pending[caller].call, meta)
  }

  function NextCommit(codec: EventCodec, w: World, caller: nat, meta: Meta, reach: nat): World
    requires Holds(w, caller)
  {
    var call, result := w.pending[caller].call, ResultOf(codec, w, caller, meta);
    match result
    case Committed(e) =>
      var record := codec.encode(e);
      (if Survives(w.file, record, reach) then Tell(w, caller, call, result) else Leave(w, caller))
        .(file := Written(codec, w.file, Write(e, reach)))
    case Replayed(_) => Tell(w, caller, call, result)
    case Raised(_) => Tell(w, caller, call, result)
  }

  function Next(codec: EventCodec, w: World, s: Step): World {
    match s
    case Begin(caller, call) =>
      (match Retry(View(codec, w.file), call)
       case Found(e) => Tell(w, caller, call, Replayed(e))
       case Conflicting => Tell(w, caller, call, Raised(IdempotencyConflict))
       case Fresh => w.(pending := w.pending[caller := Asked(call)]))
    case Snapshot(caller) =>
      if caller !in w.pending || !w.pending[caller].Asked? then w
      else
        var call := w.pending[caller].call;
        (match Build(View(codec, w.file), call)
         case Success(draft) => w.(pending := w.pending[caller := Drafted(call, draft)])
         case Failure(error) => Tell(w, caller, call, Raised(error)))
    case Commit(caller, meta, reach) => if Holds(w, caller) then NextCommit(codec, w, caller, meta, reach) else w
    case Abandon(caller) => Leave(w, caller)
  }

  /** The event a step writes, if any, is one the codec is faithful at. */
  ghost predicate PrintsFaithfully(codec: EventCodec, w: World, s: Step) {
    s.Commit? && Holds(w, s.caller) && ResultOf(codec, w, s.caller, s.meta).Committed?
    ==> FaithfulAt(codec, ResultOf(codec, w, s.caller, s.meta).event)
  }

  /** A draft was built at some earlier state of the log. */
  ghost predicate BuiltEarlier(p: Projection, it: Phase) {
    it.Drafted? ==> exists q :: Sound(q) && Evolves(q, p) && Build(q, it.call) == Success(it.draft)
  }

  ghost predicate Fair(codec: EventCodec, w: World) {
    forall k :: k in w.pending ==> BuiltEarlier(View(codec, w.file), w.pending[k])
  }

  /** What one step may do to the projection: nothing, or one whole call. */
  ghost predicate AtomicStep(p: Projection, q: Projection) {
    p == q || exists c, meta :: Atomic(p, c, meta).Committed? && q == After(p, Atomic(p, c, meta).event)
  }

  lemma ViewSound(codec: EventCodec, file: seq<Byte>)
    ensures Sound(View(codec, file))
  {
    EmptySound();
    FoldEvolves(EMPTY, Contents(codec, file));
  }

  lemma WrittenView(codec: EventCodec, file: seq<Byte>, e: ControlEvent, reach: nat)
    requires FaithfulAt(codec, e)
    ensures var p, q := View(codec, file), View(codec, Written(codec, file, Write(e, reach)));
            q == if Reaches(file, codec.encode(e), reach) then After(p, e) else p
  {
    hide After, Contents, Written, FaithfulAt;
    TornAppendIsAllOrNothing(codec, file, Write(e, reach));
    FoldAppend(EMPTY, Contents(codec, file), Gain(codec, file, Write(e, reach)));
    var p := View(codec, file);
    assert [e][..0] == [];
    assert Fold(p, [e]) == After(p, e);
  }

  /**
   A step changes the projection only by committing its caller's draft, and then exactly as the caller's call
   done in one step at that moment; if its bytes do not all arrive, it changes nothing.
   */
  ghost predicate ActsAsCalled(codec: EventCodec, w: World, s: Step) {
    var p, q := View(codec, w.file), View(codec, Next(codec, w, s).file);
    if s.Commit? && Holds(w, s.caller) && ResultOf(codec, w, s.caller, s.meta).Committed? then
      var call, result := w.pending[s.caller].call, ResultOf(codec, w, s.caller, s.meta);
      && Atomic(p, call, s.meta) == result
      && q == if Reaches(w.file, codec.encode(result.event), s.reach) then After(p, result.event) else p
    else Next(codec, w, s).file == w.file
  }

  lemma CommitIsAtomic(codec: EventCodec, w: World, caller: nat, meta: Meta, reach: nat)
    requires Fair(codec, w) && PrintsFaithfully(codec, w, Commit(caller, meta, reach))
    ensures ActsAsCalled(codec, w, Commit(caller, meta, reach))
  {
    hide Sound, Evolves, View, Written, FaithfulAt, After, Reaches, ControlStore.Commit, Atomic, Build;
    if Holds(w, caller) && ResultOf(codec, w, caller, meta).Committed? {
      var it, p := w.pending[caller], View(codec, w.file);
      assert BuiltEarlier(p, it);
      var q :| Sound(q) && Evolves(q, p) && Build(q, it.call) == Success(it.draft);
      ViewSound(codec, w.file);
      TwoPhaseIsAtomic(q, p, it.call, it.draft, meta);
      WrittenView(codec, w.file, ResultOf(codec, w, caller, meta).event, reach);
    }
  }

  /**
   The answer a step gives, if any, matches what it did to the log: a commit is answered as such exactly when its event
   was accepted and written, and any other answer leaves the file alone. A caller that commits stays unanswered only
   when its append did not return.
   */
  lemma AnswersMatchEffects(codec: EventCodec, w: World, s: Step)
    requires Fair(codec, w) && PrintsFaithfully(codec, w, s)
    ensures var n := Next(codec, w, s); var p, q := View(codec, w.file), View(codec, n.file);
      && (n.answers == w.answers || exists a :: n.answers == w.answers + [a])
      && (forall a :: n.answers == w.answers + [a] ==>
            if a.result.Committed? then Apply(p, a.result.event).Applied? && q == After(p, a.result.event) else n.file == w.file)
      && (s.Commit? && Holds(w, s.caller) && n.answers == w.answers ==>
            && ResultOf(codec, w, s.caller, s.meta).Committed?
            && s.reach < |Appended(w.file, codec.encode(ResultOf(codec, w, s.caller, s.meta).event))| - |w.file|)
  {
    hide View, Contents, FaithfulAt, After, Apply, Build, Retry, Written, Fair;
    if s.Commit? && Holds(w, s.caller) && ResultOf(codec, w, s.caller, s.meta).Committed? {
      var it, e := w.pending[s.caller], ResultOf(codec, w, s.caller, s.meta).event;
      WrittenView(codec, w.file, e, s.reach);
      CommittedIsAccepted(View(codec, w.file), it.draft, it.call, s.meta);
    }
    hide ControlStore.Commit;
    forall a | Next(codec, w, s).answers == w.answers + [a]
      ensures a == Next(codec, w, s).answers[|w.answers|]
    {
    }
  }

  lemma CommittedIsAccepted(p: Projection, d: Draft, c: Call, meta: Meta)
    requires ControlStore.Commit(p, d, c, meta).Committed?
    ensures Apply(p, ControlStore.Commit(p, d, c, meta).event).Applied?
  {
    hide Check, Store;
  }

  lemma CalledIsAtomic(codec: EventCodec, w: World, s: Step)
    requires ActsAsCalled(codec, w, s)
    ensures AtomicStep(View(codec, w.file), View(codec, Next(codec, w, s).file))
  {
    hide View, Next, Atomic, After, ControlStore.Commit;
  }

  lemma AtomicStepEvolves(p: Projection, q: Projection)
    requires Sound(p) && AtomicStep(p, q)
    ensures Evolves(p, q)
  {
    hide Sound, Evolves, Atomic, After;
    EvolvesReflexive(p);
    if p != q {
      var c, meta :| Atomic(p, c, meta).Committed? && q == After(p, Atomic(p, c, meta).event);
      AfterEvolves(p, Atomic(p, c, meta).event);
    }
  }

  lemma PendingStaysFair(p: Projection, q: Projection, it: Phase)
    requires BuiltEarlier(p, it) && Evolves(p, q)
    ensures BuiltEarlier(q, it)
  {
    hide Sound, Evolves, Build;
    if it.Drafted? {
      var r :| Sound(r) && Evolves(r, p) && Build(r, it.call) == Success(it.draft);
      EvolvesTransitive(r, p, q);
    }
  }

  /** Every step of the shared system acts as its caller called, whatever interleaves and wherever appends stop. */
  lemma StepsAreAtomic(codec: EventCodec, w: World, s: Step)
    requires Fair(codec, w) && PrintsFaithfully(codec, w, s)
    ensures Fair(codec, Next(codec, w, s)) && ActsAsCalled(codec, w, s)
  {
    hide Sound, Evolves, View, Written, FaithfulAt, BuiltEarlier, AtomicStep, Build, Retry, ControlStore.Commit;
    var next := Next(codec, w, s);
    var p, q := View(codec, w.file), View(codec, next.file);
    assert ActsAsCalled(codec, w, s) by { if s.Commit? { CommitIsAtomic(codec, w, s.caller, s.meta, s.reach); } }
    CalledIsAtomic(codec, w, s);
    ViewSound(codec, w.file);
    AtomicStepEvolves(p, q);
    forall k | k in next.pending ensures BuiltEarlier(q, next.pending[k]) {
      if k in w.pending && next.pending[k] == w.pending[k] {
        PendingStaysFair(p, q, w.pending[k]);
      } else {
        BeginIsFair(p, next.pending[k]);
      }
    }
  }

  lemma BeginIsFair(p: Projection, it: Phase)
    requires Sound(p) && (it.Drafted? ==> Build(p, it.call) == Success(it.draft))
    ensures BuiltEarlier(p, it)
  {
    hide Sound, Evolves, Build;
    EvolvesReflexive(p);
  }

  function Runs(codec: EventCodec, w: World, steps: seq<Step>): World
    decreases |steps|
  {
    if steps == [] then w else Next(codec, Runs(codec, w, steps[..|steps| - 1]), steps[|steps| - 1])
  }

  /** The codec is faithful at every event that a run from the empty file writes. */
  ghost predicate FaithfulRun(codec: EventCodec, steps: seq<Step>)
    decreases |steps|
  {
    steps == []
    || (&& FaithfulRun(codec, steps[..|steps| - 1])
        && PrintsFaithfully(codec, Runs(codec, START, steps[..|steps| - 1]), steps[|steps| - 1]))
  }

  // ---------- Answers ----------

  /** The event an answer carries is the one the log keeps under the caller's key. */
  ghost predicate HonestAnswer(p: Projection, a: Answer) {
    match a.result
    case Committed(e) => a.call.key in p.idempotency && p.idempotency[a.call.key] == e
    case Replayed(e) => a.call.key in p.idempotency && p.idempotency[a.call.key] == e
    case Raised(_) => true
  }

  ghost predicate Honest(codec: EventCodec, w: World) {
    forall a :: a in w.answers ==> HonestAnswer(View(codec, w.file), a)
  }

  lemma CommitAnswersHonestly(p: Projection, c: Call, d: Draft, meta: Meta)
    ensures ControlStore.Commit(p, d, c, meta).Replayed? ==> HonestAnswer(p, Answer(c, ControlStore.Commit(p, d, c, meta)))
    ensures ControlStore.Commit(p, d, c, meta).Committed? ==>
      HonestAnswer(After(p, ControlStore.Commit(p, d, c, meta).event), Answer(c, ControlStore.Commit(p, d, c, meta)))
  {
    hide Check, Store;
  }

  lemma HonestLater(p: Projection, q: Projection, a: Answer)
    requires HonestAnswer(p, a) && Evolves(p, q)
    ensures HonestAnswer(q, a)
  {
    hide RecordsLater;
  }

  lemma NewAnswersAreHonest(codec: EventCodec, w: World, s: Step, a: Answer)
    requires ActsAsCalled(codec, w, s) && a in Next(codec, w, s).answers && a !in w.answers
    ensures HonestAnswer(View(codec, Next(codec, w, s).file), a)
  {
    if s.Commit? && Holds(w, s.caller) {
      CommitAnswersHonestly(View(codec, w.file), w.pending[s.caller].call, w.pending[s.caller].draft, s.meta);
    }
    hide View, Written, Atomic, After, Build, ControlStore.Commit, RetryOperation, HonestAnswer;
    if s.Begin? {
      LookupIsHonest(View(codec, w.file), s.call);
    }
    RaisedIsHonest(View(codec, Next(codec, w, s).file), a);
  }

  lemma LookupIsHonest(p: Projection, c: Call)
    ensures Retry(p, c).Found? ==> HonestAnswer(p, Answer(c, Replayed(Retry(p, c).first)))
  {
    hide RetryOperation;
  }

  lemma RaisedIsHonest(p: Projection, a: Answer)
    ensures a.result.Raised? ==> HonestAnswer(p, a)
  {
  }

  lemma StepsKeepHonest(codec: EventCodec, w: World, s: Step)
    requires Fair(codec, w) && PrintsFaithfully(codec, w, s) && Honest(codec, w)
    ensures Honest(codec, Next(codec, w, s))
  {
    hide View, Next, AtomicStep, HonestAnswer, PrintsFaithfully, ActsAsCalled, Fair, Sound, Evolves;
    var next := Next(codec, w, s);
    var p, q := View(codec, w.file), View(codec, next.file);
    StepsAreAtomic(codec, w, s);
    CalledIsAtomic(codec, w, s);
    ViewSound(codec, w.file);
    AtomicStepEvolves(p, q);
    forall a | a in next.answers ensures HonestAnswer(q, a) {
      if a in w.answers {
        HonestLater(p, q, a);
      } else {
        NewAnswersAreHonest(codec, w, s, a);
      }
    }
  }

  // ---------- Logs written by the store alone ----------

  /** Each event is what some call, done in one step, appends to the events before it. */
  ghost predicate StoreWritten(events: seq<ControlEvent>)
    decreases |events|
  {
    events == [] ||
    (&& StoreWritten(events[..|events| - 1])
     && StoreStep(Fold(EMPTY, events[..|events| - 1]), events[|events| - 1]))
  }

  ghost predicate StoreStep(p: Projection, e: ControlEvent) { exists c, meta :: CommitsAs(p, c, meta, e) }

  predicate CommitsAs(p: Projection, c: Call, meta: Meta, e: ControlEvent) { Atomic(p, c, meta) == Committed(e) }

  /** A projection whose recorded events all came from store calls. */
  ghost predicate StoreMade(p: Projection) { p == Fold(EMPTY, p.events) && StoreWritten(p.events) }

  lemma CommittedIsApplied(p: Projection, c: Call, meta: Meta)
    requires Atomic(p, c, meta).Committed?
    ensures Apply(p, Atomic(p, c, meta).event).Applied?
  {
    hide Apply, Build;
  }

  lemma AtomicStepStoreMade(p: Projection, q: Projection)
    requires StoreMade(p) && AtomicStep(p, q)
    ensures StoreMade(q)
  {
    hide Atomic, Apply;
    if p != q {
      var c, meta :| Atomic(p, c, meta).Committed? && q == After(p, Atomic(p, c, meta).event);
      var e := Atomic(p, c, meta).event;
      CommittedIsApplied(p, c, meta);
      AppliedRecords(p, e);
      hide After;
      assert q.events[..|q.events| - 1] == p.events;
      assert CommitsAs(p, c, meta, q.events[|q.events| - 1]);
    }
  }

  /**
   From an empty file, any interleaving of calls, commits and cut-short appends leaves a log in which every
   recorded event is one whole store call, so what holds of logs written by the store one call at a time
   holds of it; and every answer given carries the event the log keeps for its key.
   */
  lemma {:induction false} ConcurrentRunsAreStoreMade(codec: EventCodec, steps: seq<Step>)
    requires FaithfulRun(codec, steps)
    ensures var w := Runs(codec, START, steps); Fair(codec, w) && StoreMade(View(codec, w.file)) && Honest(codec, w)
    decreases |steps|
  {
    hide View, Next, AtomicStep, StoreMade, HonestAnswer, PrintsFaithfully, ActsAsCalled;
    if steps == [] {
      EmptyView(codec);
    } else {
      var w := Runs(codec, START, steps[..|steps| - 1]);
      var s := steps[|steps| - 1];
      ConcurrentRunsAreStoreMade(codec, steps[..|steps| - 1]);
      StepsAreAtomic(codec, w, s);
      StepsKeepHonest(codec, w, s);
      CalledIsAtomic(codec, w, s);
      AtomicStepStoreMade(View(codec, w.file), View(codec, Next(codec, w, s).file));
    }
  }

  /** Exactly once: whoever is answered for one key, by whichever path, is answered the one event of that key. */
  lemma AnswersAgree(codec: EventCodec, steps: seq<Step>, a: Answer, b: Answer)
    requires FaithfulRun(codec, steps)
    requires a in Runs(codec, START, steps).answers && b in Runs(codec, START, steps).answers
    requires a.call.key == b.call.key && !a.result.Raised? && !b.result.Raised?
    ensures var events := View(codec, Runs(codec, START, steps).file).events;
      exists i :: 0 <= i < |events| && EventAnswered(a.result) == EventAnswered(b.result) == events[i]
        && forall k :: 0 <= k < |events| && events[k].idempotencyKey == a.call.key ==> k == i
  {
    ConcurrentRunsAreStoreMade(codec, steps);
    var w := Runs(codec, START, steps);
    assert HonestAnswer(View(codec, w.file), a) && HonestAnswer(View(codec, w.file), b);
    ViewSound(codec, w.file);
    var e := EventAnswered(a.result);
    var events := View(codec, w.file).events;
    hide View, Runs, FaithfulRun, AllKeyed;
    assert e in events && e.idempotencyKey == a.call.key;
    var i :| 0 <= i < |events| && events[i] == e;
  }

  function EventAnswered(result: CommitResult): ControlEvent
    requires !result.Raised?
  {
    if result.Committed? then result.event else result.first
  }

  lemma EmptyView(codec: EventCodec)
    ensures View(codec, []) == EMPTY && StoreMade(EMPTY)
  {
  }

  // ---------- Faithful codecs for every run ----------

  ghost predicate Short(file: seq<Byte>, n: nat) { forall line :: line in Lines(file) ==> |line| < n + 2 }

  lemma {:induction false} RecordsAgree(c: EventCodec, d: EventCodec, lines: seq<seq<Byte>>)
    requires forall line :: line in lines ==> c.decode(line) == d.decode(line)
    ensures Records(c, lines) == Records(d, lines)
    decreases |lines|
  {
    if lines != [] {
      assert lines[|lines| - 1] in lines;
      RecordsAgree(c, d, lines[..|lines| - 1]);
    }
  }

  lemma LongerListReadsAlike(events: seq<ControlEvent>, e: ControlEvent, file: seq<Byte>)
    requires Short(file, |events|)
    ensures View(CodecOf(events), file) == View(CodecOf(events + [e]), file)
  {
    hide Lines, UnaryBytes, Fold;
    RecordsAgree(CodecOf(events), CodecOf(events + [e]), Lines(file));
  }

  lemma LongerListPrintsAlike(events: seq<ControlEvent>, e: ControlEvent, f: ControlEvent)
    requires FaithfulAt(CodecOf(events), f)
    ensures f in events && CodecOf(events + [e]).encode(f) == CodecOf(events).encode(f) == UnaryBytes(IndexOf(events, f))
  {
    assert (events + [e])[..|events|] == events;
  }

  lemma WrittenStaysShort(events: seq<ControlEvent>, file: seq<Byte>, w: Write<ControlEvent>)
    requires Short(file, |events|) && FaithfulAt(CodecOf(events), w.event)
    ensures Short(Written(CodecOf(events), file, w), |events|)
  {
    LongerListPrintsAlike(events, w.event, w.event);
    var record := CodecOf(events).encode(w.event);
    TornAddsAtMostOneLine(file, record, w.reach);
    hide Lines, UnaryBytes, CodecOf, Torn;
  }

  lemma {:induction false} RunsStayShort(events: seq<ControlEvent>, steps: seq<Step>)
    requires FaithfulRun(CodecOf(events), steps)
    ensures Short(Runs(CodecOf(events), START, steps).file, |events|)
    decreases |steps|
  {
    var codec := CodecOf(events);
    if steps != [] {
      RunsStayShort(events, steps[..|steps| - 1]);
      var w, s := Runs(codec, START, steps[..|steps| - 1]), steps[|steps| - 1];
      hide Short, CodecOf, Written, FaithfulAt, View, ControlStore.Commit, Build, Retry, Survives;
      if s.Commit? && Holds(w, s.caller) && ResultOf(codec, w, s.caller, s.meta).Committed? {
        WrittenStaysShort(events, w.file, Write(ResultOf(codec, w, s.caller, s.meta).event, s.reach));
      }
    }
  }

  /** Adding an event to the list leaves a run that prints only listed events as it was. */
  lemma LongerListStepsAlike(events: seq<ControlEvent>, e: ControlEvent, w: World, s: Step)
    requires Short(w.file, |events|) && PrintsFaithfully(CodecOf(events), w, s)
    ensures Next(CodecOf(events), w, s) == Next(CodecOf(events + [e]), w, s) && PrintsFaithfully(CodecOf(events + [e]), w, s)
  {
    var c, d := CodecOf(events), CodecOf(events + [e]);
    LongerListReadsAlike(events, e, w.file);
    hide View, Short, ControlStore.Commit, Build, Retry, CodecOf;
    if s.Commit? && Holds(w, s.caller) && ResultOf(c, w, s.caller, s.meta).Committed? {
      var f := ResultOf(c, w, s.caller, s.meta).event;
      LongerListPrintsAlike(events, e, f);
      CodecOfIsFaithful(events + [e], f);
    }
  }

  lemma {:induction false} LongerListRunsAlike(events: seq<ControlEvent>, e: ControlEvent, steps: seq<Step>)
    requires FaithfulRun(CodecOf(events), steps)
    ensures FaithfulRun(CodecOf(events + [e]), steps)
    ensures Runs(CodecOf(events + [e]), START, steps) == Runs(CodecOf(events), START, steps)
    decreases |steps|
  {
    hide CodecOf, Short, Next, PrintsFaithfully;
    if steps != [] {
      LongerListRunsAlike(events, e, steps[..|steps| - 1]);
      RunsStayShort(events, steps[..|steps| - 1]);
      LongerListStepsAlike(events, e, Runs(CodecOf(events), START, steps[..|steps| - 1]), steps[|steps| - 1]);
    }
  }

  /** Whatever the callers do, some codec is faithful at everything their run writes. */
  lemma {:induction false} FaithfulRunsExist(steps: seq<Step>) returns (events: seq<ControlEvent>)
    ensures FaithfulRun(CodecOf(events), steps)
    decreases |steps|
  {
    hide CodecOf, Next, View, ControlStore.Commit, FaithfulAt;
    events := [];
    if steps != [] {
      var init, s := steps[..|steps| - 1], steps[|steps| - 1];
      events := FaithfulRunsExist(init);
      var w := Runs(CodecOf(events), START, init);
      if s.Commit? && Holds(w, s.caller) && ResultOf(CodecOf(events), w, s.caller, s.meta).Committed? {
        var f := ResultOf(CodecOf(events), w, s.caller, s.meta).event;
        var more := events + [f];
        LongerListRunsAlike(events, f, init);
        RunsStayShort(events, init);
        LongerListReadsAlike(events, f, w.file);
        CodecOfIsFaithful(more, f);
        assert ResultOf(CodecOf(more), w, s.caller, s.meta).event == f;
        events := more;
      }
    }
  }

  // ---------- The store as an object ----------

  class LogStore {
    const codec: EventCodec
    const actions: ActionFile

    constructor (codec: EventCodec)
      ensures this.codec == codec && fresh(actions) && actions.bytes == []
    {
      this.codec := codec;
      actions := new ActionFile();
    }

    /** `_project_unlocked`. */
    method Project() returns (projection: ControlProjection)
      ensures fresh(projection) && unchanged(actions)
      ensures projection.View() == Replay(codec, Lines(actions.bytes)).projection
      ensures projection.issues == Replay(codec, Lines(actions.bytes)).issues
    {
      hide Apply, After, Check;
      projection := new ControlProjection();
      var lines := Lines(actions.bytes);
      var n := 0;
      while n < |lines|
        invariant 0 <= n <= |lines| && unchanged(actions) && fresh(projection)
        invariant projection.View() == Replay(codec, lines[..n]).projection
        invariant projection.issues == Replay(codec, lines[..n]).issues
      {
        var raw := lines[n];
        assert lines[..n + 1][..|lines[..n + 1]| - 1] == lines[..n];
        n := n + 1;
        if !Blank(raw) {
          match codec.decode(raw) {
            case None => projection.issues := projection.issues + [n];
            case Some(e) =>
              var error := projection.ApplyEvent(e);
              if error.Some? {
                projection.issues := projection.issues + [n];
              }
          }
        }
      }
      assert lines[..n] == lines;
    }

    /** `_mutate`, under the exclusive lock: one append when the event is accepted, otherwise none. */
    method Mutate(call: Call, draft: Draft, meta: Meta) returns (result: CommitResult)
      modifies actions
      ensures result == ControlStore.Commit(View(codec, old(actions.bytes)), draft, call, meta)
      ensures actions.bytes ==
              if result.Committed? then Appended(old(actions.bytes), codec.encode(result.event)) else old(actions.bytes)
    {
      if draft.expected < 0 {
        return Raised(Malformed);
      }
      var projection := Project();
      ReplayIsFold(codec, Lines(actions.bytes));
      hide Replay, Check, Store;
      var event := EventOf(draft, call, meta);
      if call.key in projection.idempotency {
        var previous := projection.idempotency[call.key];
        return if previous.operationDigest == event.operationDigest then Replayed(previous) else Raised(IdempotencyConflict);
      }
      if !ValidActor(call.actor) {
        return Raised(Malformed);
      }
      var error := projection.ApplyEvent(event);
      if error.Some? {
        return Raised(error.value);
      }
      actions.Append(codec.encode(event));
      result := Committed(event);
    }

    /** A whole method call with nobody in between is the atomic call. */
    method Execute(call: Call, meta: Meta) returns (result: CommitResult)
      modifies actions
      ensures result == Atomic(View(codec, old(actions.bytes)), call, meta)
      ensures actions.bytes ==
              if result.Committed? then Appended(old(actions.bytes), codec.encode(result.event)) else old(actions.bytes)
    {
      var snapshot := Project();
      ReplayIsFold(codec, Lines(actions.bytes));
      hide Replay, ControlStore.Commit, Build, Retry;
      match Retry(snapshot.View(), call) {
        case Found(first) => result := Replayed(first);
        case Conflicting => result := Raised(IdempotencyConflict);
        case Fresh =>
          match Build(snapshot.View(), call) {
            case Failure(error) => result := Raised(error);
            case Success(draft) => result := Mutate(call, draft, meta);
          }
      }
    }
  }
}
