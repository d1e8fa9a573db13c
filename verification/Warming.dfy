/**
 When the background rebuild of the derived ledger runs. Clock readings and change tokens are inputs and
 times are exact. A rebuild that raises counts like any other, as it does in the source.
 */
module Warming {
  import opened Common

  type Token = nat

  datatype Config = Config(settle: real, maxWait: real, window: real, restFactor: real)

  datatype Timing = Timing(
    lastReader: Option<real>, built: Option<Token>, unbuilt: Option<Token>, firstUnbuilt: Option<real>,
    lastChange: Option<real>, restingUntil: real)

  const INITIAL := Timing(None, None, None, None, None, 0.0)

  function Forget(w: Timing): Timing { w.(unbuilt := None, firstUnbuilt := None, lastChange := None) }

  predicate Watching(cfg: Config, w: Timing, at: real) { w.lastReader.Some? && at - w.lastReader.value <= cfg.window }

  /** The three marks of an unbuilt change come and go together. */
  predicate Coherent(w: Timing) { w.unbuilt.Some? == w.firstUnbuilt.Some? == w.lastChange.Some? }

  /** Recording that `token` is not built yet; only the first such change sets the first mark. */
  function Noticed(w: Timing, token: Token, now: real): (n: Timing)
    requires Coherent(w)
    ensures Coherent(n) && n.unbuilt == Some(token)
    ensures n.firstUnbuilt == if w.firstUnbuilt.Some? then w.firstUnbuilt else Some(now)
  {
    if w.unbuilt == Some(token) then w
    else w.(unbuilt := Some(token), lastChange := Some(now),
            firstUnbuilt := if w.firstUnbuilt.Some? then w.firstUnbuilt else Some(now))
  }

  predicate DueAt(cfg: Config, w: Timing, now: real)
    requires Coherent(w) && w.unbuilt.Some?
  {
    && (now - w.lastChange.value >= cfg.settle || now - w.firstUnbuilt.value >= cfg.maxWait)
    && now >= w.restingUntil
  }

  /** What a check that found a reader decides once it has read the token: the state it leaves, the token to rebuild for. */
  function DecideFor(cfg: Config, w: Timing, now: real, token: Option<Token>): (r: (Timing, Option<Token>))
    requires Coherent(w)
    ensures Coherent(r.0)
  {
    if token.None? then (w, None)
    else if w.built == token then (Forget(w), None)
    else
      var noticed := Noticed(w, token.value, now);
      (noticed, if DueAt(cfg, noticed, now) then token else None)
  }

  /** A whole check. */
  function Decide(cfg: Config, w: Timing, now: real, watchedAt: real, token: Option<Token>): (r: (Timing, Option<Token>))
    requires Coherent(w)
    ensures Coherent(r.0)
  {
    if !Watching(cfg, w, watchedAt) then (Forget(w), None) else DecideFor(cfg, w, now, token)
  }

  function Longer(a: real, b: real): real { if a > b then a else b }

  /** `_run_rebuild` for a token read before it started. */
  function Rebuilt(cfg: Config, w: Timing, token: Token, started: real, finished: real): Timing {
    Forget(w).(built := Some(token), restingUntil := finished + Longer(0.0, finished - started) * cfg.restFactor)
  }

  class LedgerWarmer {
    const cfg: Config
    var lastReaderAt: Option<real>
    var builtToken: Option<Token>
    var unbuiltToken: Option<Token>
    var firstUnbuiltChangeAt: Option<real>
    var lastChangeAt: Option<real>
    var restingUntil: real

    constructor (cfg: Config)
      ensures this.cfg == cfg && View() == INITIAL
    {
      this.cfg := cfg;
      lastReaderAt, builtToken, unbuiltToken, firstUnbuiltChangeAt, lastChangeAt := None, None, None, None, None;
      restingUntil := 0.0;
    }

    function View(): Timing
      reads this
    {
      Timing(lastReaderAt, builtToken, unbuiltToken, firstUnbuiltChangeAt, lastChangeAt, restingUntil)
    }

    method NoteReader(now: real)
      modifies this
      ensures View() == old(View()).(lastReader := Some(now))
    {
      lastReaderAt := Some(now);
    }

    method ForgetUnbuiltChange()
      modifies this
      ensures View() == Forget(old(View()))
    {
      unbuiltToken, firstUnbuiltChangeAt, lastChangeAt := None, None, None;
    }

    method RunRebuild(token: Token, started: real, finished: real)
      modifies this
      ensures View() == Rebuilt(cfg, old(View()), token, started, finished)
    {
      builtToken := Some(token);
      ForgetUnbuiltChange();
      restingUntil := finished + Longer(0.0, finished - started) * cfg.restFactor;
    }

    /** `rebuild_now`; an absent token is a read that raised. */
    method RebuildNow(token: Option<Token>, started: real, finished: real)
      modifies this
      ensures View() == if token.Some? then Rebuilt(cfg, old(View()), token.value, started, finished) else old(View())
    {
      if token.Some? {
        RunRebuild(token.value, started, finished);
      }
    }

    /** `check_once`; `started` and `finished` are read only when it rebuilds. */
    method CheckOnce(now: real, watchedAt: real, token: Option<Token>, started: real, finished: real) returns (ran: bool)
      requires Coherent(View())
      modifies this
      ensures Coherent(View())
      ensures var (decided, due) := Decide(cfg, old(View()), now, watchedAt, token);
        ran == due.Some? && View() == if due.Some? then Rebuilt(cfg, decided, due.value, started, finished) else decided
    {
      if lastReaderAt.None? || watchedAt - lastReaderAt.value > cfg.window {
        ForgetUnbuiltChange();
        return false;
      }
      if token.None? {
        return false;
      }
      if builtToken == token {
        ForgetUnbuiltChange();
        return false;
      }
      if firstUnbuiltChangeAt.None? || token != unbuiltToken {
        if firstUnbuiltChangeAt.None? {
          firstUnbuiltChangeAt := Some(now);
        }
        unbuiltToken := token;
        lastChangeAt := Some(now);
      }
      var settled := now - lastChangeAt.value >= cfg.settle;
      var overdue := now - firstUnbuiltChangeAt.value >= cfg.maxWait;
      if !(settled || overdue) || now < restingUntil {
        return false;
      }
      RunRebuild(token.value, started, finished);
      return true;
    }
  }

  // ---------- Runs ----------

  datatype Span = Span(start: real, finish: real)

  /**
   Where the warmer's thread is: between checks; after the first clock reading of a check; past its reader test;
   holding a token to rebuild for; rebuilding since some time.
   */
  datatype Phase =
    | Idle
    | Clocked(now: real)
    | Watched(now: real)
    | Due(token: Token)
    | Rebuilding(token: Token, start: real)

  /**
   The warmer among writers and readers, each step of its thread on its own. The store's token counts its
   writes, so it never repeats.
   */
  datatype World = World(
    w: Timing, store: Token, lastWrite: Option<real>, clock: real, phase: Phase, rebuilds: seq<Span>)

  datatype Step =
    | Write(at: real)
    | Read(at: real)
    | ReadClock(at: real)
    | TestReader(at: real)
    | ReadToken(at: real, readable: bool)
    | StartupRead(at: real, readable: bool)
    | Start(at: real)
    | Finish(at: real)

  /** The clock never runs back, and the thread takes its steps in order; startup comes before any rebuild. */
  predicate Possible(v: World, s: Step) {
    && v.clock <= s.at
    && match s
       case Write(_) => true
       case Read(_) => true
       case ReadClock(_) => v.phase.Idle?
       case TestReader(_) => v.phase.Clocked?
       case ReadToken(_, _) => v.phase.Watched?
       case StartupRead(_, _) => v.phase.Idle? && v.rebuilds == []
       case Start(_) => v.phase.Due?
       case Finish(_) => v.phase.Rebuilding?
  }

  function TokenRead(v: World, readable: bool): Option<Token> { if readable then Some(v.store) else None }

  function PhaseFor(due: Option<Token>): Phase { if due.Some? then Due(due.value) else Idle }

  function Next(cfg: Config, v: World, s: Step): World
    requires Coherent(v.w) && Possible(v, s)
  {
    match s
    case Write(at) => v.(store := v.store + 1, lastWrite := Some(at), clock := at)
    case Read(at) => v.(w := v.w.(lastReader := Some(at)), clock := at)
    case ReadClock(at) => v.(phase := Clocked(at), clock := at)
    case TestReader(at) =>
      if Watching(cfg, v.w, at) then v.(phase := Watched(v.phase.now), clock := at)
      else v.(w := Forget(v.w), phase := Idle, clock := at)
    case ReadToken(at, readable) =>
      var (decided, due) := DecideFor(cfg, v.w, v.phase.now, TokenRead(v, readable));
      v.(w := decided, phase := PhaseFor(due), clock := at)
    case StartupRead(at, readable) => v.(phase := PhaseFor(TokenRead(v, readable)), clock := at)
    case Start(at) => v.(phase := Rebuilding(v.phase.token, at), clock := at)
    case Finish(at) =>
      v.(w := Rebuilt(cfg, v.w, v.phase.token, v.phase.start, at), clock := at, phase := Idle,
         rebuilds := v.rebuilds + [Span(v.phase.start, at)])
  }

  /** Three thread steps with nothing in between are the check of the class. */
  lemma ChecksAreSteps(cfg: Config, v: World, now: real, watchedAt: real, readAt: real, readable: bool)
    requires Coherent(v.w) && v.phase.Idle? && v.clock <= now <= watchedAt <= readAt
    ensures var (decided, due) := Decide(cfg, v.w, now, watchedAt, TokenRead(v, readable));
      var tested := Next(cfg, Next(cfg, v, ReadClock(now)), TestReader(watchedAt));
      var after := if tested.phase.Watched? then Next(cfg, tested, ReadToken(readAt, readable)) else tested;
      after.w == decided && after.phase == PhaseFor(due)
  {
  }

  function Duration(s: Span): real { s.finish - s.start }

  function TotalDuration(spans: seq<Span>): real
    decreases |spans|
  {
    if spans == [] then 0.0 else TotalDuration(spans[..|spans| - 1]) + Duration(spans[|spans| - 1])
  }

  predicate After(lastWrite: Option<real>, start: real) { lastWrite.None? || lastWrite.value <= start }

  /** A rebuild rests the configured multiple of its duration before the next one starts. */
  ghost predicate Rests(cfg: Config, spans: seq<Span>) {
    && (forall i :: 0 <= i < |spans| ==> spans[i].start <= spans[i].finish)
    && (forall i :: 0 < i < |spans| ==>
      spans[i].start >= spans[i - 1].finish + Duration(spans[i - 1]) * cfg.restFactor)
  }

  ghost predicate PhaseFits(v: World) {
    match v.phase
    case Idle => true
    case Clocked(now) => now <= v.clock
    case Watched(now) => now <= v.clock
    case Due(token) => token <= v.store && (v.rebuilds != [] ==> v.clock >= v.w.restingUntil)
    case Rebuilding(token, start) =>
      && token <= v.store && start <= v.clock && (token == v.store ==> After(v.lastWrite, start))
      && (v.rebuilds != [] ==> start >= v.w.restingUntil)
  }

  /** Between rebuilds a change that is marked unbuilt really is one. */
  ghost predicate MarkFits(v: World) {
    !v.phase.Rebuilding? && !v.phase.Due? && v.w.firstUnbuilt.Some? && v.w.built.Some? ==> v.w.built.value < v.store
  }

  ghost predicate BuiltFits(cfg: Config, v: World) {
    && (v.w.built.Some? <==> v.rebuilds != [])
    && (v.rebuilds != [] ==>
      var last := v.rebuilds[|v.rebuilds| - 1];
      && v.w.restingUntil == last.finish + Duration(last) * cfg.restFactor
      && v.w.built.value <= v.store && (v.w.built.value == v.store ==> After(v.lastWrite, last.start)))
  }

  ghost predicate Invariant(cfg: Config, v: World) {
    && Coherent(v.w) && Rests(cfg, v.rebuilds) && (v.lastWrite.Some? ==> v.lastWrite.value <= v.clock)
    && BuiltFits(cfg, v) && PhaseFits(v) && MarkFits(v)
  }

  lemma StepKeepsInvariant(cfg: Config, v: World, s: Step)
    requires Invariant(cfg, v) && Possible(v, s)
    ensures Invariant(cfg, Next(cfg, v, s))
  {
    hide *;
    StaysCoherent(cfg, v);
    match s {
      case Write(_) => OutsideKeepsInvariant(cfg, v, s);
      case Read(_) => OutsideKeepsInvariant(cfg, v, s);
      case ReadClock(_) => OutsideKeepsInvariant(cfg, v, s);
      case TestReader(_) => ThreadKeepsInvariant(cfg, v, s);
      case StartupRead(_, _) => ThreadKeepsInvariant(cfg, v, s);
      case Start(_) => ThreadKeepsInvariant(cfg, v, s);
      case ReadToken(at, readable) => ReadTokenKeepsInvariant(cfg, v, at, readable);
      case Finish(at) => FinishKeepsInvariant(cfg, v, at);
    }
  }

  lemma StaysCoherent(cfg: Config, v: World)
    requires Invariant(cfg, v)
    ensures Coherent(v.w)
  {
  }

  lemma OutsideKeepsInvariant(cfg: Config, v: World, s: Step)
    requires Invariant(cfg, v) && Possible(v, s) && (s.Write? || s.Read? || s.ReadClock?)
    ensures Invariant(cfg, Next(cfg, v, s))
  {
    hide Rests, Duration;
  }

  lemma ThreadKeepsInvariant(cfg: Config, v: World, s: Step)
    requires Invariant(cfg, v) && Possible(v, s) && (s.TestReader? || s.StartupRead? || s.Start?)
    ensures Invariant(cfg, Next(cfg, v, s))
  {
    hide Rests, Duration;
  }

  lemma ReadTokenKeepsInvariant(cfg: Config, v: World, at: real, readable: bool)
    requires Invariant(cfg, v) && Possible(v, ReadToken(at, readable))
    ensures Invariant(cfg, Next(cfg, v, ReadToken(at, readable)))
  {
    hide Rests, Duration;
    var (decided, due) := DecideFor(cfg, v.w, v.phase.now, TokenRead(v, readable));
    assert decided.built == v.w.built && decided.restingUntil == v.w.restingUntil;
    assert due.Some? ==> due.value == v.store && v.phase.now >= v.w.restingUntil;
  }

  lemma FinishKeepsInvariant(cfg: Config, v: World, at: real)
    requires Invariant(cfg, v) && Possible(v, Finish(at))
    ensures Invariant(cfg, Next(cfg, v, Finish(at)))
  {
    var span := Span(v.phase.start, at);
    assert Rests(cfg, v.rebuilds + [span]);
    assert Longer(0.0, Duration(span)) == Duration(span);
    hide Rests;
  }

  /** Worlds connected by possible steps. */
  ghost predicate Steps(cfg: Config, worlds: seq<World>, steps: seq<Step>) {
    && |worlds| == |steps| + 1
    && forall i :: 0 <= i < |steps| ==>
      Coherent(worlds[i].w) && Possible(worlds[i], steps[i]) && worlds[i + 1] == Next(cfg, worlds[i], steps[i])
  }

  /** Such a sequence that begins where the invariant holds. */
  ghost predicate Run(cfg: Config, worlds: seq<World>, steps: seq<Step>) {
    Steps(cfg, worlds, steps) && Invariant(cfg, worlds[0])
  }

  lemma {:induction false} RunKeepsInvariant(cfg: Config, worlds: seq<World>, steps: seq<Step>, i: nat)
    requires Run(cfg, worlds, steps) && i < |worlds|
    ensures Invariant(cfg, worlds[i])
    decreases i
  {
    if i > 0 {
      RunKeepsInvariant(cfg, worlds, steps, i - 1);
      assert worlds[i] == Next(cfg, worlds[i - 1], steps[i - 1]);
      StepKeepsInvariant(cfg, worlds[i - 1], steps[i - 1]);
    }
  }

  const START := World(INITIAL, 0, None, 0.0, Idle, [])

  /** Load bound: the first k rebuilds, scaled by one plus the rest factor, fit before the next one starts. */
  lemma {:induction false} RebuildsLeaveRoom(cfg: Config, spans: seq<Span>, k: nat)
    requires Rests(cfg, spans) && k < |spans|
    ensures (1.0 + cfg.restFactor) * TotalDuration(spans[..k]) <= spans[k].start - spans[0].start
    decreases k
  {
    hide Rests, TotalDuration, Duration;
    if k == 0 {
      NoSpans();
    } else {
      RebuildsLeaveRoom(cfg, spans, k - 1);
      LastRest(cfg, spans, k);
      RoomForOne(cfg.restFactor, TotalDuration(spans[..k - 1]), Duration(spans[k - 1]), TotalDuration(spans[..k]),
        spans[k - 1].start - spans[0].start, spans[k].start - spans[0].start);
    }
  }

  lemma NoSpans()
    ensures TotalDuration([]) == 0.0
  {
  }

  lemma LastRest(cfg: Config, spans: seq<Span>, k: nat)
    requires Rests(cfg, spans) && 0 < k < |spans|
    ensures TotalDuration(spans[..k]) == TotalDuration(spans[..k - 1]) + Duration(spans[k - 1])
    ensures spans[k].start >= spans[k - 1].start + Duration(spans[k - 1]) + Duration(spans[k - 1]) * cfg.restFactor
  {
    assert spans[..k][..k - 1] == spans[..k - 1];
  }

  lemma RoomForOne(rest: real, before: real, d: real, total: real, used: real, next: real)
    requires total == before + d && (1.0 + rest) * before <= used && next >= used + d + d * rest
    ensures (1.0 + rest) * total <= next
  {
  }

  lemma NextSpanRests(cfg: Config, v: World)
    requires Invariant(cfg, v) && v.phase.Rebuilding?
    ensures var start := v.phase.start; Rests(cfg, v.rebuilds + [Span(start, start)])
  {
    hide Coherent, After;
  }

  lemma InvariantRests(cfg: Config, v: World)
    requires Invariant(cfg, v)
    ensures Rests(cfg, v.rebuilds)
  {
  }

  /** When the rebuild after the first k began, the one in progress included. */
  function StartAfter(v: World, k: nat): real
    requires k < |v.rebuilds| || (k == |v.rebuilds| && v.phase.Rebuilding?)
  {
    if k < |v.rebuilds| then v.rebuilds[k].start else v.phase.start
  }

  lemma InvariantLeavesRoom(cfg: Config, v: World, k: nat)
    requires Invariant(cfg, v) && v.rebuilds != []
    requires k < |v.rebuilds| || (k == |v.rebuilds| && v.phase.Rebuilding?)
    ensures (1.0 + cfg.restFactor) * TotalDuration(v.rebuilds[..k]) <= StartAfter(v, k) - v.rebuilds[0].start
  {
    hide TotalDuration, Duration, Invariant, Rests;
    InvariantRests(cfg, v);
    if k < |v.rebuilds| {
      RebuildsLeaveRoom(cfg, v.rebuilds, k);
    } else {
      var spans := v.rebuilds + [Span(StartAfter(v, k), StartAfter(v, k))];
      NextSpanRests(cfg, v);
      RebuildsLeaveRoom(cfg, spans, k);
      assert spans[..k] == v.rebuilds[..k];
    }
  }

  /** The load bound over runs. */
  lemma RunsLeaveRoom(cfg: Config, worlds: seq<World>, steps: seq<Step>, i: nat, k: nat)
    requires Run(cfg, worlds, steps) && i < |worlds| && worlds[i].rebuilds != []
    requires k < |worlds[i].rebuilds| || (k == |worlds[i].rebuilds| && worlds[i].phase.Rebuilding?)
    ensures (1.0 + cfg.restFactor) * TotalDuration(worlds[i].rebuilds[..k])
      <= StartAfter(worlds[i], k) - worlds[i].rebuilds[0].start
  {
    RunKeepsInvariant(cfg, worlds, steps, i);
    hide Run, TotalDuration, Invariant;
    InvariantLeavesRoom(cfg, worlds[i], k);
  }

  /** A built token that equals the store's belongs to a rebuild that began after the last write. */
  lemma BuiltTokenIsFresh(cfg: Config, worlds: seq<World>, steps: seq<Step>, i: nat)
    requires Run(cfg, worlds, steps) && i < |worlds| && worlds[i].w.built == Some(worlds[i].store)
    ensures worlds[i].rebuilds != [] && After(worlds[i].lastWrite, worlds[i].rebuilds[|worlds[i].rebuilds| - 1].start)
  {
    RunKeepsInvariant(cfg, worlds, steps, i);
    hide Rests, Steps;
  }

  /** Both hold from the start on, whatever readers, writers and the clock do. */
  lemma RunsFromStart(cfg: Config, worlds: seq<World>, steps: seq<Step>, i: nat)
    requires Steps(cfg, worlds, steps) && worlds[0] == START && i < |worlds|
    ensures var v := worlds[i];
      && (forall k: nat :: v.rebuilds != [] && (k < |v.rebuilds| || (k == |v.rebuilds| && v.phase.Rebuilding?)) ==>
            (1.0 + cfg.restFactor) * TotalDuration(v.rebuilds[..k]) <= StartAfter(v, k) - v.rebuilds[0].start)
      && (v.w.built == Some(v.store) ==>
            v.rebuilds != [] && After(v.lastWrite, v.rebuilds[|v.rebuilds| - 1].start))
  {
    assert Run(cfg, worlds, steps);
    hide Run, TotalDuration, Invariant, Steps;
    var v := worlds[i];
    forall k: nat | v.rebuilds != [] && (k < |v.rebuilds| || (k == |v.rebuilds| && v.phase.Rebuilding?))
      ensures (1.0 + cfg.restFactor) * TotalDuration(v.rebuilds[..k]) <= StartAfter(v, k) - v.rebuilds[0].start
    {
      RunsLeaveRoom(cfg, worlds, steps, i, k);
    }
    if v.w.built == Some(v.store) {
      BuiltTokenIsFresh(cfg, worlds, steps, i);
    }
  }

  // ---------- When a check decides ----------

  /** At step i a check reads the token t while it still has to be built. */
  ghost predicate Notices(worlds: seq<World>, steps: seq<Step>, i: nat, t: Token, now: real) {
    && i < |steps| && i < |worlds| && steps[i].ReadToken? && steps[i].readable && worlds[i].phase.Watched?
    && worlds[i].store == t && worlds[i].phase.now == now && worlds[i].w.built != Some(t)
  }

  /** The marks of an unbuilt change were set by checks of the run that saw it. */
  ghost predicate MarksHaveOrigins(worlds: seq<World>, steps: seq<Step>, i: nat)
    requires i < |worlds|
  {
    var w := worlds[i].w;
    && (w.unbuilt.Some? && w.lastChange.Some? ==>
          exists k: nat :: k < i && Notices(worlds, steps, k, w.unbuilt.value, w.lastChange.value))
    && (w.firstUnbuilt.Some? ==> exists k: nat, t :: k < i && Notices(worlds, steps, k, t, w.firstUnbuilt.value))
  }

  lemma {:induction false} MarksKeepOrigins(cfg: Config, worlds: seq<World>, steps: seq<Step>, i: nat)
    requires Steps(cfg, worlds, steps) && worlds[0] == START && i < |worlds|
    ensures MarksHaveOrigins(worlds, steps, i)
    decreases i
  {
    if i > 0 {
      MarksKeepOrigins(cfg, worlds, steps, i - 1);
      assert worlds[i] == Next(cfg, worlds[i - 1], steps[i - 1]);
      var v, w := worlds[i - 1].w, worlds[i].w;
      if steps[i - 1].ReadToken? {
        var now, t := worlds[i - 1].phase.now, worlds[i - 1].store;
        assert steps[i - 1].readable && v.built != Some(t) ==> Notices(worlds, steps, i - 1, t, now);
      }
    }
  }

  /**
   No rebuild before its time: over every run from the start, a check decides only when it is past the rest and the
   store's token was first noticed at least `settle` ago, or some change at least `maxWait` ago.
   */
  lemma RebuildsAreDue(cfg: Config, worlds: seq<World>, steps: seq<Step>, i: nat)
    requires Steps(cfg, worlds, steps) && worlds[0] == START && i < |steps|
    requires steps[i].ReadToken? && worlds[i + 1].phase.Due?
    ensures var v := worlds[i];
      && worlds[i + 1].phase.token == v.store && steps[i].readable && v.w.built != Some(v.store)
      && v.phase.now >= v.w.restingUntil
      && (|| (exists k: nat, at :: k <= i && Notices(worlds, steps, k, v.store, at) && v.phase.now - at >= cfg.settle)
          || (exists k: nat, t, at :: k <= i && Notices(worlds, steps, k, t, at) && v.phase.now - at >= cfg.maxWait))
  {
    var v := worlds[i];
    MarksKeepOrigins(cfg, worlds, steps, i);
    assert worlds[i + 1] == Next(cfg, v, steps[i]);
    assert Notices(worlds, steps, i, v.store, v.phase.now);
  }

  /** The reader seen last is that of the last read. */
  ghost predicate ReaderIsLastRead(worlds: seq<World>, steps: seq<Step>, i: nat)
    requires i < |worlds| && i <= |steps|
  {
    && (worlds[i].w.lastReader.Some? ==> exists k :: 0 <= k < i && steps[k] == Read(worlds[i].w.lastReader.value))
    && (forall k :: 0 <= k < i && steps[k].Read? ==> worlds[i].w.lastReader.Some? && steps[k].at <= worlds[i].w.lastReader.value)
    && (worlds[i].w.lastReader.Some? ==> worlds[i].w.lastReader.value <= worlds[i].clock)
  }

  lemma {:induction false} ReaderStaysLastRead(cfg: Config, worlds: seq<World>, steps: seq<Step>, i: nat)
    requires Steps(cfg, worlds, steps) && worlds[0] == START && i < |worlds|
    ensures ReaderIsLastRead(worlds, steps, i)
    decreases i
  {
    if i > 0 {
      ReaderStaysLastRead(cfg, worlds, steps, i - 1);
      assert worlds[i] == Next(cfg, worlds[i - 1], steps[i - 1]);
    }
  }

  /** Over every run from the start: a check goes on exactly when some read lies within the window; else it forgets the change. */
  lemma ChecksNeedReaders(cfg: Config, worlds: seq<World>, steps: seq<Step>, i: nat)
    requires Steps(cfg, worlds, steps) && worlds[0] == START && i < |steps| && steps[i].TestReader?
    ensures worlds[i + 1].phase.Watched? <==> exists k :: 0 <= k < i && steps[k].Read? && steps[i].at - steps[k].at <= cfg.window
    ensures !worlds[i + 1].phase.Watched? ==> worlds[i + 1].phase.Idle? && worlds[i + 1].w.unbuilt.None? && worlds[i + 1].w.firstUnbuilt.None?
  {
    ReaderStaysLastRead(cfg, worlds, steps, i);
    assert worlds[i + 1] == Next(cfg, worlds[i], steps[i]);
  }

  /** Readers stay in the window, and no token read decides on a rebuild. */
  ghost predicate WatchedAndWaiting(cfg: Config, v: World, s: Step)
    requires Coherent(v.w) && Possible(v, s)
  {
    && !s.StartupRead? && !s.Start? && !s.Finish? && !Next(cfg, v, s).phase.Due?
    && (s.TestReader? ==> Watching(cfg, v.w, s.at))
  }

  /** A change is marked unbuilt and no rebuild is under way. */
  predicate Waiting(v: World) { !v.phase.Due? && !v.phase.Rebuilding? && v.w.firstUnbuilt.Some? }

  /** Once an unbuilt change is noticed, later writes do not move its deadline. */
  lemma {:induction false} WritesDoNotPostpone(cfg: Config, worlds: seq<World>, steps: seq<Step>, i: nat)
    requires Run(cfg, worlds, steps) && i < |worlds| && Waiting(worlds[0])
    requires forall j :: 0 <= j < i ==> WatchedAndWaiting(cfg, worlds[j], steps[j])
    ensures Waiting(worlds[i])
    ensures worlds[i].w.firstUnbuilt == worlds[0].w.firstUnbuilt && worlds[i].w.restingUntil == worlds[0].w.restingUntil
    decreases i
  {
    if i > 0 {
      WritesDoNotPostpone(cfg, worlds, steps, i - 1);
      RunKeepsInvariant(cfg, worlds, steps, i - 1);
      assert WatchedAndWaiting(cfg, worlds[i - 1], steps[i - 1]);
      WaitingGoesOn(cfg, worlds[i - 1], steps[i - 1]);
      assert worlds[i] == Next(cfg, worlds[i - 1], steps[i - 1]);
    }
  }

  lemma WaitingGoesOn(cfg: Config, v: World, s: Step)
    requires Invariant(cfg, v) && Possible(v, s) && Waiting(v) && WatchedAndWaiting(cfg, v, s)
    ensures var next := Next(cfg, v, s);
      Waiting(next) && next.w.firstUnbuilt == v.w.firstUnbuilt && next.w.restingUntil == v.w.restingUntil
  {
    hide Rests, Duration, BuiltFits;
  }

  /** A store that is left alone settles: its mark stays while nobody writes. */
  lemma {:induction false} QuietStoreSettles(cfg: Config, worlds: seq<World>, steps: seq<Step>, i: nat)
    requires Run(cfg, worlds, steps) && i < |worlds| && Waiting(worlds[0])
    requires worlds[0].w.unbuilt == Some(worlds[0].store)
    requires forall j :: 0 <= j < i ==> WatchedAndWaiting(cfg, worlds[j], steps[j]) && !steps[j].Write?
    ensures worlds[i].store == worlds[0].store && worlds[i].w.unbuilt == worlds[0].w.unbuilt
    ensures worlds[i].w.lastChange == worlds[0].w.lastChange
    decreases i
  {
    if i > 0 {
      QuietStoreSettles(cfg, worlds, steps, i - 1);
      WritesDoNotPostpone(cfg, worlds, steps, i - 1);
      RunKeepsInvariant(cfg, worlds, steps, i - 1);
      assert WatchedAndWaiting(cfg, worlds[i - 1], steps[i - 1]);
      assert worlds[i] == Next(cfg, worlds[i - 1], steps[i - 1]);
    }
  }

  /** Once a noticed token has settled and the rest is over, the next readable check of a store left alone decides. */
  lemma SettledCheckRebuilds(cfg: Config, worlds: seq<World>, steps: seq<Step>, i: nat)
    requires Run(cfg, worlds, steps) && i < |steps| && Waiting(worlds[0])
    requires worlds[0].w.unbuilt == Some(worlds[0].store) && worlds[0].w.lastChange.Some?
    requires forall j :: 0 <= j < i ==> WatchedAndWaiting(cfg, worlds[j], steps[j]) && !steps[j].Write?
    requires steps[i].ReadToken? && steps[i].readable
    requires worlds[i].phase.now >= worlds[0].w.lastChange.value + cfg.settle
    requires worlds[i].phase.now >= worlds[0].w.restingUntil
    ensures worlds[i + 1].phase == Due(worlds[0].store)
  {
    QuietStoreSettles(cfg, worlds, steps, i);
    WritesDoNotPostpone(cfg, worlds, steps, i);
    RunKeepsInvariant(cfg, worlds, steps, i);
    assert worlds[i + 1] == Next(cfg, worlds[i], steps[i]);
  }

  /** The deadline binds: a readable token read for a clock reading past it and past the rest decides on a rebuild of the store as it is. */
  lemma OverdueCheckRebuilds(cfg: Config, worlds: seq<World>, steps: seq<Step>, i: nat)
    requires Run(cfg, worlds, steps) && i < |steps| && Waiting(worlds[0])
    requires forall j :: 0 <= j < i ==> WatchedAndWaiting(cfg, worlds[j], steps[j])
    requires steps[i].ReadToken? && steps[i].readable
    requires worlds[i].phase.now >= worlds[0].w.firstUnbuilt.value + cfg.maxWait
    requires worlds[i].phase.now >= worlds[0].w.restingUntil
    ensures worlds[i + 1].phase == Due(worlds[i].store)
  {
    WritesDoNotPostpone(cfg, worlds, steps, i);
    RunKeepsInvariant(cfg, worlds, steps, i);
    assert worlds[i + 1] == Next(cfg, worlds[i], steps[i]);
  }
}
