/** Replaying the append-only attention log of findings. */
module FindingDisposition {
  import opened Common

  datatype State = Open | Reviewed | Resolved
  datatype Action = MarkReviewed | Resolve | Reopen | Reinstate

  /** `disposition_transition`. */
  function Transition(prior: State, action: Action): Option<State> {
    match action
    case MarkReviewed => if prior.Open? then Some(Reviewed) else None
    case Resolve => if prior.Open? || prior.Reviewed? then Some(Resolved) else None
    case Reopen => if prior.Reviewed? || prior.Resolved? then Some(Open) else None
    case Reinstate => if prior.Open? then Some(Open) else None
  }

  /** The fields a target digest covers, and those an operation digest covers. */
  datatype TargetMaterial = TargetMaterial(eventId: string, eventDigest: string, origin: seq<string>)
  datatype OperationMaterial = OperationMaterial(
    eventId: string, eventDigest: string, finding: string, checkKey: string, action: Action, expectedRevision: int,
    note: Option<string>)

  /** Text syntax and digests of the source, as functions. */
  datatype Rules = Rules(
    isHex: string -> bool, bounded: (string, nat) -> bool, targetDigest: TargetMaterial -> string,
    operationDigest: OperationMaterial -> string)

  /**
   A disposition event after its metadata is read: an absent action or state is one outside the vocabulary,
   an absent revision one that is not an integer.
   */
  datatype Event = Event(
    trusted: bool, eventId: string, eventDigest: string, origin: seq<string>, finding: string, checkKey: string,
    action: Option<Action>, prior: Option<State>, next: Option<State>, expectedRevision: Option<int>, revision: Option<int>,
    note: Option<string>, key: string, operation: string, recordedAs: Option<string>, at: Option<real>)

  datatype Disposition = Disposition(
    state: State, revision: int, note: Option<string>, action: Option<Action>, recordedAs: Option<string>, updatedAt: Option<real>)

  const FRESH := Disposition(Open, 0, None, None, None, None)

  datatype Reason =
    | InvalidTarget | TargetDigestMismatch | InvalidTransitionFields | InvalidRevision | NoteMissing | InvalidNote
    | OperationDigestMismatch | KeyMissing | KeyConflict | DuplicateOperation | StaleTransition

  datatype Ledger = Ledger(
    states: map<string, Disposition>, accepted: nat, rejected: multiset<Reason>, seen: map<string, (string, string)>,
    invalid: set<string>)

  const EMPTY := Ledger(map[], 0, multiset{}, map[], {})

  // ---------- One event ----------

  function Reconstructed(rules: Rules, e: Event): Option<string> {
    if e.eventId == "" then None else Some(rules.targetDigest(TargetMaterial(e.eventId, e.eventDigest, e.origin)))
  }

  function Expected(rules: Rules, e: Event): string
    requires e.action.Some? && e.expectedRevision.Some?
  {
    rules.operationDigest(
      OperationMaterial(e.eventId, e.eventDigest, e.finding, e.checkKey, e.action.value, e.expectedRevision.value, e.note))
  }

  /** Checks that look at the event alone, in order; None when it passes. */
  function Malformation(rules: Rules, e: Event): Option<Reason> {
    if e.eventId == "" || !rules.isHex(e.eventDigest) || !rules.isHex(e.finding) || !rules.isHex(e.checkKey)
    then Some(InvalidTarget)
    else if Reconstructed(rules, e) != Some(e.finding) then Some(TargetDigestMismatch)
    else if e.action.None? || e.prior.None? || e.next.None? then Some(InvalidTransitionFields)
    else if e.expectedRevision.None? || e.expectedRevision.value < 0 || e.revision != Some(e.expectedRevision.value + 1)
    then Some(InvalidRevision)
    else if e.action.value.Resolve? && e.note.None? then Some(NoteMissing)
    else if e.note.Some? && !(e.note.value != "" && rules.bounded(e.note.value, 1200)) then Some(InvalidNote)
    else if !rules.isHex(e.operation) || e.operation != Expected(rules, e) then Some(OperationDigestMismatch)
    else if e.key == "" || !rules.bounded(e.key, 240) then Some(KeyMissing)
    else None
  }

  /** The targets a malformed event casts doubt on. */
  function Doubted(rules: Rules, e: Event, reason: Reason): set<string> {
    var own := if reason.InvalidTarget? && !rules.isHex(e.finding) then {} else {e.finding};
    var rebuilt := if (reason.InvalidTarget? || reason.TargetDigestMismatch?) && Reconstructed(rules, e).Some?
                   then {Reconstructed(rules, e).value} else {};
    own + rebuilt
  }

  function StateOf(l: Ledger, finding: string): Disposition { if finding in l.states then l.states[finding] else FRESH }

  predicate FitsState(l: Ledger, e: Event) {
    var current := StateOf(l, e.finding);
    && e.action.Some? && e.expectedRevision == Some(current.revision) && e.prior == Some(current.state)
    && e.next.Some? && Transition(current.state, e.action.value) == e.next
  }

  function Reject(l: Ledger, reason: Reason, doubted: set<string>): Ledger {
    l.(rejected := l.rejected + multiset{reason}, invalid := l.invalid + doubted)
  }

  predicate Accepts(rules: Rules, l: Ledger, e: Event) {
    e.trusted && Malformation(rules, e).None? && e.key !in l.seen && FitsState(l, e)
  }

  /** One event of `reduce_finding_dispositions`. */
  function Step(rules: Rules, l: Ledger, e: Event): Ledger {
    if !e.trusted then l
    else if Malformation(rules, e).Some? then
      Reject(l, Malformation(rules, e).value, Doubted(rules, e, Malformation(rules, e).value))
    else if e.key in l.seen then
      if l.seen[e.key] == (e.operation, e.finding) then Reject(l, DuplicateOperation, {})
      else Reject(l, KeyConflict, {e.finding, l.seen[e.key].1})
    else if !FitsState(l, e) then Reject(l, StaleTransition, {e.finding})
    else Accept(l, e, Disposition(e.next.value, e.revision.value, e.note, e.action, e.recordedAs, e.at))
  }

  function Accept(l: Ledger, e: Event, d: Disposition): Ledger {
    Ledger(l.states[e.finding := d], l.accepted + 1, l.rejected, l.seen[e.key := (e.operation, e.finding)], l.invalid)
  }

  function Reduce(rules: Rules, events: seq<Event>): Ledger
    decreases |events|
  {
    if events == [] then EMPTY else Step(rules, Reduce(rules, events[..|events| - 1]), events[|events| - 1])
  }

  /** The replay loop. */
  method ReduceFindingDispositions(rules: Rules, events: seq<Event>) returns (l: Ledger)
    ensures l == Reduce(rules, events)
  {
    var states: map<string, Disposition>, accepted: nat := map[], 0;
    var rejected: multiset<Reason> := multiset{};
    var seen: map<string, (string, string)> := map[];
    var invalid: set<string> := {};
    var i := 0;
    while i < |events|
      invariant i <= |events| && Ledger(states, accepted, rejected, seen, invalid) == Reduce(rules, events[..i])
    {
      var e := events[i];
      assert events[..i + 1][..i] == events[..i];
      i := i + 1;
      if !e.trusted {
        continue;
      }
      var malformation := Malformation(rules, e);
      if malformation.Some? {
        rejected := rejected + multiset{malformation.value};
        invalid := invalid + Doubted(rules, e, malformation.value);
        continue;
      }
      if e.key in seen {
        var (operation, target) := seen[e.key];
        if operation != e.operation || target != e.finding {
          rejected := rejected + multiset{KeyConflict};
          invalid := invalid + {e.finding, target};
        } else {
          rejected := rejected + multiset{DuplicateOperation};
        }
        continue;
      }
      var current := if e.finding in states then states[e.finding] else FRESH;
      if
        || e.expectedRevision != Some(current.revision) || e.prior != Some(current.state)
        || Transition(current.state, e.action.value).None? || Transition(current.state, e.action.value) != e.next
      {
        rejected := rejected + multiset{StaleTransition};
        invalid := invalid + {e.finding};
        continue;
      }
      seen := seen[e.key := (e.operation, e.finding)];
      states := states[e.finding := Disposition(e.next.value, e.revision.value, e.note, e.action, e.recordedAs, e.at)];
      accepted := accepted + 1;
    }
    assert events[..i] == events;
    l := Ledger(states, accepted, rejected, seen, invalid);
  }

  // ---------- Chains ----------

  /** The accepted events of one finding, in order. */
  function Chain(rules: Rules, events: seq<Event>, finding: string): seq<Event>
    decreases |events|
  {
    if events == [] then []
    else
      var init, e := events[..|events| - 1], events[|events| - 1];
      if Accepts(rules, Reduce(rules, init), e) && e.finding == finding then Chain(rules, init, finding) + [e]
      else Chain(rules, init, finding)
  }

  /** Folding transitions from open, whatever the events claim about their states. */
  function Folded(actions: seq<Event>): Option<State>
    decreases |actions|
  {
    if actions == [] then Some(Open)
    else
      var before, action := Folded(actions[..|actions| - 1]), actions[|actions| - 1].action;
      if before.None? || action.None? then None else Transition(before.value, action.value)
  }

  /** The revision counts the accepted events, the state is the fold of their actions, and resolved has a note. */
  lemma {:induction false} StatesAreFolds(rules: Rules, events: seq<Event>, finding: string)
    ensures var s, chain := StateOf(Reduce(rules, events), finding), Chain(rules, events, finding);
      && s.revision == |chain| && Folded(chain) == Some(s.state)
      && (s.state.Resolved? ==> s.note.Some? && s.note.value != "")
    decreases |events|
  {
    if events != [] {
      var init, e := events[..|events| - 1], events[|events| - 1];
      StatesAreFolds(rules, init, finding);
      var chain := Chain(rules, init, finding);
      assert (chain + [e])[..|chain + [e]| - 1] == chain;
      StepKeepsOthers(rules, Reduce(rules, init), e, finding);
      if Accepts(rules, Reduce(rules, init), e) && e.finding == finding {
        AcceptedMoves(rules, Reduce(rules, init), e);
      }
    }
  }

  lemma AcceptedMoves(rules: Rules, l: Ledger, e: Event)
    requires Accepts(rules, l, e)
    ensures var s, t := StateOf(l, e.finding), StateOf(Step(rules, l, e), e.finding);
      && t.revision == s.revision + 1 && Transition(s.state, e.action.value) == Some(t.state)
      && (t.state.Resolved? ==> t.note.Some? && t.note.value != "")
  {
  }

  lemma StepKeepsOthers(rules: Rules, l: Ledger, e: Event, finding: string)
    ensures !Accepts(rules, l, e) ==> Step(rules, l, e).states == l.states && Step(rules, l, e).seen == l.seen
    ensures e.finding != finding ==> StateOf(Step(rules, l, e), finding) == StateOf(l, finding)
  {
  }

  /** Who may do what: each state is reached by its own actions, and nothing else moves a finding. */
  lemma TransitionMeaning(prior: State, action: Action)
    ensures Transition(prior, action) == Some(Reviewed) <==> action == MarkReviewed && prior == Open
    ensures Transition(prior, action) == Some(Resolved) <==> action == Resolve && prior != Resolved
    ensures Transition(prior, action) == Some(Open) <==>
      (action == Reopen && prior != Open) || (action == Reinstate && prior == Open)
  {
  }

  /** The checks on an event alone, in the order in which they are reported. */
  function Rank(reason: Reason): nat {
    match reason
    case InvalidTarget => 0 case TargetDigestMismatch => 1 case InvalidTransitionFields => 2 case InvalidRevision => 3
    case NoteMissing => 4 case InvalidNote => 5 case OperationDigestMismatch => 6 case KeyMissing => 7
    case KeyConflict => 8 case DuplicateOperation => 8 case StaleTransition => 9
  }

  /** What is wrong with an event when a reason of its own is reported. */
  ghost predicate Breaks(rules: Rules, e: Event, reason: Reason) {
    match reason
    case InvalidTarget => e.eventId == "" || !rules.isHex(e.eventDigest) || !rules.isHex(e.finding) || !rules.isHex(e.checkKey)
    case TargetDigestMismatch => rules.targetDigest(TargetMaterial(e.eventId, e.eventDigest, e.origin)) != e.finding
    case InvalidTransitionFields => !(e.action.Some? && e.prior.Some? && e.next.Some?)
    case InvalidRevision => !(e.expectedRevision.Some? && e.expectedRevision.value >= 0 && e.revision == Some(e.expectedRevision.value + 1))
    case NoteMissing => e.action == Some(Resolve) && e.note.None?
    case InvalidNote => e.note.Some? && (e.note.value == "" || !rules.bounded(e.note.value, 1200))
    case OperationDigestMismatch =>
      e.action.Some? && e.expectedRevision.Some? && !(rules.isHex(e.operation) && rules.operationDigest(
        OperationMaterial(e.eventId, e.eventDigest, e.finding, e.checkKey, e.action.value, e.expectedRevision.value, e.note))
        == e.operation)
    case KeyMissing => e.key == "" || !rules.bounded(e.key, 240)
    case _ => false
  }

  /** An event is reported for the first check it breaks, and passes when it breaks none. */
  lemma MalformationMeaning(rules: Rules, e: Event)
    ensures forall r :: Malformation(rules, e) == Some(r) <==>
      Breaks(rules, e, r) && forall s :: Rank(s) < Rank(r) ==> !Breaks(rules, e, s)
    ensures Malformation(rules, e).None? <==> forall r :: !Breaks(rules, e, r)
  {
    assert forall r :: Breaks(rules, e, r) ==> Rank(r) <= 7;
    assert Breaks(rules, e, InvalidTarget) || Breaks(rules, e, TargetDigestMismatch) || Breaks(rules, e, InvalidTransitionFields)
      || Breaks(rules, e, InvalidRevision) || Breaks(rules, e, NoteMissing) || Breaks(rules, e, InvalidNote)
      || Breaks(rules, e, OperationDigestMismatch) || Breaks(rules, e, KeyMissing) || Malformation(rules, e).None?;
  }

  /** What a step does, reason by reason: which events it accepts, and which targets the others cast doubt on. */
  ghost predicate DoubtedBy(rules: Rules, l: Ledger, e: Event, target: string) {
    var current := StateOf(l, e.finding);
    e.trusted &&
    if (exists r :: Breaks(rules, e, r)) then
      || (target == e.finding && rules.isHex(e.finding))
      || (e.eventId != "" && target == rules.targetDigest(TargetMaterial(e.eventId, e.eventDigest, e.origin)))
    else if e.key in l.seen then
      l.seen[e.key] != (e.operation, e.finding) && (target == e.finding || target == l.seen[e.key].1)
    else target == e.finding && !Continues(current, e)
  }

  /** The event moves on from the state and revision the finding has, to where its action leads. */
  ghost predicate Continues(current: Disposition, e: Event) {
    && e.expectedRevision == Some(current.revision) && e.prior == Some(current.state) && e.action.Some?
    && ((e.next == Some(Reviewed) && e.action.value == MarkReviewed && current.state == Open)
        || (e.next == Some(Resolved) && e.action.value == Resolve && current.state != Resolved)
        || (e.next == Some(Open) && e.action.value == Reopen && current.state != Open)
        || (e.next == Some(Open) && e.action.value == Reinstate && current.state == Open))
  }

  /** The reason an event that is not accepted is counted under. */
  ghost predicate ReportedAs(rules: Rules, l: Ledger, e: Event, reason: Reason) {
    if exists r :: Breaks(rules, e, r) then Breaks(rules, e, reason) && forall s :: Rank(s) < Rank(reason) ==> !Breaks(rules, e, s)
    else if e.key !in l.seen then reason == StaleTransition
    else if l.seen[e.key] == (e.operation, e.finding) then reason == DuplicateOperation
    else reason == KeyConflict
  }

  lemma StepMeaning(rules: Rules, l: Ledger, e: Event)
    ensures Accepts(rules, l, e) <==>
      e.trusted && (forall r :: !Breaks(rules, e, r)) && e.key !in l.seen && Continues(StateOf(l, e.finding), e)
    ensures forall target :: target in Step(rules, l, e).invalid <==> target in l.invalid || DoubtedBy(rules, l, e, target)
    ensures e.trusted && !Accepts(rules, l, e) ==>
      exists r :: ReportedAs(rules, l, e, r) && Step(rules, l, e).rejected == l.rejected + multiset{r}
    ensures Accepts(rules, l, e) ==>
      && Step(rules, l, e).seen == l.seen[e.key := (e.operation, e.finding)]
      && StateOf(Step(rules, l, e), e.finding)
         == Disposition(e.next.value, e.revision.value, e.note, e.action, e.recordedAs, e.at)
  {
    MalformationMeaning(rules, e);
    if e.action.Some? {
      TransitionMeaning(StateOf(l, e.finding).state, e.action.value);
    }
    hide Malformation, Breaks, Transition;
    if e.trusted && !Accepts(rules, l, e) {
      var m := Malformation(rules, e);
      var r := if m.Some? then m.value
               else if e.key !in l.seen then StaleTransition
               else if l.seen[e.key] == (e.operation, e.finding) then DuplicateOperation else KeyConflict;
      assert ReportedAs(rules, l, e, r);
    }
  }

  /** Event i of the log casts doubt on the target where it stands. */
  ghost predicate DoubtedAt(rules: Rules, events: seq<Event>, i: nat, target: string) {
    i < |events| && DoubtedBy(rules, Reduce(rules, events[..i]), events[i], target)
  }

  lemma DoubtsOfPrefix(rules: Rules, events: seq<Event>, i: nat, target: string)
    requires events != [] && i < |events| - 1
    ensures DoubtedAt(rules, events[..|events| - 1], i, target) <==> DoubtedAt(rules, events, i, target)
  {
    hide DoubtedBy, Reduce;
    assert events[..|events| - 1][..i] == events[..i];
  }

  /** In every log: a target is in doubt exactly when some event of the log cast the doubt where it stands. */
  lemma {:induction false} InvalidIff(rules: Rules, events: seq<Event>, target: string)
    ensures target in Reduce(rules, events).invalid <==> exists i: nat :: DoubtedAt(rules, events, i, target)
    decreases |events|
  {
    hide DoubtedBy, Step;
    if events != [] {
      var n := |events| - 1;
      InvalidIff(rules, events[..n], target);
      StepMeaning(rules, Reduce(rules, events[..n]), events[n]);
      assert DoubtedAt(rules, events, n, target) <==> DoubtedBy(rules, Reduce(rules, events[..n]), events[n], target);
      forall i: nat ensures i < n ==> (DoubtedAt(rules, events[..n], i, target) <==> DoubtedAt(rules, events, i, target)) {
        if i < n { DoubtsOfPrefix(rules, events, i, target); }
      }
      hide DoubtedAt;
      assert forall i: nat :: DoubtedAt(rules, events[..n], i, target) ==> i < n by { DoubtsAreWithin(rules, events[..n], target); }
      assert forall i: nat :: DoubtedAt(rules, events, i, target) ==> i <= n by { DoubtsAreWithin(rules, events, target); }
    }
  }

  lemma DoubtsAreWithin(rules: Rules, events: seq<Event>, target: string)
    ensures forall i: nat :: DoubtedAt(rules, events, i, target) ==> i < |events|
  {
  }

  /** In every log: a finding shows what its last accepted event says. */
  lemma {:induction false} LastAcceptedShows(rules: Rules, events: seq<Event>, finding: string)
    ensures var s, chain := StateOf(Reduce(rules, events), finding), Chain(rules, events, finding);
      if chain == [] then s == FRESH
      else
        var e := chain[|chain| - 1];
        && e.finding == finding && e.next == Some(s.state) && e.revision == Some(s.revision) && s.note == e.note
        && s.action == e.action && s.recordedAs == e.recordedAs && s.updatedAt == e.at
    decreases |events|
  {
    if events != [] {
      var init, e := events[..|events| - 1], events[|events| - 1];
      LastAcceptedShows(rules, init, finding);
      StepKeepsOthers(rules, Reduce(rules, init), e, finding);
      StepMeaning(rules, Reduce(rules, init), e);
      hide Step, Malformation, Breaks, DoubtedBy;
    }
  }

  function TrustedCount(events: seq<Event>): nat
    decreases |events|
  {
    if events == [] then 0
    else TrustedCount(events[..|events| - 1]) + if events[|events| - 1].trusted then 1 else 0
  }

  /** Every trusted event is either accepted or rejected for one reason. */
  lemma {:induction false} TrustedEventsAreCounted(rules: Rules, events: seq<Event>)
    ensures var l := Reduce(rules, events); l.accepted + |l.rejected| == TrustedCount(events)
    decreases |events|
  {
    if events != [] {
      TrustedEventsAreCounted(rules, events[..|events| - 1]);
    }
  }

  // ---------- Repetition ----------

  lemma {:induction false} SeenStays(rules: Rules, events: seq<Event>, more: seq<Event>, key: string)
    requires key in Reduce(rules, events).seen
    ensures key in Reduce(rules, events + more).seen
    ensures Reduce(rules, events + more).seen[key] == Reduce(rules, events).seen[key]
    decreases |more|
  {
    if more == [] {
      assert events + more == events;
    } else {
      SeenStays(rules, events, more[..|more| - 1], key);
      assert (events + more)[..|events + more| - 1] == events + more[..|more| - 1];
    }
  }

  /** Repeating an accepted event, anywhere later, changes no state and doubts no target. */
  lemma RepetitionIsIdempotent(rules: Rules, events: seq<Event>, e: Event, more: seq<Event>)
    requires Accepts(rules, Reduce(rules, events), e)
    ensures var before := Reduce(rules, events + [e] + more);
      Reduce(rules, events + [e] + more + [e]) == before.(rejected := before.rejected + multiset{DuplicateOperation})
  {
    assert (events + [e])[..|events + [e]| - 1] == events;
    SeenStays(rules, events + [e], more, e.key);
    var longer := events + [e] + more;
    assert (longer + [e])[..|longer + [e]| - 1] == longer;
  }

  // ---------- Interleaving ----------

  /** Everything an event may read or write: findings and idempotency keys. */
  function Findings(rules: Rules, e: Event): set<string> {
    {e.finding} + if Reconstructed(rules, e).Some? then {Reconstructed(rules, e).value} else {}
  }

  ghost predicate Apart(rules: Rules, a: seq<Event>, b: seq<Event>) {
    forall e, f :: e in a && f in b ==> Findings(rules, e) !! Findings(rules, f) && e.key != f.key
  }

  /** A merge of two logs: `left` says, position by position, whose event it is. */
  function Merged(a: seq<Event>, b: seq<Event>, left: seq<bool>): Option<seq<Event>>
    decreases |left|
  {
    if left == [] then if a == [] && b == [] then Some([]) else None
    else if left[|left| - 1] then
      if a == [] then None
      else match Merged(a[..|a| - 1], b, left[..|left| - 1])
        case Some(m) => Some(m + [a[|a| - 1]])
        case None => None
    else
      if b == [] then None
      else match Merged(a, b[..|b| - 1], left[..|left| - 1])
        case Some(m) => Some(m + [b[|b| - 1]])
        case None => None
  }

  function Union(l: Ledger, m: Ledger): Ledger {
    Ledger(l.states + m.states, l.accepted + m.accepted, l.rejected + m.rejected, l.seen + m.seen, l.invalid + m.invalid)
  }

  /** A ledger whose findings and keys all come from the events of a log. */
  ghost predicate Within(rules: Rules, l: Ledger, log: seq<Event>) {
    && (forall t :: t in l.states ==> exists e :: e in log && t in Findings(rules, e))
    && (forall k :: k in l.seen ==> exists e :: e in log && e.key == k && l.seen[k].1 == e.finding)
  }

  lemma StepWithin(rules: Rules, l: Ledger, log: seq<Event>, e: Event)
    requires Within(rules, l, log)
    ensures Within(rules, Step(rules, l, e), log + [e])
  {
    hide FitsState, Transition, Malformation;
    assert e in log + [e] && e.finding in Findings(rules, e);
    assert forall x :: x in log ==> x in log + [e];
  }

  lemma {:induction false} ReduceWithin(rules: Rules, log: seq<Event>)
    ensures Within(rules, Reduce(rules, log), log)
    decreases |log|
  {
    if log != [] {
      var init, e := log[..|log| - 1], log[|log| - 1];
      ReduceWithin(rules, init);
      assert log == init + [e];
      StepWithin(rules, Reduce(rules, init), init, e);
    }
  }

  ghost predicate Disjoint(l: Ledger, m: Ledger) { l.states.Keys !! m.states.Keys && l.seen.Keys !! m.seen.Keys }

  lemma ApartLedgers(rules: Rules, a: seq<Event>, b: seq<Event>)
    requires Apart(rules, a, b)
    ensures Disjoint(Reduce(rules, a), Reduce(rules, b))
    ensures forall e :: e in a ==> e.finding !in Reduce(rules, b).states && e.key !in Reduce(rules, b).seen
    ensures forall e :: e in b ==> e.finding !in Reduce(rules, a).states && e.key !in Reduce(rules, a).seen
  {
    ReduceWithin(rules, a);
    ReduceWithin(rules, b);
    hide Reduce, Reconstructed;
  }

  lemma UpdateLeft<K, V>(m: map<K, V>, n: map<K, V>, k: K, v: V)
    ensures k !in n ==> (m + n)[k := v] == m[k := v] + n
    ensures (n + m)[k := v] == n + m[k := v]
  {
  }

  lemma RejectUnion(l: Ledger, m: Ledger, reason: Reason, doubted: set<string>)
    ensures Reject(Union(l, m), reason, doubted) == Union(Reject(l, reason, doubted), m)
  {
  }

  lemma AcceptUnion(l: Ledger, m: Ledger, e: Event, d: Disposition)
    requires e.finding !in m.states && e.key !in m.seen
    ensures Accept(Union(l, m), e, d) == Union(Accept(l, e, d), m)
  {
    UpdateLeft(l.states, m.states, e.finding, d);
    UpdateLeft(l.seen, m.seen, e.key, (e.operation, e.finding));
  }

  lemma LookupUnion(l: Ledger, m: Ledger, e: Event)
    requires e.finding !in m.states && e.key !in m.seen && Disjoint(l, m)
    ensures StateOf(Union(l, m), e.finding) == StateOf(l, e.finding)
    ensures e.key in Union(l, m).seen <==> e.key in l.seen
    ensures e.key in l.seen ==> Union(l, m).seen[e.key] == l.seen[e.key]
  {
  }

  /** An event acts the same in a larger ledger that shares nothing else with it. */
  lemma StepUnion(rules: Rules, l: Ledger, m: Ledger, e: Event)
    requires e.finding !in m.states && e.key !in m.seen && Disjoint(l, m)
    ensures Step(rules, Union(l, m), e) == Union(Step(rules, l, e), m)
  {
    hide Malformation, Doubted, Union, Reject, Accept, StateOf, Disjoint;
    LookupUnion(l, m, e);
    if e.trusted {
      if Malformation(rules, e).Some? {
        RejectUnion(l, m, Malformation(rules, e).value, Doubted(rules, e, Malformation(rules, e).value));
      } else if e.key in l.seen {
        RejectUnion(l, m, DuplicateOperation, {});
        RejectUnion(l, m, KeyConflict, {e.finding, l.seen[e.key].1});
      } else if FitsState(l, e) {
        WellFormed(rules, e);
        AcceptUnion(l, m, e, Disposition(e.next.value, e.revision.value, e.note, e.action, e.recordedAs, e.at));
      } else {
        RejectUnion(l, m, StaleTransition, {e.finding});
      }
    }
  }

  lemma WellFormed(rules: Rules, e: Event)
    requires Malformation(rules, e).None?
    ensures e.action.Some? && e.next.Some? && e.revision.Some? && e.expectedRevision.Some?
  {
  }

  lemma UnionCommutes(l: Ledger, m: Ledger)
    requires Disjoint(l, m)
    ensures Union(l, m) == Union(m, l)
  {
  }

  lemma StepStaysDisjoint(rules: Rules, l: Ledger, m: Ledger, e: Event)
    requires e.finding !in m.states && e.key !in m.seen && Disjoint(l, m)
    ensures Disjoint(Step(rules, l, e), m)
  {
    hide Malformation, Doubted;
  }

  lemma StepUnionRight(rules: Rules, l: Ledger, m: Ledger, e: Event)
    requires e.finding !in m.states && e.key !in m.seen && Disjoint(m, l)
    ensures Step(rules, Union(m, l), e) == Union(m, Step(rules, l, e))
  {
    UnionCommutes(m, l);
    StepUnion(rules, l, m, e);
    StepStaysDisjoint(rules, l, m, e);
    UnionCommutes(m, Step(rules, l, e));
    hide Step, Union;
  }

  lemma ApartShorter(rules: Rules, a: seq<Event>, b: seq<Event>)
    requires Apart(rules, a, b)
    ensures a != [] ==> Apart(rules, a[..|a| - 1], b)
    ensures b != [] ==> Apart(rules, a, b[..|b| - 1])
  {
  }

  /** Logs that share no finding and no key can be interleaved in any way: the result is their union. */
  lemma {:induction false} InterleavingIsUnion(rules: Rules, a: seq<Event>, b: seq<Event>, left: seq<bool>)
    requires Apart(rules, a, b) && Merged(a, b, left).Some?
    ensures Reduce(rules, Merged(a, b, left).value) == Union(Reduce(rules, a), Reduce(rules, b))
    decreases |left|
  {
    hide Step, Apart, Disjoint;
    if left == [] {
      assert Union(EMPTY, EMPTY) == EMPTY;
    } else {
      ApartShorter(rules, a, b);
      ApartLedgers(rules, a, b);
      var rest := left[..|left| - 1];
      if left[|left| - 1] {
        var init, e := a[..|a| - 1], a[|a| - 1];
        ApartLedgers(rules, init, b);
        InterleavingIsUnion(rules, init, b, rest);
        StepUnion(rules, Reduce(rules, init), Reduce(rules, b), e);
        ReduceSnoc(rules, Merged(init, b, rest).value, e);
      } else {
        var init, e := b[..|b| - 1], b[|b| - 1];
        ApartLedgers(rules, a, init);
        InterleavingIsUnion(rules, a, init, rest);
        StepUnionRight(rules, Reduce(rules, init), Reduce(rules, a), e);
        ReduceSnoc(rules, Merged(a, init, rest).value, e);
      }
    }
  }

  lemma ReduceSnoc(rules: Rules, events: seq<Event>, e: Event)
    ensures Reduce(rules, events + [e]) == Step(rules, Reduce(rules, events), e)
  {
    assert (events + [e])[..|events + [e]| - 1] == events;
  }
}
