/**
 Reconciling Codex evidence: carrier fragments of one logical call, duplicated, reordered and possibly
 cut short, donate at most one event id and at most one skip.
 */
module CodexEvidence {
  import opened Common
  import opened Ordering

  datatype Refusal = Refusal(tool: Option<string>, field: Option<string>, reason: string)

  predicate HexDigit(c: char) { '0' <= c <= '9' || 'a' <= c <= 'f' }

  /** `EVIDENCED_EVENT_ID_RE`. */
  predicate WellFormedEventId(id: string) {
    10 <= |id| <= 68 && id[..4] == "evt_" && forall i :: 4 <= i < |id| ==> HexDigit(id[i])
  }

  type EventId = id: string | WellFormedEventId(id) witness "evt_000000"

  /** A success carries a well-formed event id and only a failure may carry a refusal. */
  datatype Outcome = CreatedEvent(eventId: EventId) | Failed(refusal: Option<Refusal>) | Unknown | Malformed

  datatype Role = Descriptor | Output | Terminal
  datatype Verdict = Accepted | Rejected

  datatype Fragment = Fragment(
    callId: Option<string>, role: Role, verdict: Option<Verdict>, toolName: Option<string>, outcome: Option<Outcome>,
    countsAsSkip: bool, drift: bool)

  type Skip = Option<Refusal>

  // ---------- Refusals ----------

  /** `_bind_codex_refusal_to_tool`: the refusal as recorded, and whether two tool names collide. */
  function Bind(refusal: Skip, toolName: Option<string>): (Skip, bool) {
    if refusal.None? then (None, false)
    else if refusal.value.tool.Some? && toolName.Some? && refusal.value.tool != toolName then (None, true)
    else if refusal.value.tool.None? && toolName.Some? then (Some(refusal.value.(tool := toolName)), false)
    else (refusal, false)
  }

  function Part(part: Option<string>): string { if part.Some? then part.value else "" }

  function Parts(r: Skip): (string, string, string) {
    if r.None? then ("", "", "") else (Part(r.value.tool), Part(r.value.field), r.value.reason)
  }

  /** `_codex_refusal_sort_key`, compared as tuples: classified refusals first, then part by part. */
  predicate KeyLe(a: Skip, b: Skip) {
    var (a0, a1, a2) := Parts(a);
    var (b0, b1, b2) := Parts(b);
    if a.None? != b.None? then b.None?
    else if a0 != b0 then Le(a0, b0) else if a1 != b1 then Le(a1, b1) else Le(a2, b2)
  }

  predicate NonEmptyParts(r: Skip) {
    r.Some? ==> r.value.tool != Some("") && r.value.field != Some("") && r.value.reason != ""
  }

  lemma KeyLeTotal(a: Skip, b: Skip)
    ensures KeyLe(a, b) || KeyLe(b, a)
  {
    LeTotal(Parts(a).0, Parts(b).0);
    LeTotal(Parts(a).1, Parts(b).1);
    LeTotal(Parts(a).2, Parts(b).2);
  }

  lemma KeyLeTransitive(a: Skip, b: Skip, c: Skip)
    requires KeyLe(a, b) && KeyLe(b, c)
    ensures KeyLe(a, c)
  {
    var (a0, a1, a2) := Parts(a);
    var (b0, b1, b2) := Parts(b);
    var (c0, c1, c2) := Parts(c);
    if Le(a0, b0) && Le(b0, c0) { LeTransitive(a0, b0, c0); }
    if Le(a1, b1) && Le(b1, c1) { LeTransitive(a1, b1, c1); }
    if Le(a2, b2) && Le(b2, c2) { LeTransitive(a2, b2, c2); }
    if Le(a0, b0) && Le(b0, a0) { LeAntisymmetric(a0, b0); }
    if Le(a1, b1) && Le(b1, a1) { LeAntisymmetric(a1, b1); }
  }

  /** Without empty parts equal keys are equal refusals, so the tie-break picks one refusal. */
  lemma KeyLeAntisymmetric(a: Skip, b: Skip)
    requires KeyLe(a, b) && KeyLe(b, a) && NonEmptyParts(a) && NonEmptyParts(b)
    ensures a == b
  {
    var (a0, a1, a2) := Parts(a);
    var (b0, b1, b2) := Parts(b);
    if Le(a0, b0) && Le(b0, a0) { LeAntisymmetric(a0, b0); }
    if Le(a1, b1) && Le(b1, a1) { LeAntisymmetric(a1, b1); }
    if Le(a2, b2) && Le(b2, a2) { LeAntisymmetric(a2, b2); }
  }

  /** The i-th part of a classified refusal, an absent one read as empty. */
  function PartAt(r: Refusal, i: nat): string
    requires i < 3
  {
    if i == 2 then r.reason
    else
      var part := if i == 0 then r.tool else r.field;
      match part case Some(text) => text case None => ""
  }

  /** Up to part i the refusals read the same. */
  predicate SameBefore(a: Refusal, b: Refusal, i: nat)
    requires i < 3
  {
    forall j: nat :: j < i ==> PartAt(a, j) == PartAt(b, j)
  }

  /** The order of the report: classified before unclassified, and classified ones by tool, then field, then reason. */
  lemma KeyLeMeaning(a: Skip, b: Skip)
    ensures a.Some? && b.None? ==> KeyLe(a, b) && !KeyLe(b, a)
    ensures a.None? && b.None? ==> KeyLe(a, b)
    ensures a.Some? && b.Some? ==>
      (KeyLe(a, b) <==> forall i: nat :: i < 3 && SameBefore(a.value, b.value, i) ==> Le(PartAt(a.value, i), PartAt(b.value, i)))
  {
    LeReflexive("");
    if a.Some? && b.Some? {
      var x, y := a.value, b.value;
      LeReflexive(PartAt(x, 0));
      LeReflexive(PartAt(x, 1));
      LeReflexive(PartAt(x, 2));
      assert SameBefore(x, y, 0);
      assert SameBefore(x, y, 1) <==> PartAt(x, 0) == PartAt(y, 0);
      assert SameBefore(x, y, 2) <==> PartAt(x, 0) == PartAt(y, 0) && PartAt(x, 1) == PartAt(y, 1);
    }
  }

  /** A split refusal takes over the tool of its descriptor; it conflicts with a different one of its own. */
  lemma BindMeaning(refusal: Refusal, tool: Option<string>)
    ensures var (bound, conflict) := Bind(Some(refusal), tool);
      && (conflict <==> refusal.tool.Some? && tool.Some? && refusal.tool.value != tool.value)
      && (bound.None? <==> conflict)
      && (bound.Some? ==>
            && bound.value.field == refusal.field && bound.value.reason == refusal.reason
            && bound.value.tool == if refusal.tool.Some? then refusal.tool else tool)
    ensures Bind(None, tool) == (None, false)
  {
  }

  // ---------- What the fragments of one call say, as a set ----------

  predicate AcceptedAs(f: Fragment, role: Role) { f.role == role && f.verdict == Some(Accepted) }

  function Effective(f: Fragment): Outcome { if f.outcome.Some? then f.outcome.value else Malformed }

  function RefusalOf(o: Outcome): Skip { if o.Failed? then o.refusal else None }

  ghost predicate HasAcceptedDescriptor(g: set<Fragment>) { exists f :: f in g && AcceptedAs(f, Descriptor) }

  ghost function DescriptorNames(g: set<Fragment>): set<string> {
    set f | f in g && AcceptedAs(f, Descriptor) && f.toolName.Some? :: f.toolName.value
  }

  /** The tool name outputs are bound to: the least name of an accepted descriptor. */
  ghost predicate BindsTo(g: set<Fragment>, name: Option<string>) {
    if DescriptorNames(g) == {} then name.None? else name.Some? && IsLeast(DescriptorNames(g), name.value)
  }

  /** An outcome of the call, with the tool name its refusal is bound to. */
  ghost predicate HasOutcome(g: set<Fragment>, o: Outcome, name: Option<string>) {
    exists f :: f in g && Effective(f) == o &&
      ((f.role.Output? && HasAcceptedDescriptor(g) && BindsTo(g, name)) || (AcceptedAs(f, Terminal) && f.toolName == name))
  }

  ghost predicate Created(g: set<Fragment>, id: EventId) { exists name :: HasOutcome(g, CreatedEvent(id), name) }

  ghost predicate SkipsUnclassified(g: set<Fragment>) {
    || ((exists f :: f in g && f.role.Descriptor? && f.verdict == Some(Rejected)) && (exists f :: f in g && f.role.Output?))
    || (exists f :: f in g && f.role.Terminal? && f.verdict != Some(Accepted) && (f.countsAsSkip || f.verdict == Some(Rejected)))
  }

  ghost predicate SkipsAs(g: set<Fragment>, r: Skip) {
    || (r.None? && SkipsUnclassified(g))
    || exists o, name :: HasOutcome(g, o, name) && !o.CreatedEvent? && r == Bind(RefusalOf(o), name).0
  }

  ghost predicate ToolConflict(g: set<Fragment>) {
    exists o, name :: HasOutcome(g, o, name) && !o.CreatedEvent? && Bind(RefusalOf(o), name).1
  }

  ghost predicate TwoIds(g: set<Fragment>) { exists a, b :: Created(g, a) && Created(g, b) && a != b }

  predicate Names(f: Fragment, name: string) {
    (AcceptedAs(f, Descriptor) || AcceptedAs(f, Terminal)) && f.toolName == Some(name)
  }

  ghost predicate Named(g: set<Fragment>, name: string) { exists f :: f in g && Names(f, name) }

  ghost predicate TwoNames(g: set<Fragment>) { exists a, b :: Named(g, a) && Named(g, b) && a != b }

  ghost predicate RelevantDrift(g: set<Fragment>) {
    exists f :: f in g && f.drift && (!f.role.Output? || HasAcceptedDescriptor(g))
  }

  ghost predicate Conflict(g: set<Fragment>) { TwoIds(g) || TwoNames(g) || ToolConflict(g) || RelevantDrift(g) }

  /** What one call contributes: at most one donation, at most one skip. */
  datatype CallResult = CallResult(donated: Option<EventId>, skip: Option<Skip>, incomplete: bool)

  ghost predicate Reconciles(g: set<Fragment>, r: CallResult) {
    && r.incomplete == Conflict(g)
    && if Conflict(g) then r.donated.None? && r.skip == Some(None)
       else
         && (forall id :: r.donated == Some(id) <==> Created(g, id))
         && (match r.skip
             case None => forall x :: !SkipsAs(g, x)
             case Some(s) => SkipsAs(g, s) && forall x :: SkipsAs(g, x) ==> KeyLe(s, x))
  }

  // ---------- The laws ----------

  ghost predicate NoEmptyParts(g: set<Fragment>) {
    forall f :: f in g ==> f.toolName != Some("") && NonEmptyParts(RefusalOf(Effective(f)))
  }

  lemma SkipPartsAreNonEmpty(g: set<Fragment>, r: Skip)
    requires NoEmptyParts(g) && SkipsAs(g, r)
    ensures NonEmptyParts(r)
  {
    if !(r.None? && SkipsUnclassified(g)) {
      var o, name :| HasOutcome(g, o, name) && !o.CreatedEvent? && r == Bind(RefusalOf(o), name).0;
      assert NonEmptyParts(RefusalOf(o));
      assert name != Some("");
    }
  }

  ghost predicate LeastSkip(g: set<Fragment>, x: Skip) { SkipsAs(g, x) && forall y :: SkipsAs(g, y) ==> KeyLe(x, y) }

  /** No two different skips of the call share the least key. */
  ghost predicate TieFree(g: set<Fragment>) { forall x, y :: LeastSkip(g, x) && LeastSkip(g, y) ==> x == y }

  /** Without any assumption on the parts: the result is unique exactly when the call conflicts or its least skips do not tie. */
  lemma ResultIsUniqueIff(g: set<Fragment>)
    ensures (forall r, s :: Reconciles(g, r) && Reconciles(g, s) ==> r == s) <==> Conflict(g) || TieFree(g)
  {
    if !Conflict(g) {
      hide Conflict, SkipsAs, Created, KeyLe;
      if TieFree(g) {
        forall r, s | Reconciles(g, r) && Reconciles(g, s) ensures r == s {
          DonationIsUnique(g, r, s);
          if r.skip.Some? && s.skip.Some? {
            assert LeastSkip(g, r.skip.value) && LeastSkip(g, s.skip.value);
          }
        }
      } else {
        var x, y :| LeastSkip(g, x) && LeastSkip(g, y) && x != y;
        var donated := TheDonation(g);
        assert Reconciles(g, CallResult(donated, Some(x), false)) && Reconciles(g, CallResult(donated, Some(y), false));
      }
    }
  }

  /** One call has one result: it depends on the set of its fragments, not on their order or repetition. */
  lemma ResultIsUnique(g: set<Fragment>, r: CallResult, s: CallResult)
    requires NoEmptyParts(g) && Reconciles(g, r) && Reconciles(g, s)
    ensures r == s
  {
    hide Reconciles, TieFree, NoEmptyParts;
    PartsBreakTies(g);
    ResultIsUniqueIff(g);
  }

  lemma DonationIsUnique(g: set<Fragment>, r: CallResult, s: CallResult)
    requires !Conflict(g) && Reconciles(g, r) && Reconciles(g, s)
    ensures r.donated == s.donated
  {
    hide Conflict, SkipsAs, Created;
    if r.donated.Some? {
      assert Created(g, r.donated.value);
    } else if s.donated.Some? {
      assert Created(g, s.donated.value);
    }
  }

  lemma TheDonation(g: set<Fragment>) returns (donated: Option<EventId>)
    requires !Conflict(g)
    ensures forall id :: donated == Some(id) <==> Created(g, id)
  {
    assert !TwoIds(g);
    hide Conflict, Created;
    if id :| Created(g, id) {
      donated := Some(id);
    } else {
      donated := None;
    }
  }

  lemma PartsBreakTies(g: set<Fragment>)
    requires NoEmptyParts(g)
    ensures TieFree(g)
  {
    hide SkipsAs, KeyLe, NoEmptyParts;
    forall x, y | LeastSkip(g, x) && LeastSkip(g, y) ensures x == y {
      SkipPartsAreNonEmpty(g, x);
      SkipPartsAreNonEmpty(g, y);
      KeyLeAntisymmetric(x, y);
    }
  }

  /** Fail closed: with more fragments a donated id may be withdrawn but never replaced. */
  lemma DonationNeverSwitches(g: set<Fragment>, more: set<Fragment>, r: CallResult, s: CallResult)
    requires g <= more && Reconciles(g, r) && Reconciles(more, s) && r.donated.Some?
    ensures s.donated == r.donated || s.donated.None?
  {
    var id := r.donated.value;
    assert Created(g, id);
    var name :| HasOutcome(g, CreatedEvent(id), name);
    var f :| f in g && Effective(f) == CreatedEvent(id) &&
      ((f.role.Output? && HasAcceptedDescriptor(g) && BindsTo(g, name)) || (AcceptedAs(f, Terminal) && f.toolName == name));
    if f.role.Output? {
      var bound := SomeBinding(more);
      assert HasOutcome(more, CreatedEvent(id), bound);
    } else {
      assert HasOutcome(more, CreatedEvent(id), name);
    }
    assert Created(more, id);
    hide Conflict, HasOutcome;
  }

  lemma SomeBinding(g: set<Fragment>) returns (name: Option<string>)
    ensures BindsTo(g, name)
  {
    if DescriptorNames(g) == {} {
      name := None;
    } else {
      var least := LeastExists(DescriptorNames(g));
      name := Some(least);
    }
  }

  /** A fragment that speaks for the call, and the tool its refusals are about: an output by way of its descriptor. */
  ghost predicate SpeaksFor(g: set<Fragment>, f: Fragment, tool: Option<string>) {
    && f in g
    && match f.role
       case Descriptor => false
       case Terminal => f.verdict == Some(Accepted) && tool == f.toolName
       case Output =>
         && (exists d :: d in g && d.role == Descriptor && d.verdict == Some(Accepted))
         && (if exists d :: d in g && NamesTool(d) then
               exists d :: d in g && NamesTool(d) && tool == d.toolName
                 && forall d' :: d' in g && NamesTool(d') ==> Le(d.toolName.value, d'.toolName.value)
             else tool.None?)
  }

  predicate NamesTool(d: Fragment) { d.role == Descriptor && d.verdict == Some(Accepted) && d.toolName.Some? }

  lemma OutcomeMeaning(g: set<Fragment>, o: Outcome, tool: Option<string>)
    ensures HasOutcome(g, o, tool) <==>
      exists f :: SpeaksFor(g, f, tool) && (if f.outcome.Some? then f.outcome.value == o else o == Malformed)
  {
    assert forall d :: d in g && NamesTool(d) ==> d.toolName.value in DescriptorNames(g);
  }

  ghost predicate EventsDiffer(g: set<Fragment>, f: Fragment, s: Option<string>, h: Fragment, t: Option<string>) {
    && SpeaksFor(g, f, s) && SpeaksFor(g, h, t) && f.outcome.Some? && h.outcome.Some?
    && f.outcome.value.CreatedEvent? && h.outcome.value.CreatedEvent? && f.outcome.value != h.outcome.value
  }

  predicate Identifies(f: Fragment) { f.role != Output && f.verdict == Some(Accepted) && f.toolName.Some? }

  predicate NamesDiffer(g: set<Fragment>, f: Fragment, h: Fragment) {
    f in g && h in g && Identifies(f) && Identifies(h) && f.toolName != h.toolName
  }

  ghost predicate ToolsDiffer(g: set<Fragment>, f: Fragment, tool: Option<string>) {
    && SpeaksFor(g, f, tool) && tool.Some? && f.outcome.Some? && f.outcome.value.Failed?
    && f.outcome.value.refusal.Some? && f.outcome.value.refusal.value.tool.Some? && f.outcome.value.refusal.value.tool != tool
  }

  ghost predicate DriftCounts(g: set<Fragment>, f: Fragment) {
    f in g && f.drift && (f.role == Output ==> exists d :: d in g && d.role == Descriptor && d.verdict == Some(Accepted))
  }

  /**
   A call conflicts exactly when two different events are reported with authority, two accepted carriers name
   different tools, a refusal names another tool than the carrier it is read for, or a carrier that counts drifted.
   */
  lemma ConflictMeaning(g: set<Fragment>)
    ensures Conflict(g) <==>
      || (exists f, s, h, t :: EventsDiffer(g, f, s, h, t)) || (exists f, h :: NamesDiffer(g, f, h))
      || (exists f, t :: ToolsDiffer(g, f, t)) || (exists f :: DriftCounts(g, f))
  {
    TwoIdsMeaning(g);
    TwoNamesMeaning(g);
    ToolConflictMeaning(g);
    DriftMeaning(g);
    hide TwoIds, TwoNames, ToolConflict, EventsDiffer, NamesDiffer, ToolsDiffer, RelevantDrift, DriftCounts;
  }

  lemma DriftMeaning(g: set<Fragment>)
    ensures RelevantDrift(g) <==> exists f :: DriftCounts(g, f)
  {
    if f :| f in g && f.drift && (!f.role.Output? || HasAcceptedDescriptor(g)) {
      assert DriftCounts(g, f);
    }
    if f :| DriftCounts(g, f) {
      assert f.role.Output? ==> HasAcceptedDescriptor(g);
    }
  }

  lemma TwoIdsMeaning(g: set<Fragment>)
    ensures TwoIds(g) <==> exists f, s, h, t :: EventsDiffer(g, f, s, h, t)
  {
    forall o, tool {
      OutcomeMeaning(g, o, tool);
    }
    hide SpeaksFor, HasOutcome;
    if TwoIds(g) {
      var a, b :| Created(g, a) && Created(g, b) && a != b;
      var s :| HasOutcome(g, CreatedEvent(a), s);
      var t :| HasOutcome(g, CreatedEvent(b), t);
      var f :| SpeaksFor(g, f, s) && (if f.outcome.Some? then f.outcome.value == CreatedEvent(a) else CreatedEvent(a) == Malformed);
      var h :| SpeaksFor(g, h, t) && (if h.outcome.Some? then h.outcome.value == CreatedEvent(b) else CreatedEvent(b) == Malformed);
      assert EventsDiffer(g, f, s, h, t);
    }
    if f, s, h, t :| EventsDiffer(g, f, s, h, t) {
      assert HasOutcome(g, f.outcome.value, s) && HasOutcome(g, h.outcome.value, t);
      assert Created(g, f.outcome.value.eventId) && Created(g, h.outcome.value.eventId);
    }
  }

  lemma TwoNamesMeaning(g: set<Fragment>)
    ensures TwoNames(g) <==> exists f, h :: NamesDiffer(g, f, h)
  {
    if f, h :| NamesDiffer(g, f, h) {
      assert Named(g, f.toolName.value) && Named(g, h.toolName.value);
    }
    if TwoNames(g) {
      var a, b :| Named(g, a) && Named(g, b) && a != b;
      var f :| f in g && Names(f, a);
      var h :| h in g && Names(h, b);
      assert NamesDiffer(g, f, h);
    }
  }

  lemma ToolConflictMeaning(g: set<Fragment>)
    ensures ToolConflict(g) <==> exists f, t :: ToolsDiffer(g, f, t)
  {
    forall o, tool {
      OutcomeMeaning(g, o, tool);
    }
    hide SpeaksFor, HasOutcome;
    if f, t :| ToolsDiffer(g, f, t) {
      assert HasOutcome(g, f.outcome.value, t);
    }
    if ToolConflict(g) {
      var o, t :| HasOutcome(g, o, t) && !o.CreatedEvent? && Bind(RefusalOf(o), t).1;
      var f :| SpeaksFor(g, f, t) && (if f.outcome.Some? then f.outcome.value == o else o == Malformed);
      assert ToolsDiffer(g, f, t);
    }
  }

  ghost predicate SkipsFor(g: set<Fragment>, f: Fragment, tool: Option<string>, x: Skip) {
    && SpeaksFor(g, f, tool) && !(f.outcome.Some? && f.outcome.value.CreatedEvent?)
    && x == if f.outcome.Some? && f.outcome.value.Failed? then Bind(f.outcome.value.refusal, tool).0 else None
  }

  /**
   A call skips unclassified when a rejected descriptor has an output or a terminal carrier is not accepted, and
   once for every outcome that created nothing, under the refusal it reports, bound to its tool.
   */
  lemma SkipsMeaning(g: set<Fragment>, x: Skip)
    ensures SkipsAs(g, x) <==>
      || (x.None? && (exists d :: d in g && d.role == Descriptor && d.verdict == Some(Rejected)) && (exists f :: f in g && f.role == Output))
      || (x.None? && (exists f :: f in g && f.role == Terminal && (f.verdict == Some(Rejected) || (f.verdict.None? && f.countsAsSkip))))
      || (exists f, t :: SkipsFor(g, f, t, x))
  {
    UnclassifiedMeaning(g);
    hide SkipsUnclassified;
    forall o, tool {
      OutcomeMeaning(g, o, tool);
    }
    hide SpeaksFor, HasOutcome, Bind;
    if f, t :| SkipsFor(g, f, t, x) {
      assert HasOutcome(g, Effective(f), t);
      BindsNothing(t);
    }
    if o, name :| HasOutcome(g, o, name) && !o.CreatedEvent? && x == Bind(RefusalOf(o), name).0 {
      var f :| SpeaksFor(g, f, name) && (if f.outcome.Some? then f.outcome.value == o else o == Malformed);
      BindsNothing(name);
      assert SkipsFor(g, f, name, x);
    }
  }

  lemma UnclassifiedMeaning(g: set<Fragment>)
    ensures SkipsUnclassified(g) <==>
      || ((exists d :: d in g && d.role == Descriptor && d.verdict == Some(Rejected)) && (exists f :: f in g && f.role == Output))
      || (exists f :: f in g && f.role == Terminal && (f.verdict == Some(Rejected) || (f.verdict.None? && f.countsAsSkip)))
  {
    if f :| f in g && f.role.Terminal? && f.verdict != Some(Accepted) && (f.countsAsSkip || f.verdict == Some(Rejected)) {
      assert f.role == Terminal && (f.verdict.Some? ==> f.verdict.value.Accepted? || f.verdict.value.Rejected?);
    }
    if d, f :| d in g && d.role.Descriptor? && d.verdict == Some(Rejected) && f in g && f.role.Output? {
      assert d.role == Descriptor && f.role == Output;
    }
  }

  lemma BindsNothing(tool: Option<string>)
    ensures Bind(None, tool) == (None, false)
  {
  }

  /** Without a conflict a call whose skip is reported unclassified has no classified refusal at all. */
  lemma ClassifiedIsPreferred(g: set<Fragment>, r: CallResult, x: Skip)
    requires Reconciles(g, r) && !Conflict(g) && r.skip == Some(None) && SkipsAs(g, x)
    ensures x.None?
  {
    KeyLeMeaning(x, None);
    hide Conflict, SkipsAs, KeyLe;
  }

  /** A donation rests on an accepted carrier of the call, and all accepted carriers name one tool. */
  lemma DonationNeedsAuthority(g: set<Fragment>, r: CallResult)
    requires Reconciles(g, r) && r.donated.Some?
    ensures exists f :: f in g && (AcceptedAs(f, Descriptor) || AcceptedAs(f, Terminal))
    ensures forall a, b :: Named(g, a) && Named(g, b) ==> a == b
  {
    assert Created(g, r.donated.value);
    var name :| HasOutcome(g, CreatedEvent(r.donated.value), name);
  }

  // ---------- One call, step by step ----------

  type Bound = (Outcome, Option<string>)

  /** A list comprehension over fragments. */
  function Keep(fs: seq<Fragment>, p: Fragment -> bool): (r: seq<Fragment>)
    ensures forall f :: f in r <==> f in fs && p(f)
    decreases |fs|
  {
    if fs == [] then []
    else
      var rest := Keep(fs[..|fs| - 1], p);
      assert fs == fs[..|fs| - 1] + [fs[|fs| - 1]];
      if p(fs[|fs| - 1]) then rest + [fs[|fs| - 1]] else rest
  }

  datatype Tally = Tally(created: seq<EventId>, skips: seq<Skip>, conflict: bool)

  /** Outcomes sorted into created ids and refusals, in order. */
  function Tallied(outcomes: seq<Bound>): (t: Tally)
    ensures forall id :: id in t.created <==> exists name :: (CreatedEvent(id), name) in outcomes
    ensures forall r :: r in t.skips <==>
      exists o, name :: (o, name) in outcomes && !o.CreatedEvent? && r == Bind(RefusalOf(o), name).0
    ensures t.conflict <==> exists o, name :: (o, name) in outcomes && !o.CreatedEvent? && Bind(RefusalOf(o), name).1
    decreases |outcomes|
  {
    if outcomes == [] then Tally([], [], false)
    else
      var before, x := Tallied(outcomes[..|outcomes| - 1]), outcomes[|outcomes| - 1];
      assert outcomes == outcomes[..|outcomes| - 1] + [x];
      if x.0.CreatedEvent? then before.(created := before.created + [x.0.eventId])
      else
        var bound := Bind(RefusalOf(x.0), x.1);
        Tally(before.created, before.skips + [bound.0], before.conflict || bound.1)
  }

  /** Python's `min` with the sort key: the first of the least. */
  function FirstLeast(skips: seq<Skip>): (r: Skip)
    requires skips != []
    ensures r in skips && forall x :: x in skips ==> KeyLe(r, x)
    decreases |skips|
  {
    var last := skips[|skips| - 1];
    assert skips == skips[..|skips| - 1] + [last];
    KeyLeTotal(last, last);
    if |skips| == 1 then last
    else
      var best := FirstLeast(skips[..|skips| - 1]);
      KeyLeTotal(best, last);
      if KeyLe(best, last) then best
      else
        assert forall x :: x in skips[..|skips| - 1] ==> KeyLe(last, x) by {
          forall x | x in skips[..|skips| - 1] ensures KeyLe(last, x) { KeyLeTransitive(last, best, x); }
        }
        last
  }

  method SelectFirstLeast(skips: seq<Skip>) returns (r: Skip)
    requires skips != []
    ensures r == FirstLeast(skips)
  {
    r := skips[0];
    var i := 1;
    while i < |skips|
      invariant 1 <= i <= |skips| && r == FirstLeast(skips[..i])
    {
      assert skips[..i + 1][..i] == skips[..i];
      if !KeyLe(r, skips[i]) {
        r := skips[i];
      }
      i := i + 1;
    }
    assert skips[..i] == skips;
  }

  predicate LeastIn(x: Skip, skips: seq<Skip>) { x in skips && forall y :: y in skips ==> KeyLe(x, y) }

  predicate Rearranged(a: seq<Skip>, b: seq<Skip>) { b != [] && multiset(a) == multiset(b) }

  lemma {:induction false} LeastInFront(x: Skip, rest: seq<Skip>)
    requires LeastIn(x, [x] + rest)
    ensures FirstLeast([x] + rest) == x
    decreases |rest|
  {
    hide KeyLe;
    var all := [x] + rest;
    if rest == [] {
      assert all == [x];
    } else {
      var init := [x] + rest[..|rest| - 1];
      assert all[..|all| - 1] == init && all[|all| - 1] == rest[|rest| - 1];
      forall y | y in init ensures KeyLe(x, y) { assert y in all; }
      LeastInFront(x, rest[..|rest| - 1]);
      assert all[|all| - 1] in all;
    }
  }

  lemma MovedToFront(x: Skip, skips: seq<Skip>) returns (b: seq<Skip>)
    requires LeastIn(x, skips)
    ensures Rearranged(skips, b) && FirstLeast(b) == x
  {
    hide KeyLe;
    var i :| 0 <= i < |skips| && skips[i] == x;
    var rest := skips[..i] + skips[i + 1..];
    b := [x] + rest;
    assert skips == skips[..i] + [x] + skips[i + 1..];
    assert multiset(b) == multiset(skips);
    forall y | y in b ensures KeyLe(x, y) { assert y in multiset(b) && y in multiset(skips) && y in skips; }
    LeastInFront(x, rest);
  }

  /** The order of the skips is invisible exactly when no two different ones share the least key. */
  lemma OrderInvisibleIff(skips: seq<Skip>)
    requires skips != []
    ensures (forall b :: Rearranged(skips, b) ==> FirstLeast(b) == FirstLeast(skips))
            <==> forall x, y :: LeastIn(x, skips) && LeastIn(y, skips) ==> x == y
  {
    hide KeyLe;
    if forall x, y :: LeastIn(x, skips) && LeastIn(y, skips) ==> x == y {
      assert LeastIn(FirstLeast(skips), skips);
      forall b | Rearranged(skips, b) ensures FirstLeast(b) == FirstLeast(skips) {
        forall y ensures y in b <==> y in skips { assert y in multiset(b) <==> y in multiset(skips); }
        assert LeastIn(FirstLeast(b), skips);
      }
    } else {
      var x, y :| LeastIn(x, skips) && LeastIn(y, skips) && x != y;
      var b := MovedToFront(x, skips);
      var c := MovedToFront(y, skips);
      assert FirstLeast(b) != FirstLeast(c);
    }
  }

  /** The promise needs the frozen vocabulary: with an empty part, order would decide the diagnostic. */
  lemma EmptyPartsMakeOrderVisible()
    ensures var a, b := Some(Refusal(None, None, "other")), Some(Refusal(None, Some(""), "other"));
      FirstLeast([a, b]) != FirstLeast([b, a])
  {
    var a, b := Some(Refusal(None, None, "other")), Some(Refusal(None, Some(""), "other"));
    KeyLeTotal(a, a);
    assert Parts(a) == Parts(b);
    assert KeyLe(a, b) && KeyLe(b, a);
    assert [a, b][..1] == [a] && [b, a][..1] == [b];
    assert FirstLeast([a]) == a && FirstLeast([b]) == b;
  }

  ghost function ToSet(fs: seq<Fragment>): set<Fragment> { set f | f in fs }

  method LeastName(fs: seq<Fragment>) returns (name: Option<string>)
    ensures var names := set f | f in fs && f.toolName.Some? :: f.toolName.value;
      if names == {} then name.None? else name.Some? && IsLeast(names, name.value)
  {
    name := None;
    var i := 0;
    while i < |fs|
      invariant i <= |fs|
      invariant name.None? ==> forall j :: 0 <= j < i ==> fs[j].toolName.None?
      invariant name.Some? ==> exists j :: 0 <= j < i && fs[j].toolName == name
      invariant name.Some? ==> forall j :: 0 <= j < i && fs[j].toolName.Some? ==> Le(name.value, fs[j].toolName.value)
    {
      if fs[i].toolName.Some? {
        var candidate := fs[i].toolName.value;
        LeReflexive(candidate);
        if name.None? {
          name := Some(candidate);
        } else {
          LeTotal(name.value, candidate);
          if !Le(name.value, candidate) {
            forall j | 0 <= j < i && fs[j].toolName.Some? ensures Le(candidate, fs[j].toolName.value) {
              LeTransitive(candidate, name.value, fs[j].toolName.value);
            }
            name := Some(candidate);
          }
        }
      }
      i := i + 1;
    }
    ghost var names := set f | f in fs && f.toolName.Some? :: f.toolName.value;
    if name.None? {
      assert forall f :: f in fs ==> f.toolName.None?;
      assert names == {};
    } else {
      assert name.value in names;
    }
  }

  /** The outcomes gathered from outputs and accepted terminals are the outcomes of the call. */
  lemma OutcomesGathered(g: set<Fragment>, outputs: seq<Fragment>, terminals: seq<Fragment>, name: Option<string>, outcomes: seq<Bound>)
    requires BindsTo(g, name)
    requires forall f :: f in outputs <==> f in g && f.role.Output?
    requires forall f :: f in terminals <==> f in g && AcceptedAs(f, Terminal)
    requires forall x :: x in outcomes <==>
      || (HasAcceptedDescriptor(g) && exists f :: f in outputs && x == (Effective(f), name))
      || exists f :: f in terminals && x == (Effective(f), f.toolName)
    ensures forall o, n :: HasOutcome(g, o, n) <==> (o, n) in outcomes
  {
    forall n | BindsTo(g, n) ensures n == name {
      if n.Some? && name.Some? {
        LeAntisymmetric(n.value, name.value);
      }
    }
    hide BindsTo, HasAcceptedDescriptor;
  }

  method OutputOutcomes(outputs: seq<Fragment>, name: Option<string>) returns (outcomes: seq<Bound>)
    ensures forall x :: x in outcomes <==> exists f :: f in outputs && x == (Effective(f), name)
  {
    outcomes := [];
    var i := 0;
    while i < |outputs|
      invariant i <= |outputs|
      invariant forall x :: x in outcomes <==> exists f :: f in outputs[..i] && x == (Effective(f), name)
    {
      assert outputs[..i + 1] == outputs[..i] + [outputs[i]];
      outcomes := outcomes + [(Effective(outputs[i]), name)];
      i := i + 1;
    }
    assert outputs[..i] == outputs;
  }

  predicate SkippedTerminal(f: Fragment) { f.verdict != Some(Accepted) && (f.countsAsSkip || f.verdict == Some(Rejected)) }

  /** An accepted terminal contributes its outcome under its own tool name. */
  predicate Ends(f: Fragment, x: Bound) { f.verdict == Some(Accepted) && x == (Effective(f), f.toolName) }

  ghost predicate EndsAmong(terminals: seq<Fragment>, x: Bound) { exists f :: f in terminals && Ends(f, x) }

  lemma OneMoreTerminal(before: seq<Fragment>, f: Fragment, x: Bound)
    ensures EndsAmong(before + [f], x) <==> EndsAmong(before, x) || Ends(f, x)
  {
    if EndsAmong(before, x) {
      var g :| g in before && Ends(g, x);
      assert g in before + [f];
    }
    assert f in before + [f];
  }

  ghost predicate SkipsAmong(terminals: seq<Fragment>) { exists f :: f in terminals && SkippedTerminal(f) }

  lemma OneMoreSkipped(before: seq<Fragment>, f: Fragment)
    ensures SkipsAmong(before + [f]) <==> SkipsAmong(before) || SkippedTerminal(f)
  {
    if SkipsAmong(before) {
      var g :| g in before && SkippedTerminal(g);
      assert g in before + [f];
    }
    assert f in before + [f];
  }

  method TerminalOutcomes(terminals: seq<Fragment>) returns (outcomes: seq<Bound>, skips: seq<Skip>)
    ensures forall x :: x in outcomes <==> EndsAmong(terminals, x)
    ensures forall r :: r in skips <==> r.None? && SkipsAmong(terminals)
  {
    outcomes, skips := [], [];
    var i := 0;
    while i < |terminals|
      invariant i <= |terminals|
      invariant forall x :: x in outcomes <==> EndsAmong(terminals[..i], x)
      invariant forall r :: r in skips <==> r.None? && SkipsAmong(terminals[..i])
    {
      hide EndsAmong, SkipsAmong, Effective;
      var f := terminals[i];
      assert terminals[..i + 1] == terminals[..i] + [f];
      OneMoreSkipped(terminals[..i], f);
      forall x ensures EndsAmong(terminals[..i + 1], x) <==> EndsAmong(terminals[..i], x) || Ends(f, x) {
        OneMoreTerminal(terminals[..i], f, x);
      }
      if f.verdict == Some(Accepted) {
        var ended: Bound := (Effective(f), f.toolName);
        ghost var before := outcomes;
        outcomes := outcomes + [ended];
        assert forall x :: x in outcomes <==> x in before || x == ended;
        assert forall x :: x in outcomes <==> x in before || Ends(f, x);
      } else if f.countsAsSkip || f.verdict == Some(Rejected) {
        skips := skips + [None];
      }
      ghost var seen := terminals[..i + 1];
      forall x ensures x in outcomes <==> EndsAmong(seen, x) {
      }
      i := i + 1;
    }
    assert terminals[..i] == terminals;
  }

  method TallyOutcomes(outcomes: seq<Bound>) returns (t: Tally)
    ensures t == Tallied(outcomes)
  {
    var created: seq<EventId>, skips: seq<Skip>, conflict := [], [], false;
    var i := 0;
    while i < |outcomes|
      invariant i <= |outcomes| && Tally(created, skips, conflict) == Tallied(outcomes[..i])
    {
      assert outcomes[..i + 1][..i] == outcomes[..i];
      var (outcome, name) := outcomes[i];
      if outcome.CreatedEvent? {
        created := created + [outcome.eventId];
      } else {
        var (refusal, collides) := Bind(RefusalOf(outcome), name);
        conflict := conflict || collides;
        skips := skips + [refusal];
      }
      i := i + 1;
    }
    assert outcomes[..i] == outcomes;
    t := Tally(created, skips, conflict);
  }

  lemma TwoElements(s: set<string>)
    ensures |s| > 1 <==> exists a, b :: a in s && b in s && a != b
  {
    if s != {} {
      var a :| a in s;
      if s - {a} == {} {
        assert s == {a};
      } else {
        var b :| b in s - {a};
        assert |s| == |s - {a}| + 1 && |s - {a}| == |s - {a} - {b}| + 1;
      }
    }
  }

  /** The fragments of one call by role and verdict. */
  datatype Sorted = Sorted(
    descriptors: seq<Fragment>, outputs: seq<Fragment>, terminals: seq<Fragment>, acceptedDescriptors: seq<Fragment>,
    rejectedDescriptors: seq<Fragment>, acceptedTerminals: seq<Fragment>)

  ghost predicate SortedFrom(g: set<Fragment>, s: Sorted) {
    && (forall f :: f in s.descriptors <==> f in g && f.role.Descriptor?)
    && (forall f :: f in s.outputs <==> f in g && f.role.Output?)
    && (forall f :: f in s.terminals <==> f in g && f.role.Terminal?)
    && (forall f :: f in s.acceptedDescriptors <==> f in g && AcceptedAs(f, Descriptor))
    && (forall f :: f in s.rejectedDescriptors <==> f in g && f.role.Descriptor? && f.verdict == Some(Rejected))
    && (forall f :: f in s.acceptedTerminals <==> f in g && AcceptedAs(f, Terminal))
  }

  method SortFragments(group: seq<Fragment>) returns (s: Sorted)
    ensures SortedFrom(ToSet(group), s)
  {
    var descriptors := Keep(group, (f: Fragment) => f.role.Descriptor?);
    var outputs := Keep(group, (f: Fragment) => f.role.Output?);
    var terminals := Keep(group, (f: Fragment) => f.role.Terminal?);
    assert forall f :: f in descriptors <==> f in ToSet(group) && f.role.Descriptor?;
    assert forall f :: f in terminals <==> f in ToSet(group) && f.role.Terminal?;
    var accepted := Keep(descriptors, (f: Fragment) => f.verdict == Some(Accepted));
    var rejected := Keep(descriptors, (f: Fragment) => f.verdict == Some(Rejected));
    var ended := Keep(terminals, (f: Fragment) => f.verdict == Some(Accepted));
    s := Sorted(descriptors, outputs, terminals, accepted, rejected, ended);
    assert forall f :: f in s.acceptedDescriptors <==> f in ToSet(group) && AcceptedAs(f, Descriptor);
    assert forall f :: f in s.acceptedTerminals <==> f in ToSet(group) && AcceptedAs(f, Terminal);
  }

  lemma SortedFacts(g: set<Fragment>, s: Sorted)
    requires SortedFrom(g, s)
    ensures s.acceptedDescriptors != [] <==> HasAcceptedDescriptor(g)
    ensures (set f | f in s.acceptedDescriptors && f.toolName.Some? :: f.toolName.value) == DescriptorNames(g)
    ensures SkipsUnclassified(g) <==>
      (s.rejectedDescriptors != [] && s.outputs != []) || exists f :: f in s.terminals && SkippedTerminal(f)
  {
    assert s.acceptedDescriptors != [] ==> s.acceptedDescriptors[0] in g;
    assert s.rejectedDescriptors != [] ==> s.rejectedDescriptors[0] in g;
    assert s.outputs != [] ==> s.outputs[0] in g;
  }

  method GatherOutcomes(ghost g: set<Fragment>, s: Sorted) returns (outcomes: seq<Bound>, skips: seq<Skip>)
    requires SortedFrom(g, s)
    ensures forall o, n :: HasOutcome(g, o, n) <==> (o, n) in outcomes
    ensures forall x :: x in skips <==> x.None? && SkipsUnclassified(g)
  {
    SortedFacts(g, s);
    hide HasAcceptedDescriptor, SkipsUnclassified, HasOutcome, DescriptorNames;
    var name := LeastName(s.acceptedDescriptors);
    outcomes, skips := [], [];
    if s.acceptedDescriptors != [] {
      outcomes := OutputOutcomes(s.outputs, name);
    }
    if s.rejectedDescriptors != [] && s.outputs != [] {
      skips := skips + [None];
    }
    var ended, unclassified := TerminalOutcomes(s.terminals);
    skips := skips + unclassified;
    outcomes := outcomes + ended;
    OutcomesGathered(g, s.outputs, s.acceptedTerminals, name, outcomes);
  }

  method GatherFlags(ghost g: set<Fragment>, s: Sorted) returns (names: set<string>, drift: bool)
    requires SortedFrom(g, s)
    ensures forall n :: n in names <==> Named(g, n)
    ensures drift == RelevantDrift(g)
  {
    SortedFacts(g, s);
    hide HasAcceptedDescriptor;
    names := set f: Fragment | f in s.acceptedDescriptors + s.acceptedTerminals && f.toolName.Some? :: f.toolName.value;
    drift := (exists f: Fragment :: f in s.descriptors + s.terminals && f.drift)
      || (s.acceptedDescriptors != [] && exists f: Fragment :: f in s.outputs && f.drift);
  }

  /** The tally of the outcomes, read as facts about the call. */
  lemma TallyIsTheCall(g: set<Fragment>, outcomes: seq<Bound>, unclassified: seq<Skip>, t: Tally)
    requires forall o, n :: HasOutcome(g, o, n) <==> (o, n) in outcomes
    requires forall x :: x in unclassified <==> x.None? && SkipsUnclassified(g)
    requires t == Tallied(outcomes)
    ensures forall id :: id in t.created <==> Created(g, id)
    ensures forall r :: r in unclassified + t.skips <==> SkipsAs(g, r)
    ensures t.conflict <==> ToolConflict(g)
  {
    hide HasOutcome, SkipsUnclassified;
    forall id ensures id in t.created <==> Created(g, id) {
      if id in t.created {
        var n :| (CreatedEvent(id), n) in outcomes;
        assert HasOutcome(g, CreatedEvent(id), n);
      }
    }
    forall r ensures r in t.skips ==> SkipsAs(g, r) {
      if r in t.skips {
        var o, n :| (o, n) in outcomes && !o.CreatedEvent? && r == Bind(RefusalOf(o), n).0;
        assert HasOutcome(g, o, n);
      }
    }
    if t.conflict {
      var o, n :| (o, n) in outcomes && !o.CreatedEvent? && Bind(RefusalOf(o), n).1;
      assert HasOutcome(g, o, n);
    }
  }

  /** The outcome of the last step, as a predicate. */
  ghost predicate Concluded(created: seq<EventId>, skips: seq<Skip>, conflict: bool, r: CallResult) {
    && r.incomplete == conflict
    && (conflict ==> r.donated.None? && r.skip == Some(None))
    && (!conflict ==> r.donated == if created == [] then None else Some(created[0]))
    && (!conflict ==> r.skip == if skips == [] then None else Some(FirstLeast(skips)))
  }

  lemma ConclusionReconciles(g: set<Fragment>, created: seq<EventId>, skips: seq<Skip>, r: CallResult)
    requires Concluded(created, skips, Conflict(g), r)
    requires forall id :: id in created <==> Created(g, id)
    requires forall x :: x in skips <==> SkipsAs(g, x)
    ensures Reconciles(g, r)
  {
    if !Conflict(g) {
      assert !TwoIds(g);
      hide Conflict, Created, SkipsAs, KeyLe;
      if created != [] { assert created[0] in created; }
      if skips != [] { assert skips[0] in skips; }
    }
  }

  /** The reduction of one call's fragments. */
  method ReconcileCall(group: seq<Fragment>) returns (r: CallResult)
    ensures Reconciles(ToSet(group), r)
  {
    hide SortedFrom, Created, SkipsAs, SkipsUnclassified, ToolConflict, Named, RelevantDrift, HasOutcome, Tallied, Reconciles, Concluded,
      FirstLeast, KeyLe, Bind;
    ghost var g := ToSet(group);
    var sorted := SortFragments(group);
    var outcomes, skips := GatherOutcomes(g, sorted);
    var names, drift := GatherFlags(g, sorted);
    var t := TallyOutcomes(outcomes);
    TallyIsTheCall(g, outcomes, skips, t);
    skips := skips + t.skips;
    var ids := set id | id in t.created;
    TwoElements(ids);
    TwoElements(names);
    assert forall id :: id in ids <==> Created(g, id);
    assert |ids| > 1 <==> TwoIds(g);
    assert |names| > 1 <==> TwoNames(g);
    var conflict := |ids| > 1 || |names| > 1 || t.conflict || drift;
    assert conflict == Conflict(g);
    r := Conclude(t.created, skips, conflict);
    ConclusionReconciles(g, t.created, skips, r);
  }

  /** The last step: a conflict withdraws the donation and leaves one unclassified skip. */
  method Conclude(created: seq<EventId>, skips: seq<Skip>, conflict: bool) returns (r: CallResult)
    ensures Concluded(created, skips, conflict, r)
  {
    var kept, left := created, skips;
    if conflict {
      kept, left := [], [None];
    }
    r := CallResult(if kept == [] then None else Some(kept[0]), None, conflict);
    if left != [] {
      var selected := SelectFirstLeast(left);
      r := r.(skip := Some(selected));
    }
  }

  // ---------- All calls ----------

  /** The evidence counters a scan feeds; skips are kept as they are handed over. */
  class EvidenceAccumulator {
    const cap: nat
    var eventIds: seq<string>
    var seen: set<string>
    var skips: multiset<Skip>

    constructor (cap: nat)
      ensures this.cap == cap && eventIds == [] && seen == {} && skips == multiset{}
    {
      this.cap := cap;
      eventIds, seen, skips := [], {}, multiset{};
    }

    method AddEventId(id: string)
      modifies this
      ensures WellFormedEventId(id) ==> seen == old(seen) + {id} && skips == old(skips)
      ensures WellFormedEventId(id) ==> eventIds == Listed(cap, old(seen), old(eventIds), id)
      ensures !WellFormedEventId(id) ==> seen == old(seen) && eventIds == old(eventIds) && skips == old(skips) + multiset{None}
    {
      if !WellFormedEventId(id) {
        RecordClassifiedSkip(None);
        return;
      }
      if id in seen {
        return;
      }
      seen := seen + {id};
      if |eventIds| < cap {
        eventIds := eventIds + [id];
      }
    }

    method RecordClassifiedSkip(refusal: Skip)
      modifies this
      ensures skips == old(skips) + multiset{refusal} && seen == old(seen) && eventIds == old(eventIds)
    {
      skips := skips + multiset{refusal};
    }
  }

  /** The listed ids after one more donation: new ones are appended while the cap allows. */
  function Listed(cap: nat, seen: set<string>, ids: seq<string>, id: string): seq<string> {
    if id in seen || |ids| >= cap then ids else ids + [id]
  }

  /** The listed ids after a series of donations. */
  function ListedAll(cap: nat, seen: set<string>, ids: seq<string>, donated: seq<string>): seq<string>
    decreases |donated|
  {
    if donated == [] then ids
    else
      var init, last := donated[..|donated| - 1], donated[|donated| - 1];
      Listed(cap, seen + (set d | d in init), ListedAll(cap, seen, ids, init), last)
  }

  /** The calls of a list of fragments, in the order of their first fragment. */
  function CallOrder(fragments: seq<Fragment>): seq<string>
    decreases |fragments|
  {
    if fragments == [] then []
    else
      var before, f := CallOrder(fragments[..|fragments| - 1]), fragments[|fragments| - 1];
      if f.callId.Some? && f.callId.value !in before then before + [f.callId.value] else before
  }

  /** What the calls donate, in order. */
  function Donations(order: seq<string>, results: map<string, CallResult>): seq<string>
    decreases |order|
  {
    if order == [] then []
    else
      var before, id := Donations(order[..|order| - 1], results), order[|order| - 1];
      if id in results && results[id].donated.Some? then before + [results[id].donated.value] else before
  }

  ghost function OfCall(fragments: seq<Fragment>, id: string): set<Fragment> {
    set f | f in fragments && f.callId == Some(id)
  }

  ghost function CallIds(fragments: seq<Fragment>): set<string> {
    set f | f in fragments && f.callId.Some? :: f.callId.value
  }

  /** One result for every call that has an identified fragment. */
  ghost predicate Reconciled(fragments: seq<Fragment>, results: map<string, CallResult>) {
    results.Keys == CallIds(fragments) && forall id :: id in results ==> Reconciles(OfCall(fragments, id), results[id])
  }

  /** Skips of fragments that belong to no identified call. */
  function LooseSkips(fragments: seq<Fragment>): multiset<Skip>
    decreases |fragments|
  {
    if fragments == [] then multiset{}
    else
      var f := fragments[|fragments| - 1];
      LooseSkips(fragments[..|fragments| - 1])
      + if f.callId.None? && f.countsAsSkip then multiset{LooseRefusal(f)} else multiset{}
  }

  function LooseRefusal(f: Fragment): Skip { if f.outcome.Some? then RefusalOf(f.outcome.value) else None }

  ghost function Donated(results: map<string, CallResult>): set<string> {
    set id | id in results && results[id].donated.Some? :: results[id].donated.value
  }

  function SkippedCalls(results: map<string, CallResult>, r: Skip): set<string> {
    set id | id in results && results[id].skip == Some(r)
  }

  /** Permuting or repeating identified fragments changes no donation, no skip and no conflict. */
  lemma OrderAndRepetitionAreIrrelevant(
    a: seq<Fragment>, b: seq<Fragment>, ra: map<string, CallResult>, rb: map<string, CallResult>)
    requires Reconciled(a, ra) && Reconciled(b, rb)
    requires forall f: Fragment :: f.callId.Some? ==> (f in a <==> f in b)
    requires NoEmptyParts(set f | f in a)
    ensures ra == rb
  {
    hide Reconciles;
    assert CallIds(a) == CallIds(b);
    forall id | id in ra ensures ra[id] == rb[id] {
      assert OfCall(a, id) == OfCall(b, id);
      assert NoEmptyParts(OfCall(a, id));
      ResultIsUnique(OfCall(a, id), ra[id], rb[id]);
    }
  }

  // ---------- The whole scan ----------

  /** What a scan leaves behind: ids seen, skips counted, and whether something was drifting or in conflict. */
  ghost predicate Scanned(
    fragments: seq<Fragment>, results: map<string, CallResult>, seen0: set<string>, skips0: multiset<Skip>,
    seen: set<string>, skips: multiset<Skip>, incomplete: bool)
  {
    && Reconciled(fragments, results) && Fed(seen0, skips0 + LooseSkips(fragments), seen, skips, results)
    && (incomplete <==> DriftAmong(fragments) || AnyConflict(results))
  }

  ghost predicate DriftAmong(fragments: seq<Fragment>) { exists f :: f in fragments && DriftsUpFront(f) }

  /** The fragments that belong to no identified call. */
  function Loose(fragments: seq<Fragment>): seq<Fragment> { Keep(fragments, (f: Fragment) => f.callId.None?) }

  /** Identified fragments agree as sets, loose ones as multisets. */
  ghost predicate SameFragments(a: seq<Fragment>, b: seq<Fragment>) {
    && (forall f: Fragment :: f.callId.Some? ==> (f in a <==> f in b))
    && multiset(Loose(a)) == multiset(Loose(b))
  }

  lemma {:induction false} LooseSkipsOfLoose(fragments: seq<Fragment>)
    ensures LooseSkips(Loose(fragments)) == LooseSkips(fragments)
    decreases |fragments|
  {
    if fragments != [] {
      var init, f := fragments[..|fragments| - 1], fragments[|fragments| - 1];
      LooseSkipsOfLoose(init);
      if f.callId.None? {
        LooseSkipsGrow(Loose(init), f);
      }
    }
  }

  lemma {:induction false} LooseSkipsAppend(a: seq<Fragment>, b: seq<Fragment>)
    ensures LooseSkips(a + b) == LooseSkips(a) + LooseSkips(b)
    decreases |b|
  {
    hide LooseSkips, LooseRefusal;
    if b == [] {
      assert a + b == a;
      NothingGrouped();
    } else {
      var init, last := b[..|b| - 1], b[|b| - 1];
      LooseSkipsAppend(a, init);
      assert b == init + [last] && a + b == (a + init) + [last];
      LooseSkipsGrow(a + init, last);
      LooseSkipsGrow(init, last);
    }
  }

  lemma Removed(b: seq<Fragment>, x: Fragment) returns (rest: seq<Fragment>)
    requires x in b
    ensures multiset(rest) == multiset(b) - multiset{x} && LooseSkips(b) == LooseSkips(rest) + LooseSkips([x])
  {
    hide LooseSkips;
    var i :| 0 <= i < |b| && b[i] == x;
    var y, z := b[..i], b[i + 1..];
    rest := y + z;
    assert b == (y + [x]) + z;
    LooseSkipsAppend(y + [x], z);
    LooseSkipsAppend(y, [x]);
    LooseSkipsAppend(y, z);
  }

  lemma {:induction false} LooseSkipsPermute(a: seq<Fragment>, b: seq<Fragment>)
    requires multiset(a) == multiset(b)
    ensures LooseSkips(a) == LooseSkips(b)
    decreases |a|
  {
    hide LooseSkips;
    if a == [] {
      assert |b| == |multiset(b)| == |multiset(a)| == 0;
    } else {
      var init, last := a[..|a| - 1], a[|a| - 1];
      assert a == init + [last];
      assert last in multiset(a) && last in multiset(b);
      var rest := Removed(b, last);
      LooseSkipsPermute(init, rest);
      LooseSkipsAppend(init, [last]);
    }
  }

  lemma SameDrift(a: seq<Fragment>, b: seq<Fragment>)
    requires SameFragments(a, b) && DriftAmong(a)
    ensures DriftAmong(b)
  {
    hide DriftsUpFront;
    var f :| f in a && DriftsUpFront(f);
    if f.callId.None? {
      assert f in Loose(a) && f in multiset(Loose(a)) && f in multiset(Loose(b)) && f in Loose(b);
    }
    assert f in b;
  }

  lemma SameFed(
    seen0: set<string>, skips0: multiset<Skip>, results: map<string, CallResult>,
    seen: set<string>, skips: multiset<Skip>, seen': set<string>, skips': multiset<Skip>)
    requires Fed(seen0, skips0, seen, skips, results) && Fed(seen0, skips0, seen', skips', results)
    ensures seen == seen' && skips == skips'
  {
    hide Donated, SkippedCalls;
    assert forall r :: skips[r] == skips'[r];
  }

  /**
   Reconciliation depends on the identified fragments as a set and the loose ones as a multiset: however they
   are permuted, and however often an identified one repeats, the same ids are seen, the same skips counted
   and the scan is as incomplete.
   */
  lemma ScansIgnoreOrderAndRepetition(
    a: seq<Fragment>, b: seq<Fragment>, ra: map<string, CallResult>, rb: map<string, CallResult>, seen0: set<string>,
    skips0: multiset<Skip>, seen: set<string>, skips: multiset<Skip>, incomplete: bool, seen': set<string>,
    skips': multiset<Skip>, incomplete': bool)
    requires Scanned(a, ra, seen0, skips0, seen, skips, incomplete) && Scanned(b, rb, seen0, skips0, seen', skips', incomplete')
    requires SameFragments(a, b) && NoEmptyParts(set f | f in a)
    ensures ra == rb && seen == seen' && skips == skips' && incomplete == incomplete'
  {
    hide Reconciled, Fed, LooseSkips, DriftAmong, AnyConflict, NoEmptyParts;
    OrderAndRepetitionAreIrrelevant(a, b, ra, rb);
    LooseSkipsOfLoose(a);
    LooseSkipsOfLoose(b);
    LooseSkipsPermute(Loose(a), Loose(b));
    SameFed(seen0, skips0 + LooseSkips(a), ra, seen, skips, seen', skips');
    if DriftAmong(a) { SameDrift(a, b); }
    if DriftAmong(b) { SameDrift(b, a); }
  }

  /** `fragments_by_call_id`, with the ids in the order the dictionary keeps them. */
  ghost predicate Grouped(fragments: seq<Fragment>, order: seq<string>, groups: map<string, seq<Fragment>>) {
    && groups.Keys == CallIds(fragments)
    && (forall id :: id in order <==> id in groups)
    && (forall i, j :: 0 <= i < j < |order| ==> order[i] != order[j])
    && (forall id :: id in groups ==> ToSet(groups[id]) == OfCall(fragments, id))
  }

  lemma OneMoreOfCall(before: seq<Fragment>, f: Fragment, id: string)
    ensures OfCall(before + [f], id) == if f.callId == Some(id) then OfCall(before, id) + {f} else OfCall(before, id)
  {
  }

  lemma GroupOne(before: seq<Fragment>, f: Fragment, order: seq<string>, groups: map<string, seq<Fragment>>)
    requires Grouped(before, order, groups)
    ensures f.callId.None? ==> Grouped(before + [f], order, groups)
    ensures f.callId.Some? && f.callId.value in groups ==>
      Grouped(before + [f], order, groups[f.callId.value := groups[f.callId.value] + [f]])
    ensures f.callId.Some? && f.callId.value !in groups ==>
      Grouped(before + [f], order + [f.callId.value], groups[f.callId.value := [f]])
  {
    var after := before + [f];
    assert CallIds(after) == if f.callId.Some? then CallIds(before) + {f.callId.value} else CallIds(before);
    forall id ensures OfCall(after, id) == if f.callId == Some(id) then OfCall(before, id) + {f} else OfCall(before, id) {
      OneMoreOfCall(before, f, id);
    }
    if f.callId.Some? {
      var id := f.callId.value;
      if id in groups {
        assert ToSet(groups[id] + [f]) == ToSet(groups[id]) + {f};
      } else {
        assert ToSet([f]) == {f};
        assert OfCall(before, id) == {};
      }
    }
  }

  lemma LooseSkipsGrow(before: seq<Fragment>, f: Fragment)
    ensures LooseSkips(before + [f])
      == LooseSkips(before) + if f.callId.None? && f.countsAsSkip then multiset{LooseRefusal(f)} else multiset{}
  {
    assert (before + [f])[..|before|] == before;
  }

  /** Drift that counts whatever the other fragments of its call say. */
  ghost predicate DriftsUpFront(f: Fragment) { !f.role.Output? && f.drift }

  lemma DriftIsUpFront(f: Fragment)
    ensures DriftsUpFront(f) <==> !f.role.Output? && f.drift
  {
  }

  /** The first loop: skips of loose fragments are recorded at once, the others are grouped by call. */
  method GroupFragments(fragments: seq<Fragment>, evidence: EvidenceAccumulator)
    returns (order: seq<string>, groups: map<string, seq<Fragment>>, incomplete: bool)
    modifies evidence
    ensures Grouped(fragments, order, groups) && order == CallOrder(fragments)
    ensures evidence.seen == old(evidence.seen) && evidence.eventIds == old(evidence.eventIds)
    ensures evidence.skips == old(evidence.skips) + LooseSkips(fragments)
    ensures incomplete <==> DriftAmong(fragments)
  {
    hide Grouped, LooseSkips, DriftsUpFront, CallOrder;
    order, groups, incomplete := [], map[], false;
    NothingGrouped();
    var i := 0;
    while i < |fragments|
      invariant i <= |fragments| && Grouped(fragments[..i], order, groups) && order == CallOrder(fragments[..i])
      invariant evidence.seen == old(evidence.seen) && evidence.eventIds == old(evidence.eventIds)
      invariant evidence.skips == old(evidence.skips) + LooseSkips(fragments[..i])
      invariant incomplete <==> exists f :: f in fragments[..i] && DriftsUpFront(f)
    {
      var f := fragments[i];
      assert fragments[..i + 1] == fragments[..i] + [f];
      assert fragments[..i + 1][..i] == fragments[..i];
      GroupOne(fragments[..i], f, order, groups);
      DriftIsUpFront(f);
      LooseSkipsGrow(fragments[..i], f);
      OrderGrows(fragments[..i], f);
      GroupsHoldOrder(fragments[..i], order, groups);
      if !f.role.Output? {
        incomplete := incomplete || f.drift;
      }
      if f.callId.None? {
        if f.countsAsSkip {
          evidence.RecordClassifiedSkip(LooseRefusal(f));
        }
      } else {
        var id := f.callId.value;
        if id in groups {
          groups := groups[id := groups[id] + [f]];
        } else {
          order := order + [id];
          groups := groups[id := [f]];
        }
      }
      i := i + 1;
    }
    assert fragments[..i] == fragments;
  }

  lemma OrderGrows(before: seq<Fragment>, f: Fragment)
    ensures CallOrder(before + [f]) ==
            if f.callId.Some? && f.callId.value !in CallOrder(before) then CallOrder(before) + [f.callId.value] else CallOrder(before)
  {
    assert (before + [f])[..|before|] == before;
  }

  lemma GroupsHoldOrder(fragments: seq<Fragment>, order: seq<string>, groups: map<string, seq<Fragment>>)
    requires Grouped(fragments, order, groups)
    ensures forall id :: id in order <==> id in groups
  {
  }

  lemma NothingGrouped()
    ensures Grouped([], [], map[]) && LooseSkips([]) == multiset{} && CallOrder([]) == []
  {
  }

  /** The accumulator after the results of some calls, and whether any of them conflicted. */
  ghost predicate Fed(
    seen0: set<string>, skips0: multiset<Skip>, seen: set<string>, skips: multiset<Skip>, results: map<string, CallResult>)
  {
    seen == seen0 + Donated(results) && forall r :: skips[r] == skips0[r] + |SkippedCalls(results, r)|
  }

  lemma FeedOne(
    seen0: set<string>, skips0: multiset<Skip>, seen: set<string>, skips: multiset<Skip>, results: map<string, CallResult>,
    id: string, result: CallResult, seen': set<string>, skips': multiset<Skip>)
    requires Fed(seen0, skips0, seen, skips, results) && id !in results
    requires seen' == seen + if result.donated.Some? then {result.donated.value} else {}
    requires skips' == skips + if result.skip.Some? then multiset{result.skip.value} else multiset{}
    ensures Fed(seen0, skips0, seen', skips', results[id := result])
  {
    AddResult(results, id, result);
    hide Donated, SkippedCalls;
  }

  lemma ListOne(cap: nat, seen0: set<string>, ids0: seq<string>, order: seq<string>, results: map<string, CallResult>, i: nat,
    result: CallResult)
    requires i < |order| && order[i] !in results
    requires forall j :: 0 <= j < i ==> order[j] in results
    ensures var more := results[order[i] := result]; var before := Donations(order[..i], results);
      && Donations(order[..i + 1], more) == (if result.donated.Some? then before + [result.donated.value] else before)
      && (result.donated.Some? ==>
            ListedAll(cap, seen0, ids0, before + [result.donated.value])
            == Listed(cap, seen0 + (set d | d in before), ListedAll(cap, seen0, ids0, before), result.donated.value))
  {
    assert order[..i + 1][..i] == order[..i];
    DonationsIgnoreOthers(order[..i], results, order[i], result);
    var before := Donations(order[..i], results);
    if result.donated.Some? {
      assert (before + [result.donated.value])[..|before|] == before;
    }
  }

  lemma {:induction false} DonationsIgnoreOthers(order: seq<string>, results: map<string, CallResult>, id: string, result: CallResult)
    requires id !in order
    ensures Donations(order, results[id := result]) == Donations(order, results)
    decreases |order|
  {
    if order != [] {
      assert order[|order| - 1] in order;
      DonationsIgnoreOthers(order[..|order| - 1], results, id, result);
    }
  }

  lemma {:induction false} DonationsAreDonated(order: seq<string>, results: map<string, CallResult>)
    requires forall id :: id in order <==> id in results
    ensures (set d | d in Donations(order, results)) == Donated(results)
    decreases |order|
  {
    DonationsMeaning(order, results);
    forall d ensures d in Donations(order, results) <==> d in Donated(results) {
      if d in Donated(results) {
        var id :| id in results && results[id].donated.Some? && results[id].donated.value == d;
        assert id in order;
      }
    }
  }

  lemma {:induction false} DonationsMeaning(order: seq<string>, results: map<string, CallResult>)
    ensures forall d :: d in Donations(order, results) <==>
      exists id :: id in order && id in results && results[id].donated.Some? && results[id].donated.value == d
    decreases |order|
  {
    if order != [] {
      var init, last := order[..|order| - 1], order[|order| - 1];
      DonationsMeaning(init, results);
      assert order == init + [last];
    }
  }

  /** The first i calls have their results. */
  ghost predicate Settled(fragments: seq<Fragment>, order: seq<string>, i: nat, results: map<string, CallResult>) {
    && i <= |order| && (forall j :: 0 <= j < |order| ==> (order[j] in results <==> j < i))
    && (forall id :: id in results <==> id in order[..i])
    && forall id :: id in results ==> Reconciles(OfCall(fragments, id), results[id])
  }

  lemma SettleOne(
    fragments: seq<Fragment>, order: seq<string>, groups: map<string, seq<Fragment>>, i: nat, results: map<string, CallResult>,
    result: CallResult)
    requires Grouped(fragments, order, groups) && Settled(fragments, order, i, results) && i < |order|
    requires Reconciles(OfCall(fragments, order[i]), result)
    ensures Settled(fragments, order, i + 1, results[order[i] := result])
    ensures order[i] !in results
  {
    hide Reconciles, OfCall, ToSet;
    assert order[..i + 1] == order[..i] + [order[i]];
  }

  lemma GroupsAreOfCalls(fragments: seq<Fragment>, order: seq<string>, groups: map<string, seq<Fragment>>, id: string)
    requires Grouped(fragments, order, groups) && id in order
    ensures id in groups && ToSet(groups[id]) == OfCall(fragments, id)
  {
  }

  lemma AllSettled(fragments: seq<Fragment>, order: seq<string>, groups: map<string, seq<Fragment>>, results: map<string, CallResult>)
    requires Grouped(fragments, order, groups) && Settled(fragments, order, |order|, results)
    ensures Reconciled(fragments, results) && order[..|order|] == order
  {
    hide Reconciles, OfCall, ToSet, CallIds;
    assert order[..|order|] == order;
  }

  lemma NoneSettled(fragments: seq<Fragment>, order: seq<string>)
    ensures Settled(fragments, order, 0, map[]) && order[..0] == []
  {
  }

  /** What the accumulator holds after the first i calls. */
  ghost predicate Collected(
    order: seq<string>, i: nat, results: map<string, CallResult>, cap: nat, seen0: set<string>, skips0: multiset<Skip>, ids0: seq<string>,
    seen: set<string>, skips: multiset<Skip>, ids: seq<string>)
  {
    && i <= |order| && Fed(seen0, skips0, seen, skips, results)
    && ids == ListedAll(cap, seen0, ids0, Donations(order[..i], results))
  }

  lemma CollectOne(
    fragments: seq<Fragment>, order: seq<string>, i: nat, results: map<string, CallResult>, result: CallResult, cap: nat,
    seen0: set<string>, skips0: multiset<Skip>, ids0: seq<string>, seen: set<string>, skips: multiset<Skip>, ids: seq<string>)
    requires Settled(fragments, order, i, results) && i < |order|
    requires Collected(order, i, results, cap, seen0, skips0, ids0, seen, skips, ids)
    ensures Collected(
              order, i + 1, results[order[i] := result], cap, seen0, skips0, ids0,
              seen + (if result.donated.Some? then {result.donated.value} else {}),
              skips + (if result.skip.Some? then multiset{result.skip.value} else multiset{}),
              if result.donated.Some? then Listed(cap, seen, ids, result.donated.value) else ids)
  {
    hide Fed, Donations, ListedAll, Listed, Reconciles, OfCall;
    SeenSoFar(seen0, skips0, seen, skips, order[..i], results);
    ListOne(cap, seen0, ids0, order, results, i, result);
    FeedOne(seen0, skips0, seen, skips, results, order[i], result,
            seen + (if result.donated.Some? then {result.donated.value} else {}),
            skips + (if result.skip.Some? then multiset{result.skip.value} else multiset{}));
  }

  /** `reconcile_codex_evidence_fragments`. */
  method Reconcile(fragments: seq<Fragment>, evidence: EvidenceAccumulator)
    returns (incomplete: bool, ghost results: map<string, CallResult>)
    modifies evidence
    ensures Scanned(fragments, results, old(evidence.seen), old(evidence.skips), evidence.seen, evidence.skips, incomplete)
    ensures evidence.eventIds ==
      ListedAll(evidence.cap, old(evidence.seen), old(evidence.eventIds), Donations(CallOrder(fragments), results))
  {
    hide Reconciles, Reconciled, Fed, LooseSkips, OfCall, ToSet, AnyConflict, DriftAmong, CallOrder, Donations, ListedAll, Listed, Grouped,
      Settled;
    var order, groups;
    order, groups, incomplete := GroupFragments(fragments, evidence);
    results := map[];
    ghost var drift := incomplete;
    ghost var seen, skips, ids := evidence.seen, evidence.skips, evidence.eventIds;
    NothingDonated(seen, skips);
    NothingListed(evidence.cap, seen, ids);
    NoneSettled(fragments, order);
    var i := 0;
    while i < |order|
      invariant i <= |order| && Settled(fragments, order, i, results)
      invariant Collected(order, i, results, evidence.cap, seen, skips, ids, evidence.seen, evidence.skips, evidence.eventIds)
      invariant incomplete <==> drift || AnyConflict(results)
    {
      GroupsAreOfCalls(fragments, order, groups, order[i]);
      var result := ReconcileCall(groups[order[i]]);
      SettleOne(fragments, order, groups, i, results, result);
      AddConflict(results, order[i], result);
      CollectOne(fragments, order, i, results, result, evidence.cap, seen, skips, ids, evidence.seen, evidence.skips, evidence.eventIds);
      incomplete := incomplete || result.incomplete;
      RecordResult(result, evidence);
      results := results[order[i] := result];
      i := i + 1;
    }
    AllSettled(fragments, order, groups, results);
  }

  lemma NothingListed(cap: nat, seen: set<string>, ids: seq<string>)
    ensures Donations([], map[]) == [] && ListedAll(cap, seen, ids, []) == ids
  {
  }

  lemma SeenSoFar(
    seen0: set<string>, skips0: multiset<Skip>, seen: set<string>, skips: multiset<Skip>, order: seq<string>,
    results: map<string, CallResult>)
    requires Fed(seen0, skips0, seen, skips, results) && forall id :: id in order <==> id in results
    ensures seen == seen0 + set d | d in Donations(order, results)
  {
    DonationsAreDonated(order, results);
    hide SkippedCalls, Donated, Donations;
  }

  ghost predicate AnyConflict(results: map<string, CallResult>) { exists id :: id in results && results[id].incomplete }

  lemma NothingDonated(seen: set<string>, skips: multiset<Skip>)
    ensures !AnyConflict(map[]) && Fed(seen, skips, seen, skips, map[])
  {
    forall r ensures |SkippedCalls(map[], r)| == 0 { assert SkippedCalls(map[], r) == {}; }
  }

  method RecordResult(result: CallResult, evidence: EvidenceAccumulator)
    modifies evidence
    ensures evidence.seen == old(evidence.seen) + if result.donated.Some? then {result.donated.value} else {}
    ensures evidence.eventIds ==
      if result.donated.Some? then Listed(evidence.cap, old(evidence.seen), old(evidence.eventIds), result.donated.value)
      else old(evidence.eventIds)
    ensures evidence.skips == old(evidence.skips) + if result.skip.Some? then multiset{result.skip.value} else multiset{}
  {
    if result.donated.Some? {
      evidence.AddEventId(result.donated.value);
    }
    if result.skip.Some? {
      evidence.RecordClassifiedSkip(result.skip.value);
    }
  }

  lemma AddResult(results: map<string, CallResult>, id: string, result: CallResult)
    requires id !in results
    ensures Donated(results[id := result]) ==
            Donated(results) + if result.donated.Some? then {result.donated.value} else {}
    ensures forall r :: |SkippedCalls(results[id := result], r)| ==
                        |SkippedCalls(results, r)| + if result.skip == Some(r) then 1 else 0
  {
    AddDonation(results, id, result);
    hide Donated, SkippedCalls;
    forall r
      ensures |SkippedCalls(results[id := result], r)| == |SkippedCalls(results, r)| + if result.skip == Some(r) then 1 else 0
    {
      AddSkip(results, id, result, r);
    }
  }

  lemma AddConflict(results: map<string, CallResult>, id: string, result: CallResult)
    requires id !in results
    ensures AnyConflict(results[id := result]) <==> AnyConflict(results) || result.incomplete
  {
    var more := results[id := result];
    assert more[id].incomplete == result.incomplete;
    assert forall k :: k in results ==> k in more && more[k] == results[k];
  }

  lemma AddDonation(results: map<string, CallResult>, id: string, result: CallResult)
    requires id !in results
    ensures Donated(results[id := result]) ==
            Donated(results) + if result.donated.Some? then {result.donated.value} else {}
  {
    var more := results[id := result];
    forall x | x in Donated(results) ensures x in Donated(more) {
      var k :| k in results && results[k].donated == Some(x);
      assert k in more && more[k].donated == Some(x);
    }
    if result.donated.Some? {
      assert more[id].donated == result.donated;
    }
  }

  lemma AddSkip(results: map<string, CallResult>, id: string, result: CallResult, r: Skip)
    requires id !in results
    ensures |SkippedCalls(results[id := result], r)| == |SkippedCalls(results, r)| + if result.skip == Some(r) then 1 else 0
  {
    var more := results[id := result];
    assert SkippedCalls(more, r) == SkippedCalls(results, r) + if result.skip == Some(r) then {id} else {};
  }

  // ---------- What of the listed ids depends on order ----------

  ghost function Elements(s: seq<string>): set<string> { set x | x in s }

  /** The donated ids not seen before, each at its first donation. */
  function NewIds(seen: set<string>, donated: seq<string>): seq<string>
    decreases |donated|
  {
    if donated == [] then []
    else
      var before, d := NewIds(seen, donated[..|donated| - 1]), donated[|donated| - 1];
      if d in seen || d in before then before else before + [d]
  }

  function Room(cap: nat, ids: seq<string>): nat { if |ids| >= cap then 0 else cap - |ids| }

  function FirstOf(s: seq<string>, n: nat): seq<string> { if n <= |s| then s[..n] else s }

  ghost predicate NoRepeats(s: seq<string>) { forall i, j :: 0 <= i < j < |s| ==> s[i] != s[j] }

  lemma ElementsPlus(a: seq<string>, b: seq<string>)
    ensures Elements(a + b) == Elements(a) + Elements(b)
  {
  }

  lemma ElementsOfOne(d: string)
    ensures Elements([d]) == {d} && Elements([]) == {}
  {
  }

  lemma IsElement(s: seq<string>, d: string)
    ensures d in s <==> d in Elements(s)
  {
  }

  lemma {:induction false} NewIdsMeaning(seen: set<string>, donated: seq<string>)
    ensures NoRepeats(NewIds(seen, donated)) && Elements(NewIds(seen, donated)) == Elements(donated) - seen
    decreases |donated|
  {
    hide Elements;
    if donated == [] {
      ElementsOfOne("");
    } else {
      var init, d := donated[..|donated| - 1], donated[|donated| - 1];
      NewIdsMeaning(seen, init);
      assert donated == init + [d];
      ElementsPlus(init, [d]);
      ElementsPlus(NewIds(seen, init), [d]);
      ElementsOfOne(d);
      IsElement(NewIds(seen, init), d);
    }
  }

  /** The list ends with the new ids that found room. */
  lemma {:induction false} ListedMeaning(cap: nat, seen: set<string>, ids: seq<string>, donated: seq<string>)
    ensures ListedAll(cap, seen, ids, donated) == ids + FirstOf(NewIds(seen, donated), Room(cap, ids))
    decreases |donated|
  {
    if donated != [] {
      var init, d := donated[..|donated| - 1], donated[|donated| - 1];
      ListedMeaning(cap, seen, ids, init);
      NewIdsMeaning(seen, init);
      assert d !in seen ==> (d in Elements(init) <==> d in Elements(NewIds(seen, init)));
      OneMoreFits(NewIds(seen, init), d, cap, ids);
    }
  }

  lemma OneMoreFits(before: seq<string>, d: string, cap: nat, ids: seq<string>)
    ensures var listed := ids + FirstOf(before, Room(cap, ids));
      ids + FirstOf(before + [d], Room(cap, ids)) == if |listed| >= cap then listed else listed + [d]
  {
    var room := Room(cap, ids);
    if room > |before| {
      assert FirstOf(before + [d], room) == before + [d];
    } else {
      assert (before + [d])[..room] == before[..room];
    }
  }

  lemma {:induction false} NewIdsOfNew(seen: set<string>, a: seq<string>, b: seq<string>)
    requires NoRepeats(a) && Elements(a) !! seen && Elements(b) <= seen + Elements(a)
    ensures NewIds(seen, a + b) == a
    decreases |b|, |a|
  {
    if b != [] {
      var init, d := b[..|b| - 1], b[|b| - 1];
      assert b == init + [d] && (a + b)[..|a + b| - 1] == a + init;
      assert d in Elements(b);
      NewIdsOfNew(seen, a, init);
    } else if a != [] {
      var init, d := a[..|a| - 1], a[|a| - 1];
      assert a + b == a && a == init + [d] && init + [] == init;
      assert d in Elements(a);
      NewIdsOfNew(seen, init, []);
    }
  }

  lemma {:induction false} CountElements(s: seq<string>)
    requires NoRepeats(s)
    ensures |Elements(s)| == |s|
    decreases |s|
  {
    if s != [] {
      var init, last := s[..|s| - 1], s[|s| - 1];
      assert s == init + [last];
      CountElements(init);
      assert last !in init;
      assert Elements(s) == Elements(init) + {last};
    }
  }

  ghost predicate ListsAlike(cap: nat, seen: set<string>, ids: seq<string>, a: seq<string>, b: seq<string>) {
    Elements(ListedAll(cap, seen, ids, a)) == Elements(ListedAll(cap, seen, ids, b))
  }

  /** Nothing more is listed, or all that is new fits. */
  predicate Fits(cap: nat, seen: set<string>, ids: seq<string>, donated: seq<string>) {
    Room(cap, ids) == 0 || |NewIds(seen, donated)| <= Room(cap, ids)
  }

  lemma FittingListsAlike(cap: nat, seen: set<string>, ids: seq<string>, a: seq<string>, b: seq<string>)
    requires Elements(a) == Elements(b) && Fits(cap, seen, ids, a)
    ensures ListsAlike(cap, seen, ids, a, b)
  {
    hide ListedAll, NewIds, Elements, NoRepeats, Room;
    var x, y, room := NewIds(seen, a), NewIds(seen, b), Room(cap, ids);
    ListedMeaning(cap, seen, ids, a);
    ListedMeaning(cap, seen, ids, b);
    NewIdsMeaning(seen, a);
    NewIdsMeaning(seen, b);
    CountElements(x);
    CountElements(y);
    ElementsPlus(ids, x);
    ElementsPlus(ids, y);
    if room == 0 {
      NothingFirst(x);
      NothingFirst(y);
    } else {
      AllFirst(x, room);
      AllFirst(y, room);
    }
  }

  lemma NothingFirst(s: seq<string>)
    ensures FirstOf(s, 0) == []
  {
  }

  lemma AllFirst(s: seq<string>, n: nat)
    ensures |s| <= n ==> FirstOf(s, n) == s
  {
  }

  /** The first of s moved to the end. */
  function Turned(s: seq<string>): seq<string>
    requires s != []
  {
    s[1..] + [s[0]]
  }

  lemma TurnedLeavesOut(s: seq<string>, n: nat)
    requires NoRepeats(s) && 0 < n < |s|
    ensures NoRepeats(Turned(s)) && Elements(Turned(s)) == Elements(s)
    ensures s[0] in Elements(FirstOf(s, n)) && s[0] !in Elements(FirstOf(Turned(s), n))
  {
    assert s == [s[0]] + s[1..];
    ElementsPlus([s[0]], s[1..]);
    ElementsPlus(s[1..], [s[0]]);
    assert FirstOf(Turned(s), n) == s[1..n + 1];
    assert FirstOf(s, n)[0] == s[0];
  }

  /** With too little room for all, the id donated first is listed, and is not when it is donated last. */
  lemma LastIsLeftOut(cap: nat, seen: set<string>, ids: seq<string>, donated: seq<string>) returns (other: seq<string>)
    requires Elements(ids) <= seen && !Fits(cap, seen, ids, donated)
    ensures Elements(other) == Elements(donated) && !ListsAlike(cap, seen, ids, donated, other)
  {
    hide ListedAll, NewIds, Elements, NoRepeats, Room, FirstOf, Turned;
    var news, room := NewIds(seen, donated), Room(cap, ids);
    NewIdsMeaning(seen, donated);
    TurnedLeavesOut(news, room);
    other := Turned(news) + donated;
    ElementsPlus(Turned(news), donated);
    NewIdsOfNew(seen, Turned(news), donated);
    ListedMeaning(cap, seen, ids, donated);
    ListedMeaning(cap, seen, ids, other);
    ElementsPlus(ids, FirstOf(news, room));
    ElementsPlus(ids, FirstOf(Turned(news), room));
    IsElement(news, news[0]);
  }

  /** The listed ids, as a set, do not show the order of the donations exactly when nothing is listed or all new ones fit. */
  lemma ListHidesOrderIff(cap: nat, seen: set<string>, ids: seq<string>, donated: seq<string>)
    requires Elements(ids) <= seen
    ensures (forall other :: Elements(other) == Elements(donated) ==> ListsAlike(cap, seen, ids, donated, other))
            <==> Fits(cap, seen, ids, donated)
  {
    hide ListsAlike, Fits, Elements;
    if Fits(cap, seen, ids, donated) {
      forall other | Elements(other) == Elements(donated) ensures ListsAlike(cap, seen, ids, donated, other) {
        FittingListsAlike(cap, seen, ids, donated, other);
      }
    } else {
      var other := LastIsLeftOut(cap, seen, ids, donated);
    }
  }

  /** Two scans of the same fragments list the same ids when the new ones fit. */
  lemma ScansListAlike(
    a: seq<Fragment>, b: seq<Fragment>, ra: map<string, CallResult>, rb: map<string, CallResult>, cap: nat, seen: set<string>,
    ids: seq<string>)
    requires Reconciled(a, ra) && Reconciled(b, rb) && SameFragments(a, b) && NoEmptyParts(set f | f in a)
    requires Fits(cap, seen, ids, Donations(CallOrder(a), ra))
    ensures ListsAlike(cap, seen, ids, Donations(CallOrder(a), ra), Donations(CallOrder(b), rb))
  {
    OrderAndRepetitionAreIrrelevant(a, b, ra, rb);
    OrderNamesCalls(a);
    OrderNamesCalls(b);
    hide CallOrder, NoEmptyParts, Fits, ListsAlike, Reconciles, SameFragments;
    DonationsAreDonated(CallOrder(a), ra);
    DonationsAreDonated(CallOrder(b), rb);
    FittingListsAlike(cap, seen, ids, Donations(CallOrder(a), ra), Donations(CallOrder(b), rb));
  }

  lemma {:induction false} OrderNamesCalls(fragments: seq<Fragment>)
    ensures forall id :: id in CallOrder(fragments) <==> id in CallIds(fragments)
    decreases |fragments|
  {
    if fragments != [] {
      var init, f := fragments[..|fragments| - 1], fragments[|fragments| - 1];
      OrderNamesCalls(init);
      assert fragments == init + [f];
      assert CallIds(fragments) == if f.callId.Some? then CallIds(init) + {f.callId.value} else CallIds(init);
    }
  }
}
