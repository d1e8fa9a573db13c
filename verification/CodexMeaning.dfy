/**
 What a decoded Codex fragment says, in terms of the record's own fields: whom it trusts, which call it belongs to,
 which event or refusal it reports, and when it counts as a skip or as drift.
 */
module CodexMeaning {
  import opened Common
  import opened CodexEvidence
  import opened CodexDecoding

  // ---------- Reading a record ----------

  /** Anything but an object has no fields. */
  function Fields(value: Json): map<string, Json> { if value.JObject? then value.fields else map[] }

  predicate NoneOf(fields: map<string, Json>, keys: set<string>) { keys !! fields.Keys }

  predicate Identifies(w: Surroundings, value: Json) { value.JString? && 1 <= |value.s| <= 240 && w.printable(value.s) }

  function IdentifierIn(w: Surroundings, value: Json): Option<string> { if Identifies(w, value) then Some(value.s) else None }

  /** The server is one of ours, exactly, but for one optional prefix. */
  predicate IsOurs(server: Json) {
    && server.JString?
    && exists name :: name in ACCEPTED_NAMESPACES && (server.s == name || server.s == "mcp__" + name)
  }

  predicate CreationTool(tool: Json) { tool.JString? && tool.s in CREATION_TOOLS }

  // ---------- Results ----------

  /** The JSON document reports exactly this created event. */
  predicate ReportsEvent(document: Json, id: string) {
    var fields := Fields(document);
    && Get(Fields(Get(fields, "event")), "event_id") == JString(id)
    && 10 <= |id| <= 68 && id[..4] == "evt_" && (forall i :: 4 <= i < |id| ==> '0' <= id[i] <= '9' || 'a' <= id[i] <= 'f')
    && !Get(fields, "events").JArray? && !Get(fields, "runs").JArray?
  }

  predicate TextReports(w: Surroundings, text: string, id: string) {
    |text| <= 1_000_000 && w.parse(text).Value? && ReportsEvent(w.parse(text).json, id)
  }

  /** A failure text, read for a carrier that knows its tool or does not, gives this refusal. */
  predicate TextRefuses(w: Surroundings, text: string, tool: Option<string>, refusal: Skip) {
    if |text| > 1_000_000 || ClassifyRefusal(w, text).None? then refusal.None?
    else
      var found := ClassifyRefusal(w, text).value;
      && (found.tool.Some? && tool.Some? ==> found.tool == tool)
      && refusal == Some(Refusal(if found.tool.Some? then found.tool else tool, found.field, found.reason))
  }

  /** The content is one block, of type text, with this text. */
  predicate OneText(content: Json, text: string) {
    && content.JArray? && |content.items| == 1 && text != ""
    && Get(Fields(content.items[0]), "type") == JString("text") && Get(Fields(content.items[0]), "text") == JString(text)
  }

  /** A direct tool result: a text, and whether it is an error's. */
  predicate DirectResult(fields: map<string, Json>, isError: bool, text: string) {
    && NoneOf(fields, {"Ok", "Err", "error", "message"}) && OneText(Get(fields, "content"), text)
    && (if "isError" in fields then fields["isError"] == JBool(isError) else !isError)
  }

  /** A direct result, or one under `Ok` with nothing beside it that could say otherwise. */
  predicate ResultSays(value: Json, isError: bool, text: string) {
    || DirectResult(Fields(value), isError, text)
    || (&& Get(Fields(value), "Ok").JObject? && NoneOf(Fields(value), {"Err", "content", "isError", "message", "error"})
        && DirectResult(Fields(Get(Fields(value), "Ok")), isError, text))
  }

  /** An `Err` text, with nothing beside it that could say otherwise. */
  predicate ErrSays(value: Json, text: string) {
    && text != "" && Get(Fields(value), "Err") == JString(text)
    && NoneOf(Fields(value), {"Ok", "content", "isError", "message", "error"})
  }

  ghost predicate ResultCreates(w: Surroundings, value: Json, id: string) {
    exists text :: ResultSays(value, false, text) && TextReports(w, text, id)
  }

  ghost predicate ResultRefuses(w: Surroundings, value: Json, tool: Option<string>, refusal: Skip) {
    exists text :: (ResultSays(value, true, text) || ErrSays(value, text)) && TextRefuses(w, text, tool, refusal)
  }

  ghost predicate ErrorRefuses(w: Surroundings, value: Json, tool: Option<string>, refusal: Skip) {
    && NoneOf(Fields(value), {"Ok", "Err", "content", "isError"})
    && exists text :: text != "" && Get(Fields(value), "message") == JString(text) && TextRefuses(w, text, tool, refusal)
  }

  // ---------- Refusals ----------

  predicate Says(text: string, part: string) { exists i :: 0 <= i <= |text| && part <= text[i..] }

  lemma {:induction false} ContainsMeaning(text: string, part: string)
    ensures Contains(text, part) <==> Says(text, part)
    decreases |text|
  {
    assert text[0..] == text;
    if !(part <= text) && text != "" {
      ContainsMeaning(text[1..], part);
      forall i | 0 <= i <= |text[1..]| ensures text[1..][i..] == text[i + 1..] {
      }
      if Says(text, part) {
        var i :| 0 <= i <= |text| && part <= text[i..];
        assert text[1..][i - 1..] == text[i..];
      }
    }
  }

  /** The codes a refusal can get, most specific rule first; the last rule always applies. */
  const CODES: seq<string> := [
    UNKNOWN_ARGUMENT, MISSING_ARGUMENT, UNKNOWN_RUN_ID, NO_RUNS_CODE, NOT_RELATIVE, OVER_SIZE, OVER_LENGTH, OVER_LIMIT,
    UNDER_LIMIT, INCOMPLETE, INVALID, INCOMPLETE, OTHER]

  predicate Rule(w: Surroundings, lowered: string, k: nat) {
    match k
    case 0 => UNEXPECTED <= lowered
    case 1 => MISSING <= lowered
    case 2 => UNKNOWN_RUN <= lowered
    case 3 => lowered == NO_RUNS
    case 4 => Says(lowered, RELATIVE) || Says(lowered, NORMALIZED)
    case 5 => w.boundsBytes(lowered)
    case 6 => w.boundsCharacters(lowered)
    case 7 => w.boundsAbove(lowered)
    case 8 => w.boundsBelow(lowered)
    case 9 => Says(lowered, TOGETHER) || Says(lowered, JOIN_HINT)
    case 10 => Says(lowered, ONE_OF) || Says(lowered, BE_A) || Says(lowered, BE_AN)
    case 11 => RESOLUTION <= lowered
    case _ => true
  }

  /** The text begins with a field name that ends at a word boundary. */
  predicate BeginsWithField(w: Surroundings, text: string, field: string) {
    && field != "" && field <= text && 'a' <= field[0] <= 'z'
    && (forall i :: 0 <= i < |field| ==> 'a' <= field[i] <= 'z' || '0' <= field[i] <= '9' || field[i] == '_')
    && (|field| < |text| ==>
          var next := text[|field|];
          !('a' <= next <= 'z') && !('0' <= next <= '9') && next != '_' && !w.wordChar(next))
  }

  /** What is said about the field of a refusal: only names the server itself defines. */
  predicate FieldSays(w: Surroundings, message: string, code: string, field: string) {
    if code == UNKNOWN_RUN_ID then field == "run_id"
    else
      var cut := if code == UNKNOWN_ARGUMENT then |UNEXPECTED| else if code == MISSING_ARGUMENT then |MISSING| else 0;
      var rest := if cut <= |message| then message[cut..] else "";
      BeginsWithField(w, w.strip(rest), field) && field in w.argumentNames
  }

  lemma {:induction false} FieldRunMeaning(text: string)
    ensures var n := FieldRun(text);
      && (forall i :: 0 <= i < n ==> FieldChar(text[i])) && (n < |text| ==> !FieldChar(text[n]))
    decreases |text|
  {
    if text != "" && FieldChar(text[0]) {
      FieldRunMeaning(text[1..]);
    }
  }

  lemma LeadingFieldMeaning(w: Surroundings, text: string)
    ensures forall field :: LeadingField(w, text) == Some(field) <==> BeginsWithField(w, text, field)
  {
    FieldRunMeaning(text);
    var n := FieldRun(text);
    forall field ensures LeadingField(w, text) == Some(field) <==> BeginsWithField(w, text, field) {
      if BeginsWithField(w, text, field) {
        assert forall i :: 0 <= i < |field| ==> FieldChar(text[i]);
        assert n == |field|;
        assert text[..n] == field;
      }
    }
  }

  /** The first rule from k on that applies. */
  function FirstRule(w: Surroundings, lowered: string, k: nat): (first: nat)
    requires k <= 12
    ensures k <= first <= 12 && Rule(w, lowered, first) && forall j :: k <= j < first ==> !Rule(w, lowered, j)
    decreases 12 - k
  {
    if Rule(w, lowered, k) then k else FirstRule(w, lowered, k + 1)
  }

  /** The reason is that of the first rule that applies to the message. */
  lemma ReasonMeaning(w: Surroundings, message: string)
    ensures ReasonCode(w, message) == CODES[FirstRule(w, w.lower(message), 0)]
  {
    hide UNEXPECTED, MISSING, UNKNOWN_RUN, NO_RUNS, RELATIVE, NORMALIZED, TOGETHER, JOIN_HINT, ONE_OF, BE_A, BE_AN, RESOLUTION;
    hide UNKNOWN_ARGUMENT, MISSING_ARGUMENT, UNKNOWN_RUN_ID, NO_RUNS_CODE, NOT_RELATIVE, OVER_SIZE, OVER_LENGTH, OVER_LIMIT,
      UNDER_LIMIT, INCOMPLETE, INVALID, OTHER;
    var lowered := w.lower(message);
    forall part ensures Contains(lowered, part) <==> Says(lowered, part) {
      ContainsMeaning(lowered, part);
    }
    hide Contains, Says;
  }

  /** A text is a refusal exactly when the server's error is found in it; its parts are allowlisted or of the table above. */
  lemma RefusalMeaning(w: Surroundings, text: string, r: Refusal)
    ensures ClassifyRefusal(w, text) == Some(r) <==>
      && text != "" && w.errorMessage(text).Some? && w.errorMessage(text).value != ""
      && var message := w.errorMessage(text).value;
      && r.reason == ReasonCode(w, message)
      && (forall field :: r.field == Some(field) <==> FieldSays(w, message, r.reason, field))
      && (forall tool :: r.tool == Some(tool) <==> w.failedTool(text) == Some(tool) && tool in CREATION_TOOLS)
  {
    if w.errorMessage(text).Some? {
      var message := w.errorMessage(text).value;
      var code := ReasonCode(w, message);
      FieldMeaning(w, message, code);
      assert r.field.Some? ==> (FieldName(w, message, code) == r.field <==> FieldSays(w, message, code, r.field.value));
      assert FieldName(w, message, code).Some? ==> FieldSays(w, message, code, FieldName(w, message, code).value);
      hide ReasonCode, FieldName, FieldSays;
    }
  }

  lemma FieldMeaning(w: Surroundings, message: string, code: string)
    ensures forall field :: FieldName(w, message, code) == Some(field) <==> FieldSays(w, message, code, field)
  {
    var remainder := if code == UNKNOWN_ARGUMENT then Drop(message, |UNEXPECTED|)
                     else if code == MISSING_ARGUMENT then Drop(message, |MISSING|)
                     else message;
    LeadingFieldMeaning(w, w.strip(remainder));
    hide LeadingField, BeginsWithField;
    assert message[0..] == message;
  }

  // ---------- The decoders of results ----------

  predicate Creates(o: Outcome, id: string) { o.CreatedEvent? && o.eventId == id }

  lemma EventIsReported(document: Json)
    ensures forall id :: CreatedIdIn(document) == Some(id) <==> ReportsEvent(document, id)
  {
  }

  lemma SuccessMeaning(w: Surroundings, text: string)
    ensures forall id :: Creates(SuccessOutcome(w, text), id) <==> TextReports(w, text, id)
    ensures !SuccessOutcome(w, text).Failed? && !SuccessOutcome(w, text).Unknown?
  {
    hide ReportsEvent, CreatedIdIn;
    if w.parse(text).Value? {
      EventIsReported(w.parse(text).json);
    }
  }

  lemma FailureMeaning(w: Surroundings, text: string, tool: Option<string>)
    requires text != ""
    ensures forall r: Skip :: FailureOutcome(w, JString(text), tool) == Failed(r) <==> TextRefuses(w, text, tool, r)
    ensures var o := FailureOutcome(w, JString(text), tool); o.Failed? || o.Malformed?
  {
    var found := ClassifyRefusal(w, text);
    RefusalsSpeakVocabulary(w, text);
    hide ClassifyRefusal;
  }

  lemma OneTextMeaning(content: Json)
    ensures forall text :: SingleTextBlock(content) == Some(text) <==> OneText(content, text)
  {
  }

  lemma CallResultMeaning(w: Surroundings, fields: map<string, Json>, tool: Option<string>)
    ensures var o := DecodeCallResult(w, fields, tool);
      && !o.Unknown?
      && (forall id :: Creates(o, id) <==> exists text :: DirectResult(fields, false, text) && TextReports(w, text, id))
      && (forall r: Skip :: o == Failed(r) <==> exists text :: DirectResult(fields, true, text) && TextRefuses(w, text, tool, r))
  {
    OneTextMeaning(Get(fields, "content"));
    hide OneText, SingleTextBlock, SuccessOutcome, FailureOutcome, TextReports, TextRefuses;
    var text := SingleTextBlock(Get(fields, "content"));
    if text.Some? {
      SuccessMeaning(w, text.value);
      OneTextMeaning(Get(fields, "content"));
      assert text.value != "" by { BlocksSpeak(Get(fields, "content"), text.value); }
      FailureMeaning(w, text.value, tool);
    }
  }

  lemma BlocksSpeak(content: Json, text: string)
    requires OneText(content, text)
    ensures text != ""
  {
  }

  lemma ResultMeaning(w: Surroundings, value: Json, tool: Option<string>)
    ensures var o := DecodeResult(w, value, tool);
      && !o.Unknown? && (forall id :: Creates(o, id) <==> ResultCreates(w, value, id))
      && (forall r: Skip :: o == Failed(r) <==> ResultRefuses(w, value, tool, r))
  {
    var fields := Fields(value);
    CallResultMeaning(w, fields, tool);
    CallResultMeaning(w, Fields(Get(fields, "Ok")), tool);
    if Get(fields, "Err").JString? && Get(fields, "Err").s != "" {
      FailureMeaning(w, Get(fields, "Err").s, tool);
    }
    hide DecodeCallResult, FailureOutcome, TextReports, TextRefuses, OneText;
  }

  lemma ErrorMeaning(w: Surroundings, value: Json, tool: Option<string>)
    ensures var o := DecodeError(w, value, tool);
      && !o.Unknown? && !o.CreatedEvent? && (forall r: Skip :: o == Failed(r) <==> ErrorRefuses(w, value, tool, r))
  {
    var message := Get(Fields(value), "message");
    if message.JString? && message.s != "" {
      FailureMeaning(w, message.s, tool);
    }
    hide FailureOutcome, TextRefuses;
  }

  // ---------- Split outputs ----------

  const MARKER := "Output:\n"

  predicate MarkerAt(text: string, k: nat) { k + |MARKER| <= |text| && text[k..k + |MARKER|] == MARKER }

  /** `rest` is what follows the first marker of the text. */
  ghost predicate FollowsMarker(text: string, rest: string) {
    exists k: nat :: MarkerAt(text, k) && (forall i :: 0 <= i < k ==> !MarkerAt(text, i)) && rest == text[k + |MARKER|..]
  }

  lemma MarkerSteps(text: string, k: nat)
    requires text != ""
    ensures MarkerAt(text, k + 1) <==> MarkerAt(text[1..], k)
    ensures MarkerAt(text, k + 1) ==> text[k + 1 + |MARKER|..] == text[1..][k + |MARKER|..]
    ensures MarkerAt(text, 0) <==> MARKER <= text
  {
    if k + 1 + |MARKER| <= |text| {
      assert text[k + 1..k + 1 + |MARKER|] == text[1..][k..k + |MARKER|];
    }
  }

  lemma {:induction false} AfterFirstMeaning(text: string)
    ensures forall rest :: AfterFirst(text, MARKER) == Some(rest) <==> FollowsMarker(text, rest)
    decreases |text|
  {
    if MARKER <= text {
      MarkerHere(text);
    } else if text == "" {
      assert forall k: nat :: !MarkerAt(text, k);
    } else {
      AfterFirstMeaning(text[1..]);
      forall rest ensures FollowsMarker(text, rest) <==> FollowsMarker(text[1..], rest) {
        MarkerStepsBack(text, rest);
      }
    }
  }

  lemma MarkerHere(text: string)
    requires MARKER <= text
    ensures forall rest :: FollowsMarker(text, rest) <==> rest == text[|MARKER|..]
  {
    assert MarkerAt(text, 0);
    hide MarkerAt;
    forall rest ensures FollowsMarker(text, rest) <==> rest == text[|MARKER|..] {
      assert 0 + |MARKER| == |MARKER|;
    }
  }

  lemma MarkerStepsBack(text: string, rest: string)
    requires text != "" && !(MARKER <= text)
    ensures FollowsMarker(text, rest) <==> FollowsMarker(text[1..], rest)
  {
    MarkerSteps(text, 0);
    hide MarkerAt;
    if k: nat :| MarkerAt(text, k) && (forall i :: 0 <= i < k ==> !MarkerAt(text, i)) && rest == text[k + |MARKER|..] {
      assert k > 0;
      MarkerSteps(text, k - 1);
      forall i | 0 <= i < k - 1 ensures !MarkerAt(text[1..], i) {
        MarkerSteps(text, i);
      }
    }
    if k: nat :| MarkerAt(text[1..], k) && (forall i :: 0 <= i < k ==> !MarkerAt(text[1..], i)) && rest == text[1..][k + |MARKER|..] {
      MarkerSteps(text, k);
      forall i | 0 <= i < k + 1 ensures !MarkerAt(text, i) {
        if i > 0 {
          MarkerSteps(text, i - 1);
        }
      }
    }
  }

  /** What the output's JSON is: that behind the marker if it is JSON, else the whole text; TooDeep settles it as well. */
  ghost predicate OutputParses(w: Surroundings, text: string, parsed: Parsed) {
    || (exists rest :: FollowsMarker(text, rest) && w.parse(rest) == parsed && parsed != NotJson)
    || ((forall rest :: FollowsMarker(text, rest) ==> w.parse(rest) == NotJson) && w.parse(text) == parsed)
  }

  predicate TransportKeys(document: Json) { !NoneOf(Fields(document), {"Ok", "Err", "content", "isError"}) }

  /** A JSON output creates an event as a bare block, as a result, or as the created payload itself. */
  ghost predicate DocumentCreates(w: Surroundings, document: Json, id: string) {
    match document
    case JArray(_) => exists text :: OneText(document, text) && ClassifyRefusal(w, text).None? && TextReports(w, text, id)
    case JObject(fields) =>
      if TransportKeys(document) then "event" !in fields && ResultCreates(w, document, id) else ReportsEvent(document, id)
    case _ => false
  }

  ghost predicate DocumentRefuses(w: Surroundings, document: Json, refusal: Skip) {
    match document
    case JArray(_) => exists text :: OneText(document, text) && refusal.Some? && ClassifyRefusal(w, text) == refusal
    case JObject(fields) => TransportKeys(document) && "event" !in fields && ResultRefuses(w, document, None, refusal)
    case _ => false
  }

  ghost predicate ReadableText(value: Json) { value.JString? && 1 <= |value.s| <= 1_000_000 }

  ghost predicate OutputCreates(w: Surroundings, value: Json, id: string) {
    || (value.JObject? && ResultCreates(w, value, id))
    || (ReadableText(value) && exists document :: OutputParses(w, value.s, Value(document)) && DocumentCreates(w, document, id))
  }

  ghost predicate OutputRefuses(w: Surroundings, value: Json, refusal: Skip) {
    || (value.JObject? && ResultRefuses(w, value, None, refusal))
    || (ReadableText(value) && exists document :: OutputParses(w, value.s, Value(document)) && DocumentRefuses(w, document, refusal))
    || (ReadableText(value) && OutputParses(w, value.s, NotJson) && refusal.Some? && ClassifyRefusal(w, value.s) == refusal)
  }

  /** Neither JSON nor a refusal. */
  ghost predicate OutputIsUnclear(w: Surroundings, value: Json) {
    ReadableText(value) && OutputParses(w, value.s, NotJson) && ClassifyRefusal(w, value.s).None?
  }

  lemma ParsedMeaning(w: Surroundings, document: Json)
    ensures var o := DecodeParsed(w, document);
      && !o.Unknown? && (forall id :: Creates(o, id) <==> DocumentCreates(w, document, id))
      && (forall r: Skip :: o == Failed(r) <==> DocumentRefuses(w, document, r))
  {
    OneTextMeaning(document);
    ResultMeaning(w, document, None);
    EventIsReported(document);
    var text := SingleTextBlock(document);
    if text.Some? {
      SuccessMeaning(w, text.value);
      RefusalsSpeakVocabulary(w, text.value);
    }
    hide OneText, SingleTextBlock, SuccessOutcome, ClassifyRefusal, ReportsEvent, CreatedIdIn, TextReports, ResultCreates, ResultRefuses;
  }

  /** Which candidate decides. */
  lemma CandidatesMeaning(w: Surroundings, text: string)
    ensures var inner := AfterFirst(text, MARKER);
      var decided := DecodeCandidates(w, (if inner.Some? then [inner.value] else []) + [text]);
      && (forall document :: OutputParses(w, text, Value(document)) ==> decided == Some(DecodeParsed(w, document)))
      && (OutputParses(w, text, TooDeep) ==> decided == Some(Malformed))
      && (OutputParses(w, text, NotJson) <==> decided.None?)
      && (exists parsed :: OutputParses(w, text, parsed))
  {
    AfterFirstMeaning(text);
    hide FollowsMarker, AfterFirst, DecodeParsed;
    var inner := AfterFirst(text, MARKER);
    if inner.Some? {
      assert [inner.value] + [text] == [inner.value, text] && [inner.value, text][1..] == [text] && [text][1..] == [];
      assert FollowsMarker(text, inner.value);
      assert DecodeCandidates(w, [text]).None? <==> w.parse(text) == NotJson;
      assert OutputParses(w, text, if w.parse(inner.value) == NotJson then w.parse(text) else w.parse(inner.value));
    } else {
      assert [] + [text] == [text] && [text][1..] == [];
      assert OutputParses(w, text, w.parse(text));
    }
  }

  lemma ParsesOnce(w: Surroundings, text: string, a: Parsed, b: Parsed)
    requires OutputParses(w, text, a) && OutputParses(w, text, b)
    ensures a == b
  {
    AfterFirstMeaning(text);
    hide FollowsMarker;
  }

  lemma OutputMeaning(w: Surroundings, value: Json)
    ensures var o := DecodeOutput(w, value);
      && (forall id :: Creates(o, id) <==> OutputCreates(w, value, id))
      && (forall r: Skip :: o == Failed(r) <==> OutputRefuses(w, value, r))
      && (o.Unknown? <==> OutputIsUnclear(w, value))
  {
    hide ClassifyRefusal, DecodeParsed, DecodeResult, ResultCreates, ResultRefuses, OutputParses, DocumentCreates, DocumentRefuses,
      AfterFirst, DecodeCandidates;
    if value.JObject? {
      ResultMeaning(w, value, None);
    } else if ReadableText(value) {
      CandidatesMeaning(w, value.s);
      RefusalsSpeakVocabulary(w, value.s);
      var parsed :| OutputParses(w, value.s, parsed);
      forall other | OutputParses(w, value.s, other) ensures other == parsed {
        ParsesOnce(w, value.s, other, parsed);
      }
      if parsed.Value? {
        ParsedMeaning(w, parsed.json);
      }
    }
  }

  // ---------- Fragments ----------

  datatype Carrier = Call | CallOutput | LegacyEnd | CompletedItem | Irrelevant

  function PayloadOf(record: map<string, Json>): map<string, Json> { Fields(Get(record, "payload")) }

  function CarrierOf(record: map<string, Json>): Carrier {
    var kind := Get(PayloadOf(record), "type");
    if kind == JString("function_call") then Call
    else if kind == JString("function_call_output") then CallOutput
    else if kind == JString("mcp_tool_call_end") then LegacyEnd
    else if kind == JString("item_completed") then CompletedItem
    else Irrelevant
  }

  /** The object of a terminal carrier that names the tool and the server. */
  function NamedBy(record: map<string, Json>): Json {
    Get(PayloadOf(record), if CarrierOf(record).LegacyEnd? then "invocation" else "item")
  }

  function ToolOf(record: map<string, Json>): Json {
    if CarrierOf(record).Call? then Get(PayloadOf(record), "name") else Get(Fields(NamedBy(record)), "tool")
  }

  function ServerOf(record: map<string, Json>): Json { Get(Fields(NamedBy(record)), "server") }

  /** The field that names the call. */
  function CallOf(record: map<string, Json>): Json {
    if CarrierOf(record).CompletedItem? then Get(Fields(NamedBy(record)), "id") else Get(PayloadOf(record), "call_id")
  }

  predicate IsToolCall(record: map<string, Json>) {
    CarrierOf(record).LegacyEnd? || Get(Fields(NamedBy(record)), "type") == JString("McpToolCall")
  }

  /** Which records give a fragment. */
  predicate Concerns(w: Surroundings, record: map<string, Json>) {
    match CarrierOf(record)
    case Call => CreationTool(ToolOf(record))
    case CallOutput => Identifies(w, CallOf(record))
    case Irrelevant => false
    case _ =>
      || !NamedBy(record).JObject?
      || (if Identifies(w, ToolOf(record)) then CreationTool(ToolOf(record)) else IsToolCall(record))
  }

  /** A creation tool called on our server; a split call may leave the server out. */
  predicate Trusted(w: Surroundings, record: map<string, Json>) {
    match CarrierOf(record)
    case Call => Get(PayloadOf(record), "namespace").JNull? || IsOurs(Get(PayloadOf(record), "namespace"))
    case CallOutput => false
    case Irrelevant => false
    case _ => Identifies(w, ToolOf(record)) && CreationTool(ToolOf(record)) && IsOurs(ServerOf(record))
  }

  /** A trusted terminal carrier that reports the end of a tool call. */
  predicate EndsTrusted(w: Surroundings, record: map<string, Json>) {
    (CarrierOf(record).LegacyEnd? || CarrierOf(record).CompletedItem?) && Trusted(w, record) && IsToolCall(record)
  }

  ghost predicate FragmentCreates(w: Surroundings, record: map<string, Json>, id: string) {
    match CarrierOf(record)
    case CallOutput => OutputCreates(w, Get(PayloadOf(record), "output"), id)
    case LegacyEnd => EndsTrusted(w, record) && ResultCreates(w, Get(PayloadOf(record), "result"), id)
    case CompletedItem =>
      var item := Fields(NamedBy(record));
      && EndsTrusted(w, record) && Get(item, "status") == JString("completed") && Get(item, "error").JNull?
      && ResultCreates(w, Get(item, "result"), id)
    case _ => false
  }

  ghost predicate FragmentRefuses(w: Surroundings, record: map<string, Json>, refusal: Skip) {
    match CarrierOf(record)
    case CallOutput => OutputRefuses(w, Get(PayloadOf(record), "output"), refusal)
    case LegacyEnd =>
      EndsTrusted(w, record) && ResultRefuses(w, Get(PayloadOf(record), "result"), Some(ToolOf(record).s), refusal)
    case CompletedItem =>
      var item := Fields(NamedBy(record));
      var error, result, tool := Get(item, "error"), Get(item, "result"), ToolOf(record);
      && EndsTrusted(w, record)
      && (|| (Get(item, "status") == JString("completed") && error.JNull? && ResultRefuses(w, result, Some(tool.s), refusal))
          || (Get(item, "status") == JString("failed") && error.JNull? && !result.JNull?
              && ResultRefuses(w, result, Some(tool.s), refusal))
          || (Get(item, "status") == JString("failed") && !error.JNull? && result.JNull?
              && ErrorRefuses(w, error, Some(tool.s), refusal)))
    case _ => false
  }

  /** The channel the carrier belongs on. */
  predicate OnItsChannel(record: map<string, Json>) {
    Get(record, "type") == JString(if CarrierOf(record).Call? || CarrierOf(record).CallOutput? then "response_item" else "event_msg")
  }

  /** Role, call, tool and verdict, from the fields that name them. */
  predicate Identity(w: Surroundings, record: map<string, Json>, f: Fragment) {
    var carrier := CarrierOf(record);
    && f.role == (if carrier.Call? then Descriptor else if carrier.CallOutput? then Output else Terminal)
    && f.callId == IdentifierIn(w, CallOf(record))
    && f.toolName == (if carrier.CallOutput? then None else IdentifierIn(w, ToolOf(record)))
    && (f.verdict == Some(Accepted) <==> Trusted(w, record))
    && (f.verdict.None? <==> carrier.CallOutput? || (!carrier.Call? && !Identifies(w, ToolOf(record))))
  }

  /** The outcome: created, refused or unclear as the result says, malformed otherwise; absent without a result to trust. */
  ghost predicate Reported(w: Surroundings, record: map<string, Json>, f: Fragment) {
    && (f.outcome.Some? <==> CarrierOf(record).CallOutput? || EndsTrusted(w, record))
    && (forall id :: f.outcome.Some? && Creates(f.outcome.value, id) <==> FragmentCreates(w, record, id))
    && (forall r: Skip :: f.outcome == Some(Failed(r)) <==> FragmentRefuses(w, record, r))
    && (f.outcome == Some(Unknown) <==> CarrierOf(record).CallOutput? && OutputIsUnclear(w, Get(PayloadOf(record), "output")))
  }

  /** What counts as a skip by itself, and what shows that the schema drifted. */
  predicate Counted(w: Surroundings, record: map<string, Json>, f: Fragment) {
    var terminal := f.role.Terminal?;
    var server := ServerOf(record);
    && (f.countsAsSkip <==>
          && !f.role.Output?
          && (|| f.callId.None? || !OnItsChannel(record)
              || (terminal && !(f.verdict == Some(Accepted) && f.outcome.Some? && f.outcome.value.CreatedEvent?))))
    && (f.drift <==>
          || f.callId.None? || !OnItsChannel(record) || f.outcome == Some(Malformed)
          || (terminal && (f.toolName.None? || !IsToolCall(record) || !server.JString? || server.s == "")))
  }

  lemma OursMatches(server: Json)
    ensures NamespaceMatches(server) <==> server.JNull? || IsOurs(server)
    ensures IsOurs(server) ==> server.JString? && server.s != ""
  {
    assert forall name :: name in ACCEPTED_NAMESPACES ==> name[0] == 'a' && ("mcp__" + name)[|"mcp__"|..] == name;
    if server.JString? && "mcp__" <= server.s {
      assert server.s == "mcp__" + server.s[|"mcp__"|..] && server.s[0] == 'm';
    }
  }

  lemma ValidatedIdentifies(w: Surroundings)
    ensures forall value :: Validated(w, value) == IdentifierIn(w, value)
  {
  }

  lemma CallsDecode(w: Surroundings, record: map<string, Json>)
    requires CarrierOf(record).Call?
    ensures DecodesAsSaid(w, record)
  {
    OursMatches(Get(PayloadOf(record), "namespace"));
    ValidatedIdentifies(w);
    hide Validated, IdentifierIn, Identifies, IsOurs, NamespaceMatches;
  }

  lemma OutputsDecode(w: Surroundings, record: map<string, Json>)
    requires CarrierOf(record).CallOutput?
    ensures DecodesAsSaid(w, record)
  {
    OutputMeaning(w, Get(PayloadOf(record), "output"));
    ValidatedIdentifies(w);
    hide Validated, IsOurs, NamespaceMatches, OutputCreates, OutputRefuses, OutputIsUnclear, DecodeOutput;
  }

  lemma LegacyEndsDecode(w: Surroundings, record: map<string, Json>)
    requires CarrierOf(record).LegacyEnd?
    ensures DecodesAsSaid(w, record)
  {
    hide DecodesAsSaid;
    if EndsTrusted(w, record) {
      TrustedEndsDecode(w, record);
    } else {
      OtherEndsDecode(w, record);
    }
  }

  lemma OtherEndsDecode(w: Surroundings, record: map<string, Json>)
    requires CarrierOf(record).LegacyEnd? && !EndsTrusted(w, record)
    ensures DecodesAsSaid(w, record)
  {
    OursMatches(ServerOf(record));
    ValidatedIdentifies(w);
    hide Validated, NamespaceMatches, ResultCreates, ResultRefuses, DecodeResult, IsOurs;
  }

  lemma TrustedEndsDecode(w: Surroundings, record: map<string, Json>)
    requires CarrierOf(record).LegacyEnd? && EndsTrusted(w, record)
    ensures DecodesAsSaid(w, record)
  {
    OursMatches(ServerOf(record));
    ValidatedIdentifies(w);
    ResultMeaning(w, Get(PayloadOf(record), "result"), IdentifierIn(w, ToolOf(record)));
    hide Validated, NamespaceMatches, ResultCreates, ResultRefuses, DecodeResult, IsOurs;
  }

  lemma CompletedItemsDecode(w: Surroundings, record: map<string, Json>)
    requires CarrierOf(record).CompletedItem?
    ensures DecodesAsSaid(w, record)
  {
    hide DecodesAsSaid;
    if EndsTrusted(w, record) {
      TrustedItemsDecode(w, record);
    } else {
      OtherItemsDecode(w, record);
    }
  }

  lemma OtherItemsDecode(w: Surroundings, record: map<string, Json>)
    requires CarrierOf(record).CompletedItem? && !EndsTrusted(w, record)
    ensures DecodesAsSaid(w, record)
  {
    OursMatches(ServerOf(record));
    ValidatedIdentifies(w);
    hide Validated, NamespaceMatches, ResultCreates, ResultRefuses, ErrorRefuses, DecodeResult, DecodeError, IsOurs;
  }

  /** The fragment of a trusted tool call, by its status. */
  lemma TrustedItem(w: Surroundings, record: map<string, Json>)
    requires CarrierOf(record).CompletedItem? && EndsTrusted(w, record)
    ensures Decode(w, record).Some?
    ensures var item := Fields(NamedBy(record)); var f := Decode(w, record).value;
      && f.role.Terminal? && f.callId == IdentifierIn(w, CallOf(record)) && f.toolName == IdentifierIn(w, ToolOf(record))
      && f.verdict == Some(Accepted) && f.outcome == Some(ItemOutcome(w, item, ToolOf(record).s))
      && f.countsAsSkip == (f.callId.None? || !OnItsChannel(record) || !f.outcome.value.CreatedEvent?)
      && f.drift == (f.callId.None? || !OnItsChannel(record) || f.outcome.value.Malformed?)
  {
    OursMatches(ServerOf(record));
    ValidatedIdentifies(w);
    hide Validated, NamespaceMatches, DecodeResult, DecodeError, IsOurs;
  }

  /** The outcome of a trusted tool call: a completed one needs no error beside it, a failed one exactly one report. */
  function ItemOutcome(w: Surroundings, item: map<string, Json>, tool: string): Outcome {
    var error, result := Get(item, "error"), Get(item, "result");
    if Get(item, "status") == JString("completed") && error.JNull? then DecodeResult(w, result, Some(tool))
    else if Get(item, "status") == JString("failed") && error.JNull? != result.JNull? then
      var decoded := if result.JNull? then DecodeError(w, error, Some(tool)) else DecodeResult(w, result, Some(tool));
      if decoded.Failed? then decoded else Malformed
    else Malformed
  }

  lemma TrustedItemsDecode(w: Surroundings, record: map<string, Json>)
    requires CarrierOf(record).CompletedItem? && EndsTrusted(w, record)
    ensures DecodesAsSaid(w, record)
  {
    var item := Fields(NamedBy(record));
    TrustedItem(w, record);
    OursMatches(ServerOf(record));
    ResultMeaning(w, Get(item, "result"), IdentifierIn(w, ToolOf(record)));
    ErrorMeaning(w, Get(item, "error"), IdentifierIn(w, ToolOf(record)));
    hide Validated, NamespaceMatches, ResultCreates, ResultRefuses, ErrorRefuses, DecodeResult, DecodeError, IsOurs, Decode;
  }

  ghost predicate DecodesAsSaid(w: Surroundings, record: map<string, Json>) {
    && (Decode(w, record).Some? <==> Concerns(w, record))
    && (Decode(w, record).Some? ==>
          var f := Decode(w, record).value;
          Identity(w, record, f) && Reported(w, record, f) && Counted(w, record, f))
  }

  /** For every record of every carrier. */
  lemma EveryRecordDecodes(w: Surroundings, record: map<string, Json>)
    ensures DecodesAsSaid(w, record)
  {
    hide DecodesAsSaid;
    match CarrierOf(record) {
      case Call => CallsDecode(w, record);
      case CallOutput => OutputsDecode(w, record);
      case LegacyEnd => LegacyEndsDecode(w, record);
      case CompletedItem => CompletedItemsDecode(w, record);
      case Irrelevant => OthersDecode(w, record);
    }
  }

  lemma OthersDecode(w: Surroundings, record: map<string, Json>)
    requires CarrierOf(record).Irrelevant?
    ensures DecodesAsSaid(w, record)
  {
  }

  // ---------- From records to donations ----------

  /** The fragments of one call among some records. */
  function GroupOf(w: Surroundings, records: set<map<string, Json>>, call: string): set<Fragment> {
    set record | record in records && Decode(w, record).Some? && Decode(w, record).value.callId == Some(call) :: Decode(w, record).value
  }

  /** A split call of a creation tool on our server, or with no server named. */
  ghost predicate Authorises(w: Surroundings, record: map<string, Json>, call: string) {
    && CarrierOf(record).Call? && IdentifierIn(w, CallOf(record)) == Some(call) && CreationTool(ToolOf(record)) && Trusted(w, record)
  }

  /** The record reports the event, on its own authority or on that of another record of the same call. */
  ghost predicate Vouches(w: Surroundings, records: set<map<string, Json>>, record: map<string, Json>, call: string, id: string) {
    && record in records && IdentifierIn(w, CallOf(record)) == Some(call) && FragmentCreates(w, record, id)
    && (EndsTrusted(w, record) || exists other :: other in records && Authorises(w, other, call))
  }

  lemma AuthorityIsAccepted(w: Surroundings, records: set<map<string, Json>>, call: string)
    ensures HasAcceptedDescriptor(GroupOf(w, records, call)) <==> exists other :: other in records && Authorises(w, other, call)
  {
    hide IdentifierIn, Trusted, Decode, CreationTool;
    var g := GroupOf(w, records, call);
    if f :| f in g && AcceptedAs(f, Descriptor) {
      var record :| record in records && Decode(w, record) == Some(f) && f.callId == Some(call);
      EveryRecordDecodes(w, record);
      assert Authorises(w, record, call);
    }
    if other :| other in records && Authorises(w, other, call) {
      EveryRecordDecodes(w, other);
      assert Decode(w, other).value in g && AcceptedAs(Decode(w, other).value, Descriptor);
    }
  }

  /**
   A call donates an event exactly when its fragments do not conflict and one of its records reports that event with
   authority: a trusted terminal carrier, or a split output beside a trusted split call.
   */
  lemma DonatesIff(w: Surroundings, records: set<map<string, Json>>, call: string, r: CallResult, id: string)
    requires Reconciles(GroupOf(w, records, call), r)
    ensures r.donated.Some? && r.donated.value == id
            <==> !Conflict(GroupOf(w, records, call)) && exists record :: Vouches(w, records, record, call, id)
  {
    hide Conflict, Vouches, Created;
    CreatedIffVouched(w, records, call, id);
  }

  lemma CreatedIffVouched(w: Surroundings, records: set<map<string, Json>>, call: string, id: string)
    ensures (WellFormedEventId(id) && Created(GroupOf(w, records, call), id)) <==> exists record :: Vouches(w, records, record, call, id)
  {
    hide Vouches, Created, WellFormedEventId;
    if WellFormedEventId(id) && Created(GroupOf(w, records, call), id) {
      CreatedIsVouched(w, records, call, id);
    }
    if record :| Vouches(w, records, record, call, id) {
      VouchedIsCreated(w, records, record, call, id);
    }
  }

  lemma CreatedIsVouched(w: Surroundings, records: set<map<string, Json>>, call: string, id: EventId)
    requires Created(GroupOf(w, records, call), id)
    ensures exists record :: Vouches(w, records, record, call, id)
  {
    hide IdentifierIn, Trusted, Decode, EndsTrusted, FragmentCreates, Authorises, BindsTo, Counted, CarrierOf;
    var g := GroupOf(w, records, call);
    AuthorityIsAccepted(w, records, call);
    var name :| HasOutcome(g, CreatedEvent(id), name);
    var f :| f in g && Effective(f) == CreatedEvent(id) && ((f.role.Output? && HasAcceptedDescriptor(g)) || AcceptedAs(f, Terminal));
    var record :| record in records && Decode(w, record) == Some(f) && f.callId == Some(call);
    EveryRecordDecodes(w, record);
    assert Creates(f.outcome.value, id);
    assert Vouches(w, records, record, call, id);
  }

  lemma VouchedIsCreated(w: Surroundings, records: set<map<string, Json>>, record: map<string, Json>, call: string, id: string)
    requires Vouches(w, records, record, call, id)
    ensures WellFormedEventId(id) && Created(GroupOf(w, records, call), id)
  {
    CreatorsAre(w, record, id);
    EveryRecordDecodes(w, record);
    AuthorityIsAccepted(w, records, call);
    hide IdentifierIn, Trusted, Decode, EndsTrusted, FragmentCreates, Authorises, CarrierOf, Counted, Concerns, WellFormedEventId,
      HasAcceptedDescriptor;
    var f := Decode(w, record).value;
    assert f.outcome == Some(CreatedEvent(id)) by { assert Creates(f.outcome.value, id); }
    assert f in GroupOf(w, records, call);
    OutcomeIsCreated(GroupOf(w, records, call), f, id);
  }

  lemma OutcomeIsCreated(g: set<Fragment>, f: Fragment, id: EventId)
    requires f in g && f.outcome == Some(CreatedEvent(id))
    requires (f.role.Output? && HasAcceptedDescriptor(g)) || AcceptedAs(f, Terminal)
    ensures Created(g, id)
  {
    hide BindsTo;
    var bound := SomeBinding(g);
    assert HasOutcome(g, CreatedEvent(id), if f.role.Output? then bound else f.toolName);
  }

  lemma CreatorsAre(w: Surroundings, record: map<string, Json>, id: string)
    requires FragmentCreates(w, record, id)
    ensures CarrierOf(record).CallOutput? || EndsTrusted(w, record)
    ensures WellFormedEventId(id)
    ensures IdentifierIn(w, CallOf(record)).Some? ==> Concerns(w, record)
  {
  }
}
