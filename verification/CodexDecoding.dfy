/** Decoding one Codex rollout record into an evidence fragment, and the cheap test for it. */
module CodexDecoding {
  import opened Common
  import opened CodexEvidence

  /** The only tools whose responses may donate an event id, under their present and their former names. */
  const CREATION_TOOLS: set<string> := {
    "agentacct_record_event", "agentacct_attach_client_context", "agentacct_record_section",
    "agentacct_record_agent_usage_debug", "agentacct_record_machine_check",
    "sentinel_record_event", "sentinel_attach_client_context", "sentinel_record_section",
    "sentinel_record_agent_usage_debug", "sentinel_record_machine_check" }

  /** The server names installs register or registered, as Codex writes them. */
  const ACCEPTED_NAMESPACES: set<string> := {
    "agentacct", "agent-chronicle", "agent_chronicle", "agent-sentinel", "agent_sentinel" }

  /** What the JSON parser makes of a text. */
  datatype Parsed = Value(json: Json) | NotJson | TooDeep

  /** Text-level primitives: the parser, character classes, case, trimming, and the patterns that locate an error in a text. */
  datatype Surroundings = Surroundings(
    printable: string -> bool,
    parse: string -> Parsed,
    lower: string -> string,
    strip: string -> string,
    wordChar: char -> bool,
    argumentNames: set<string>,
    errorMessage: string -> Option<string>,
    failedTool: string -> Option<string>,
    boundsBytes: string -> bool,
    boundsCharacters: string -> bool,
    boundsAbove: string -> bool,
    boundsBelow: string -> bool)

  const TEXT_MAX: nat := 1_000_000

  // ---------- Refusals ----------

  /** The text after the first occurrence of a part. */
  function AfterFirst(text: string, part: string): Option<string>
    decreases |text|
  {
    if part <= text then Some(text[|part|..]) else if text == "" then None else AfterFirst(text[1..], part)
  }

  predicate Contains(text: string, part: string) { AfterFirst(text, part).Some? }

  // How the server words its refusals, and the codes they get.
  const UNEXPECTED := "unexpected argument(s):"
  const MISSING := "missing required argument:"
  const UNKNOWN_RUN := "unknown run_id:"
  const NO_RUNS := "no runs found"
  const RELATIVE := "must be project-relative"
  const NORMALIZED := "must be a normalized project-relative path"
  const TOGETHER := "must be supplied together"
  const JOIN_HINT := "needs at least one join hint"
  const ONE_OF := "must be one of"
  const BE_A := "must be a"
  const BE_AN := "must be an"
  const RESOLUTION := "a blocker resolution requires"

  const UNKNOWN_ARGUMENT := "unknown_argument"
  const MISSING_ARGUMENT := "missing_argument"
  const UNKNOWN_RUN_ID := "unknown_run_id"
  const NO_RUNS_CODE := "no_runs"
  const NOT_RELATIVE := "files_not_project_relative"
  const OVER_SIZE := "metadata_over_size"
  const OVER_LENGTH := "narrative_over_limit"
  const OVER_LIMIT := "value_over_limit"
  const UNDER_LIMIT := "value_under_limit"
  const INCOMPLETE := "incomplete_argument_group"
  const INVALID := "invalid_argument"
  const OTHER := "other"

  /** `_refusal_reason_code`. */
  function ReasonCode(w: Surroundings, message: string): (code: string)
    ensures code != ""
  {
    var lowered := w.lower(message);
    if UNEXPECTED <= lowered then UNKNOWN_ARGUMENT
    else if MISSING <= lowered then MISSING_ARGUMENT
    else if UNKNOWN_RUN <= lowered then UNKNOWN_RUN_ID
    else if lowered == NO_RUNS then NO_RUNS_CODE
    else if Contains(lowered, RELATIVE) || Contains(lowered, NORMALIZED) then NOT_RELATIVE
    else if w.boundsBytes(lowered) then OVER_SIZE
    else if w.boundsCharacters(lowered) then OVER_LENGTH
    else if w.boundsAbove(lowered) then OVER_LIMIT
    else if w.boundsBelow(lowered) then UNDER_LIMIT
    else if Contains(lowered, TOGETHER) || Contains(lowered, JOIN_HINT) then INCOMPLETE
    else if Contains(lowered, ONE_OF) || Contains(lowered, BE_A) || Contains(lowered, BE_AN) then INVALID
    else if RESOLUTION <= lowered then INCOMPLETE
    else OTHER
  }

  predicate FieldChar(c: char) { 'a' <= c <= 'z' || '0' <= c <= '9' || c == '_' }

  /** How many characters of a field name a text begins with. */
  function FieldRun(text: string): (n: nat)
    ensures n <= |text|
    decreases |text|
  {
    if text == "" || !FieldChar(text[0]) then 0 else 1 + FieldRun(text[1..])
  }

  /** The leading field name, if it starts with a letter and ends at a word boundary. */
  function LeadingField(w: Surroundings, text: string): (field: Option<string>)
    ensures field != Some("")
  {
    var n := FieldRun(text);
    if n > 0 && 'a' <= text[0] <= 'z' && (n == |text| || !w.wordChar(text[n])) then Some(text[..n]) else None
  }

  function Drop(text: string, n: nat): string { if n <= |text| then text[n..] else "" }

  /** `_refusal_field_name`. */
  function FieldName(w: Surroundings, message: string, code: string): (field: Option<string>)
    ensures field != Some("")
  {
    if code == UNKNOWN_RUN_ID then Some("run_id")
    else
      var remainder := if code == UNKNOWN_ARGUMENT then Drop(message, |UNEXPECTED|)
                       else if code == MISSING_ARGUMENT then Drop(message, |MISSING|)
                       else message;
      var field := LeadingField(w, w.strip(remainder));
      if field.Some? && field.value in w.argumentNames then field else None
  }

  /** `classify_refused_recording` for a text alone. */
  function ClassifyRefusal(w: Surroundings, text: string): Option<Refusal> {
    if text == "" then None
    else match w.errorMessage(text)
      case None => None
      case Some(message) =>
        if message == "" then None
        else
          var code := ReasonCode(w, message);
          var tool := w.failedTool(text);
          Some(Refusal(if tool.Some? && tool.value in CREATION_TOOLS then tool else None, FieldName(w, message, code), code))
  }

  // ---------- Outcomes ----------

  /** `extract_created_event_id_from_payload`. */
  function CreatedIdIn(payload: Json): Option<EventId> {
    match payload
    case JObject(fields) =>
      (match Get(fields, "event")
       case JObject(event) =>
         var id := Get(event, "event_id");
         if Get(fields, "events").JArray? || Get(fields, "runs").JArray? then None
         else if id.JString? && WellFormedEventId(id.s) then Some(id.s) else None
       case _ => None)
    case _ => None
  }

  function Success(id: Option<EventId>): Outcome { if id.Some? then CreatedEvent(id.value) else Malformed }

  function SuccessOutcome(w: Surroundings, text: string): Outcome {
    if |text| > TEXT_MAX then Malformed
    else match w.parse(text)
      case Value(json) => Success(CreatedIdIn(json))
      case NotJson => Malformed
      case TooDeep => Malformed
  }

  /** `_codex_failure_outcome_from_refusal`: an embedded tool name must not contradict the carrier's. */
  function FailureFrom(refusal: Refusal, tool: Option<string>): Outcome {
    if refusal.tool.Some? && tool.Some? && refusal.tool != tool then Malformed
    else Failed(Some(refusal.(tool := if refusal.tool.Some? && refusal.tool.value != "" then refusal.tool else tool)))
  }

  function FailureOutcome(w: Surroundings, text: Json, tool: Option<string>): Outcome {
    if !text.JString? || text.s == "" then Malformed
    else if |text.s| > TEXT_MAX then Failed(None)
    else match ClassifyRefusal(w, text.s)
      case None => Failed(None)
      case Some(refusal) => FailureFrom(refusal, tool)
  }

  function SingleTextBlock(content: Json): Option<string> {
    if !content.JArray? || |content.items| != 1 || !content.items[0].JObject? then None
    else
      var block := content.items[0].fields;
      var text := Get(block, "text");
      if Get(block, "type") == JString("text") && text.JString? && text.s != "" then Some(text.s) else None
  }

  predicate HasAny(fields: map<string, Json>, keys: set<string>) { exists key :: key in keys && key in fields }

  /** A direct tool result. */
  function DecodeCallResult(w: Surroundings, fields: map<string, Json>, tool: Option<string>): Outcome {
    var isError := if "isError" in fields then fields["isError"] else JBool(false);
    var text := SingleTextBlock(Get(fields, "content"));
    if HasAny(fields, {"Ok", "Err", "error", "message"}) || !isError.JBool? || text.None? then Malformed
    else if isError.b then FailureOutcome(w, JString(text.value), tool)
    else SuccessOutcome(w, text.value)
  }

  /** The `Ok`/`Err` envelope, or a direct result. */
  function DecodeResult(w: Surroundings, value: Json, tool: Option<string>): Outcome {
    match value
    case JObject(fields) =>
      var direct := HasAny(fields, {"content", "isError", "message", "error"});
      if "Ok" in fields then
        if "Err" in fields || direct then Malformed
        else (match fields["Ok"] case JObject(nested) => DecodeCallResult(w, nested, tool) case _ => Malformed)
      else if "Err" in fields then if direct then Malformed else FailureOutcome(w, fields["Err"], tool)
      else if HasAny(fields, {"message", "error"}) then Malformed
      else if HasAny(fields, {"content", "isError"}) then DecodeCallResult(w, fields, tool)
      else Malformed
    case _ => Malformed
  }

  /** The error field of a failed paginated call. */
  function DecodeError(w: Surroundings, value: Json, tool: Option<string>): Outcome {
    match value
    case JObject(fields) =>
      if HasAny(fields, {"Ok", "Err", "content", "isError"}) then Malformed else FailureOutcome(w, Get(fields, "message"), tool)
    case _ => Malformed
  }

  /** What a candidate text that parses means. */
  function DecodeParsed(w: Surroundings, parsed: Json): Outcome {
    match parsed
    case JArray(_) =>
      (match SingleTextBlock(parsed)
       case None => Malformed
       case Some(text) =>
         match ClassifyRefusal(w, text)
         case Some(refusal) => FailureFrom(refusal, None)
         case None => SuccessOutcome(w, text))
    case JObject(fields) =>
      if HasAny(fields, {"Ok", "Err", "content", "isError"}) then
        if "event" in fields then Malformed else DecodeResult(w, parsed, None)
      else if CreatedIdIn(parsed).Some? then Success(CreatedIdIn(parsed))
      else if HasAny(fields, {"error", "message"}) then DecodeResult(w, parsed, None)
      else Malformed
    case _ => Malformed
  }

  /** The first candidate that is JSON decides; None when none is. */
  function DecodeCandidates(w: Surroundings, candidates: seq<string>): Option<Outcome>
    decreases |candidates|
  {
    if candidates == [] then None
    else match w.parse(candidates[0])
      case TooDeep => Some(Malformed)
      case NotJson => DecodeCandidates(w, candidates[1..])
      case Value(json) => Some(DecodeParsed(w, json))
  }

  /** The value of a split function-call output; its tool is known only from the descriptor. */
  function DecodeOutput(w: Surroundings, value: Json): Outcome {
    if value.JObject? then DecodeResult(w, value, None)
    else if !value.JString? || value.s == "" || |value.s| > TEXT_MAX then Malformed
    else
      var inner := AfterFirst(value.s, "Output:\n");
      match DecodeCandidates(w, (if inner.Some? then [inner.value] else []) + [value.s])
      case Some(outcome) => outcome
      case None =>
        match ClassifyRefusal(w, value.s)
        case Some(refusal) => FailureFrom(refusal, None)
        case None => Unknown
  }

  // ---------- Fragments ----------

  /** `validated_codex_identifier` with its default bound. */
  function Validated(w: Surroundings, value: Json): Option<string> {
    if value.JString? && value.s != "" && |value.s| <= 240 && w.printable(value.s) then Some(value.s) else None
  }

  /** `codex_namespace_matches_sentinel`. */
  predicate NamespaceMatches(space: Json) {
    || space.JNull?
    || (space.JString? && (if "mcp__" <= space.s then space.s[|"mcp__"|..] else space.s) in ACCEPTED_NAMESPACES)
  }

  function ClassifyFunctionCall(name: Json, space: Json): Option<Verdict> {
    if !name.JString? || name.s !in CREATION_TOOLS then None else if NamespaceMatches(space) then Some(Accepted) else Some(Rejected)
  }

  function ClassifyMcp(server: Json, tool: Option<string>): Option<Verdict> {
    if tool.None? || tool.value !in CREATION_TOOLS then None
    else if server.JNull? then Some(Rejected)
    else if NamespaceMatches(server) then Some(Accepted) else Some(Rejected)
  }

  function Drifted(callId: Option<string>, verdict: Option<Verdict>, tool: Option<string>): Fragment {
    Fragment(callId, Terminal, verdict, tool, None, true, true)
  }

  function DescriptorFragment(w: Surroundings, payload: map<string, Json>): Option<Fragment> {
    var verdict := ClassifyFunctionCall(Get(payload, "name"), Get(payload, "namespace"));
    var callId := Validated(w, Get(payload, "call_id"));
    if verdict.None? then None
    else Some(Fragment(callId, Descriptor, verdict, Validated(w, Get(payload, "name")), None, callId.None?, callId.None?))
  }

  function OutputFragment(w: Surroundings, payload: map<string, Json>): Option<Fragment> {
    var callId := Validated(w, Get(payload, "call_id"));
    var outcome := DecodeOutput(w, Get(payload, "output"));
    if callId.None? then None else Some(Fragment(callId, Output, None, None, Some(outcome), false, outcome.Malformed?))
  }

  predicate IdentityDrift(callId: Option<string>, server: Json) {
    callId.None? || !server.JString? || server.s == ""
  }

  function CompletedFragment(w: Surroundings, callId: Option<string>, tool: string, result: Json, drift: bool): Fragment {
    var outcome := DecodeResult(w, result, Some(tool));
    Fragment(callId, Terminal, Some(Accepted), Some(tool), Some(outcome), callId.None? || !outcome.CreatedEvent?,
             drift || outcome.Malformed?)
  }

  function FailedFragment(
    w: Surroundings, callId: Option<string>, tool: string, error: Json, result: Json, drift: bool): Fragment
  {
    var decoded :=
      if error.JNull? == result.JNull? then Malformed
      else if result.JNull? then DecodeError(w, error, Some(tool)) else DecodeResult(w, result, Some(tool));
    var outcome := if decoded.Failed? then decoded else Malformed;
    Fragment(callId, Terminal, Some(Accepted), Some(tool), Some(outcome), true, drift || outcome.Malformed?)
  }

  function BrokenFragment(callId: Option<string>, tool: string): Fragment {
    Fragment(callId, Terminal, Some(Accepted), Some(tool), Some(Malformed), true, true)
  }

  function LegacyFragment(w: Surroundings, payload: map<string, Json>): Option<Fragment> {
    var callId := Validated(w, Get(payload, "call_id"));
    match Get(payload, "invocation")
    case JObject(invocation) =>
      var tool := Validated(w, Get(invocation, "tool"));
      var server := Get(invocation, "server");
      if tool.None? then Some(Drifted(callId, None, None))
      else (match ClassifyMcp(server, tool)
        case None => None
        case Some(Rejected) =>
          Some(Fragment(callId, Terminal, Some(Rejected), tool, None, true, IdentityDrift(callId, server)))
        case Some(Accepted) =>
          Some(CompletedFragment(w, callId, tool.value, Get(payload, "result"), IdentityDrift(callId, server))))
    case _ => Some(Drifted(callId, None, None))
  }

  function PaginatedFragment(w: Surroundings, payload: map<string, Json>): Option<Fragment> {
    match Get(payload, "item")
    case JObject(item) =>
      var callId := Validated(w, Get(item, "id"));
      var tool := Validated(w, Get(item, "tool"));
      var server := Get(item, "server");
      var verdict := ClassifyMcp(server, tool);
      if Get(item, "type") != JString("McpToolCall") then
        if verdict.None? then None else Some(Drifted(callId, verdict, tool))
      else if tool.None? then Some(Drifted(callId, None, None))
      else (match verdict
        case None => None
        case Some(Rejected) =>
          Some(Fragment(callId, Terminal, Some(Rejected), tool, None, true, IdentityDrift(callId, server)))
        case Some(Accepted) =>
          var error, result := Get(item, "error"), Get(item, "result");
          Some(
            if Get(item, "status") == JString("completed") then
              if !error.JNull? then BrokenFragment(callId, tool.value)
              else CompletedFragment(w, callId, tool.value, result, IdentityDrift(callId, server))
            else if Get(item, "status") == JString("failed") then
              if !error.JNull? && !result.JNull? then BrokenFragment(callId, tool.value)
              else FailedFragment(w, callId, tool.value, error, result, IdentityDrift(callId, server))
            else BrokenFragment(callId, tool.value)))
    case _ => Some(Drifted(None, None, None))
  }

  /** A fragment found under the wrong record type keeps no authority. */
  function UnderType(f: Option<Fragment>, recordType: Json, expected: string): Option<Fragment> {
    if f.None? || recordType == JString(expected) then f
    else Some(f.value.(countsAsSkip := f.value.countsAsSkip || !f.value.role.Output?, drift := true))
  }

  /** `decode_codex_evidence_fragment`. */
  function Decode(w: Surroundings, record: map<string, Json>): Option<Fragment> {
    match Get(record, "payload")
    case JObject(payload) =>
      var kind, recordType := Get(payload, "type"), Get(record, "type");
      if kind == JString("function_call") then UnderType(DescriptorFragment(w, payload), recordType, "response_item")
      else if kind == JString("function_call_output") then UnderType(OutputFragment(w, payload), recordType, "response_item")
      else if kind == JString("mcp_tool_call_end") then UnderType(LegacyFragment(w, payload), recordType, "event_msg")
      else if kind == JString("item_completed") then UnderType(PaginatedFragment(w, payload), recordType, "event_msg")
      else None
    case _ => None
  }

  /** `codex_record_may_contain_evidence`. */
  predicate MayContainEvidence(w: Surroundings, record: map<string, Json>) {
    match Get(record, "payload")
    case JObject(payload) =>
      var kind := Get(payload, "type");
      if kind == JString("function_call") then
        ClassifyFunctionCall(Get(payload, "name"), Get(payload, "namespace")).Some?
      else if kind == JString("function_call_output") then
        Validated(w, Get(payload, "call_id")).Some?
      else if kind == JString("mcp_tool_call_end") then
        (match Get(payload, "invocation")
         case JObject(invocation) =>
           var tool := Validated(w, Get(invocation, "tool"));
           tool.None? || ClassifyMcp(Get(invocation, "server"), tool).Some?
         case _ => true)
      else if kind == JString("item_completed") then
        (match Get(payload, "item")
         case JObject(item) =>
           var tool := Validated(w, Get(item, "tool"));
           if Get(item, "type") == JString("McpToolCall") then
             tool.None? || ClassifyMcp(Get(item, "server"), tool).Some?
           else ClassifyMcp(Get(item, "server"), tool).Some?
         case _ => true)
      else false
    case _ => false
  }

  /** The cheap test used once the scan cap is full misses nothing and cries wolf never. */
  lemma CheapTestIsExact(w: Surroundings, record: map<string, Json>)
    ensures MayContainEvidence(w, record) <==> Decode(w, record).Some?
  {
    hide Validated, Get, ClassifyFunctionCall, ClassifyMcp, IdentityDrift, CompletedFragment, FailedFragment;
    match Get(record, "payload") {
      case JObject(payload) =>
        match Get(payload, "invocation") {
          case JObject(_) =>
          case _ =>
        }
        match Get(payload, "item") {
          case JObject(_) =>
          case _ =>
        }
      case _ =>
    }
  }

  // ---------- No decoded part is empty ----------

  lemma RefusalsSpeakVocabulary(w: Surroundings, text: string)
    ensures NonEmptyParts(ClassifyRefusal(w, text))
  {
    hide ReasonCode, FieldName;
    assert "" !in CREATION_TOOLS;
  }

  lemma FailuresSpeak(w: Surroundings, text: Json, tool: Option<string>)
    requires tool != Some("")
    ensures NonEmptyParts(RefusalOf(FailureOutcome(w, text, tool)))
  {
    hide ClassifyRefusal;
    if text.JString? {
      RefusalsSpeakVocabulary(w, text.s);
    }
  }

  lemma SuccessesSpeak(w: Surroundings, text: string)
    ensures RefusalOf(SuccessOutcome(w, text)).None?
  {
  }

  lemma CallResultsSpeak(w: Surroundings, fields: map<string, Json>, tool: Option<string>)
    requires tool != Some("")
    ensures NonEmptyParts(RefusalOf(DecodeCallResult(w, fields, tool)))
  {
    hide FailureOutcome, SuccessOutcome, HasAny, SingleTextBlock, NonEmptyParts;
    NothingSpeaks();
    var text := SingleTextBlock(Get(fields, "content"));
    if text.Some? {
      FailuresSpeak(w, JString(text.value), tool);
      SuccessesSpeak(w, text.value);
    }
  }

  lemma NothingSpeaks()
    ensures NonEmptyParts(None)
  {
  }

  lemma ResultsSpeak(w: Surroundings, value: Json, tool: Option<string>)
    requires tool != Some("")
    ensures NonEmptyParts(RefusalOf(DecodeResult(w, value, tool)))
  {
    hide FailureOutcome, DecodeCallResult, HasAny, NonEmptyParts;
    NothingSpeaks();
    match value {
      case JObject(fields) =>
        CallResultsSpeak(w, fields, tool);
        if "Err" in fields {
          FailuresSpeak(w, fields["Err"], tool);
        }
        if "Ok" in fields && fields["Ok"].JObject? {
          CallResultsSpeak(w, fields["Ok"].fields, tool);
        }
      case _ =>
    }
  }

  lemma ErrorsSpeak(w: Surroundings, value: Json, tool: Option<string>)
    requires tool != Some("")
    ensures NonEmptyParts(RefusalOf(DecodeError(w, value, tool)))
  {
    hide FailureOutcome, HasAny, NonEmptyParts;
    NothingSpeaks();
    if value.JObject? {
      FailuresSpeak(w, Get(value.fields, "message"), tool);
    }
  }

  lemma ParsedSpeak(w: Surroundings, parsed: Json)
    ensures NonEmptyParts(RefusalOf(DecodeParsed(w, parsed)))
  {
    hide ClassifyRefusal, SuccessOutcome, DecodeResult, HasAny, SingleTextBlock;
    ResultsSpeak(w, parsed, None);
    var text := SingleTextBlock(parsed);
    if text.Some? {
      RefusalsSpeakVocabulary(w, text.value);
      SuccessesSpeak(w, text.value);
    }
  }

  lemma {:induction false} CandidatesSpeak(w: Surroundings, candidates: seq<string>)
    ensures DecodeCandidates(w, candidates).Some? ==> NonEmptyParts(RefusalOf(DecodeCandidates(w, candidates).value))
    decreases |candidates|
  {
    hide DecodeParsed, NonEmptyParts;
    NothingSpeaks();
    if candidates != [] {
      CandidatesSpeak(w, candidates[1..]);
      match w.parse(candidates[0]) {
        case Value(json) => ParsedSpeak(w, json);
        case _ =>
      }
    }
  }

  lemma OutputsSpeak(w: Surroundings, value: Json)
    ensures NonEmptyParts(RefusalOf(DecodeOutput(w, value)))
  {
    hide ClassifyRefusal, DecodeCandidates, DecodeResult, AfterFirst;
    ResultsSpeak(w, value, None);
    if value.JString? {
      var inner := AfterFirst(value.s, "Output:\n");
      CandidatesSpeak(w, (if inner.Some? then [inner.value] else []) + [value.s]);
      RefusalsSpeakVocabulary(w, value.s);
    }
  }

  /** A fragment with no empty text in its tool name or its refusal. */
  predicate Speaks(f: Fragment) { f.toolName != Some("") && NonEmptyParts(RefusalOf(Effective(f))) }

  lemma LegacySpeaks(w: Surroundings, payload: map<string, Json>)
    ensures LegacyFragment(w, payload).Some? ==> Speaks(LegacyFragment(w, payload).value)
  {
    hide DecodeResult, NonEmptyParts, ClassifyMcp, IdentityDrift;
    NothingSpeaks();
    match Get(payload, "invocation") {
      case JObject(invocation) =>
        var tool := Validated(w, Get(invocation, "tool"));
        ResultsSpeak(w, Get(payload, "result"), tool);
      case _ =>
    }
  }

  lemma PaginatedSpeaks(w: Surroundings, payload: map<string, Json>)
    ensures PaginatedFragment(w, payload).Some? ==> Speaks(PaginatedFragment(w, payload).value)
  {
    hide DecodeResult, DecodeError, NonEmptyParts, ClassifyMcp, IdentityDrift;
    NothingSpeaks();
    match Get(payload, "item") {
      case JObject(item) =>
        var tool := Validated(w, Get(item, "tool"));
        ResultsSpeak(w, Get(item, "result"), tool);
        ErrorsSpeak(w, Get(item, "error"), tool);
      case _ =>
    }
  }

  lemma SplitSpeaks(w: Surroundings, payload: map<string, Json>)
    ensures DescriptorFragment(w, payload).Some? ==> Speaks(DescriptorFragment(w, payload).value)
    ensures OutputFragment(w, payload).Some? ==> Speaks(OutputFragment(w, payload).value)
  {
    hide DecodeOutput, NonEmptyParts, ClassifyFunctionCall;
    NothingSpeaks();
    OutputsSpeak(w, Get(payload, "output"));
  }

  /** Every decoded fragment meets the assumption under which reconciliation ignores order. */
  lemma DecodedPartsAreNonEmpty(w: Surroundings, record: map<string, Json>)
    requires Decode(w, record).Some?
    ensures NoEmptyParts({Decode(w, record).value})
  {
    hide LegacyFragment, PaginatedFragment, DescriptorFragment, OutputFragment, NonEmptyParts;
    var payload := Get(record, "payload").fields;
    LegacySpeaks(w, payload);
    PaginatedSpeaks(w, payload);
    SplitSpeaks(w, payload);
    assert Speaks(Decode(w, record).value);
  }
}
