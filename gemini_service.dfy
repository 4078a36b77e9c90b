/**
 * The schedule-analysis service (services/geminiService.js): which API key
 * the module takes from the environment when it loads, how one request to
 * the Gemini model is assembled from the schedule input, the chosen planning
 * standard and the interface language, and how the reply becomes a report
 * or an error.
 */
module GeminiService {
  import opened Wrappers
  import opened Text
  import opened Browser
  import opened Js
  import Constants

  /** A key the build left unsubstituted (`__VITE…`) or a sample value (`YOUR_…`). */
  predicate IsPlaceholderKey(key: string) {
    StartsWith(key, "__VITE") || StartsWith(key, "YOUR_")
  }

  /**
   * `getApiKey()`: the first truthy of `API_KEY` and `VITE_API_KEY`, kept
   * only when it is not a placeholder. A placeholder in `API_KEY` is not
   * skipped in favour of `VITE_API_KEY`: it makes the key missing.
   */
  function GetApiKey(env: Env): (r: Option<string>)
    ensures r.Some? ==> r.value != "" && !IsPlaceholderKey(r.value)
    ensures Filled(Lookup(env, "API_KEY")) ==>
      r == (if IsPlaceholderKey(env["API_KEY"]) then None else Some(env["API_KEY"]))
    ensures !Filled(Lookup(env, "API_KEY")) ==>
      r == (if Filled(Lookup(env, "VITE_API_KEY")) && !IsPlaceholderKey(env["VITE_API_KEY"])
            then Some(env["VITE_API_KEY"]) else None)
  {
    var key := Or(Lookup(env, "API_KEY"), Lookup(env, "VITE_API_KEY"));
    if Filled(key) && !IsPlaceholderKey(key.value) then key else None
  }

  /** The SDK client, made with the key the module found. */
  datatype GeminiClient = GeminiClient(apiKey: string)

  /** What the module holds once loaded: the key, and a client exactly when there is a key. */
  datatype Service = Service(apiKey: Option<string>, client: Option<GeminiClient>)

  /** Loading the module: the key is read once and the client is made from it. */
  function Load(env: Env): (s: Service)
    ensures s.apiKey == GetApiKey(env)
    ensures s.client.Some? <==> s.apiKey.Some?
    ensures s.client.Some? ==> s.client.value.apiKey == s.apiKey.value
  {
    var key := GetApiKey(env);
    Service(key, if key.Some? then Some(GeminiClient(key.value)) else None)
  }

  /** `isAnyModelConfigured()`: `!!apiKey`. */
  function IsAnyModelConfigured(env: Env): (b: bool)
    ensures b <==> Load(env).client.Some?
  {
    Filled(Load(env).apiKey)
  }

  /** The model every analysis is sent to. */
  const ModelId := "gemini-2.5-flash"

  /** The reply format the request asks for. */
  const JsonMimeType := "application/json"

  /** The standard named when the id matches none of the planning standards. */
  const FallbackStandardName := "General Best Practices"

  /** `standards.find(s => s.id === id)` */
  function FindStandard(standards: seq<Constants.PlanningStandard>, id: string): (r: Option<Constants.PlanningStandard>)
    ensures r.None? <==> forall k | 0 <= k < |standards| :: standards[k].id != id
    ensures r.Some? ==> exists k | 0 <= k < |standards| ::
      standards[k] == r.value && r.value.id == id && forall j | 0 <= j < k :: standards[j].id != id
  {
    if standards == [] then None
    else if standards[0].id == id then
      assert standards[0] == standards[0];
      Some(standards[0])
    else
      var r := FindStandard(standards[1..], id);
      assert forall k | 1 <= k < |standards| :: standards[k] == standards[1..][k - 1];
      r
  }

  /** The English name of the standard the analysis is checked against. */
  function StandardName(standardId: string): string {
    var found := FindStandard(Constants.PlanningStandards, standardId);
    if found.Some? then found.value.name.en else FallbackStandardName
  }

  /**
   * A known standard id gives that standard's English name; any other id
   * gives the fallback, which is the name of the `general` standard, so an
   * unknown id is analysed as `general` is.
   */
  lemma StandardNameChoice(standardId: string, k: nat)
    requires k < |Constants.PlanningStandards|
    ensures Constants.PlanningStandards[k].id == standardId ==>
      StandardName(standardId) == Constants.PlanningStandards[k].name.en
    ensures (forall j | 0 <= j < |Constants.PlanningStandards| :: Constants.PlanningStandards[j].id != standardId) ==>
      StandardName(standardId) == StandardName("general")
  {
    Constants.PlanningStandardsWellFormed();
    var found := FindStandard(Constants.PlanningStandards, "general");
    assert Constants.PlanningStandards[4].id == "general";
    assert found.Some?;
  }

  /** The instruction fixing the language of the reply, by interface language code. */
  function LanguageInstruction(language: string): string {
    if language == "ar" then
      "You must respond in Arabic (Professional Engineering/Contractual Arabic). The output JSON keys must remain in English, but the values (summary, findings, etc.) should be in Arabic."
    else
      "You must respond in Professional Engineering English."
  }

  /** The fixed text of the system instruction around the standard name and the language instruction. */
  const InstructionHead := "You are a Seasoned Expert in Project Management and Scheduling Quality Assurance, working for a top-tier Project Management Consultancy (PMC).\n    Your task is to review project schedules with extreme scrutiny against '"
  const InstructionAfterName := "' and general industry best practices (CPM, PMI).\n\n    "
  const InstructionAfterLanguage := "\n\n    ### Objectives:\n    1. **Comprehensive Schedule Analysis**: deeply evaluate the provided schedule data (text, log, or visual Gantt) for:\n       - **Logic Integrity**: Open ends, lags/leads abuse, circular logic.\n       - **Timeline Accuracy**: Unrealistic durations, constraints usage (Hard vs Soft), float analysis (High Float/Negative Float).\n       - **Completeness**: Missing baselines, resource loading issues (if visible), WBS structure.\n    \n    2. **Non-Compliance Detection**: Explicitly flag any deviation from '"
  const InstructionTail := "'. If the standard is DCMA 14-Point, specifically look for those 14 metrics.\n    \n    3. **Decision Support**: Provide a \"Risk Assessment\" level (Low/Medium/High) based on the overall health of the schedule.\n    \n    4. **Professional Output**:\n       - Generate **Strategic Recommendations** to improve the schedule health.\n       - Draft a **Formal Contractor Note/Letter** that is stern, contractual, and actionable, rejecting the submission if major flaws exist.\n\n    ### Output Format:\n    Return ONLY a raw JSON object (no markdown) with this structure:\n    {\n        \"summary\": \"Executive summary of the schedule quality and major status.\",\n        \"riskLevel\": \"High\" | \"Medium\" | \"Low\",\n        \"riskAssessment\": \"A brief paragraph justifying the risk level based on float, logic, and critical path health.\",\n        \"findings\": [\"Specific technical observation 1\", \"Specific technical observation 2\"],\n        \"nonCompliance\": [\"Deviation from standard 1\", \"Deviation from standard 2\"],\n        \"recommendations\": [\"Actionable advice 1\", \"Actionable advice 2\"],\n        \"contractorNote\": \"The full text of the formal letter to the contractor.\"\n    }"

  /** A template with two slots filled: `name` twice and `lang` once. */
  function FillTemplate(head: string, name: string, afterName: string, lang: string, afterLang: string, tail: string): string {
    head + name + afterName + lang + afterLang + name + tail
  }

  /** Each filled slot holds its value at its own offset. */
  lemma FillTemplateSlots(head: string, name: string, afterName: string, lang: string, afterLang: string, tail: string)
    ensures var s := FillTemplate(head, name, afterName, lang, afterLang, tail);
      var l := |head| + |name| + |afterName|;
      var n := l + |lang| + |afterLang|;
      && OccursAt(s, name, |head|)
      && OccursAt(s, lang, l)
      && OccursAt(s, name, n)
  {
    var s := FillTemplate(head, name, afterName, lang, afterLang, tail);
    var l := |head| + |name| + |afterName|;
    var n := l + |lang| + |afterLang|;
    assert s[|head|..|head| + |name|] == name;
    assert s[l..l + |lang|] == lang;
    assert s[n..n + |name|] == name;
  }

  /** The system instruction, with the standard named twice and the language instruction once. */
  function SystemInstruction(standardName: string, langInstruction: string): string {
    FillTemplate(InstructionHead, standardName, InstructionAfterName, langInstruction,
      InstructionAfterLanguage, InstructionTail)
  }

  /**
   * The system instruction names the standard in the role paragraph and in
   * the non-compliance objective, and carries the language instruction
   * between them.
   */
  lemma SystemInstructionCarries(standardName: string, langInstruction: string)
    ensures var s := SystemInstruction(standardName, langInstruction);
      var l := |InstructionHead| + |standardName| + |InstructionAfterName|;
      var n := l + |langInstruction| + |InstructionAfterLanguage|;
      && OccursAt(s, standardName, |InstructionHead|)
      && OccursAt(s, langInstruction, l)
      && OccursAt(s, standardName, n)
  {
    FillTemplateSlots(InstructionHead, standardName, InstructionAfterName, langInstruction,
      InstructionAfterLanguage, InstructionTail);
  }

  /** One part of the request's content. */
  datatype Part =
    | InlineData(mimeType: string, data: string)
    | TextPart(text: string)

  /** The prompt sent beside an image. */
  const ImagePrompt := "Perform a deep forensic analysis of this schedule screenshot/chart."

  /** The text that introduces schedule data sent as text. */
  const TextPromptPrefix := "Here is the schedule data/narrative for analysis:\n\n"

  /** The separator between a data URL's header and its base64 payload. */
  const Marker := "base64,"

  /** The part of `s` before an index is free of an occurrence that `s` has nowhere before that index. */
  lemma PrefixOccurrence(s: string, pat: string, j: nat, p: int)
    requires j <= |s|
    requires OccursAt(s[..j], pat, p)
    ensures OccursAt(s, pat, p)
  {
    assert s[..j][p..p + |pat|] == s[p..p + |pat|];
  }

  /**
   * `r` is what `split(Marker)[1]` gives when the first marker is at `i`: it
   * follows that marker, holds no marker, and is followed by a marker or the end.
   */
  predicate SegmentAfter(inputData: string, i: int, r: string) {
    var e := i + |Marker| + |r|;
    && OccursAt(inputData, Marker + r, i)
    && !Contains(r, Marker)
    && (e == |inputData| || OccursAt(inputData, Marker, e))
  }

  /** Two adjacent occurrences make one occurrence of the concatenation. */
  lemma OccursAtConcat(s: string, a: string, b: string, i: int)
    requires OccursAt(s, a, i) && OccursAt(s, b, i + |a|)
    ensures OccursAt(s, a + b, i)
  {
    assert s[i..i + |a| + |b|] == s[i..i + |a|] + s[i + |a|..i + |a| + |b|];
  }

  /** An occurrence in a suffix is an occurrence in the whole string, shifted. */
  lemma OccursAtSuffix(s: string, k: nat, pat: string, p: int)
    requires k <= |s| && OccursAt(s[k..], pat, p)
    ensures OccursAt(s, pat, k + p)
  {
    assert s[k..][p..p + |pat|] == s[k + p..k + p + |pat|];
  }

  /** The text before the first occurrence of the marker holds no marker. */
  lemma NoMarkerBeforeFirst(rest: string, j: nat)
    requires j <= |rest|
    requires forall p :: 0 <= p < j ==> !OccursAt(rest, Marker, p)
    ensures !Contains(rest[..j], Marker)
  {
    forall p | 0 <= p <= |rest[..j]| - |Marker| ensures !OccursAt(rest[..j], Marker, p) {
      if OccursAt(rest[..j], Marker, p) {
        PrefixOccurrence(rest, Marker, j, p);
      }
    }
  }

  /** The text after the marker at `i`, cut at the next marker `j` of that text, if any. */
  lemma SegmentAfterMarker(inputData: string, i: nat, j: int)
    requires OccursAt(inputData, Marker, i)
    requires j == IndexOf(inputData[i + |Marker|..], Marker)
    ensures var rest := inputData[i + |Marker|..];
      SegmentAfter(inputData, i, if j < 0 then rest else rest[..j])
  {
    var k := i + |Marker|;
    var rest := inputData[k..];
    var r := if j < 0 then rest else rest[..j];
    assert OccursAt(inputData, r, k) by {
      assert inputData[k..k + |r|] == r;
    }
    OccursAtConcat(inputData, Marker, r, i);
    if j >= 0 {
      NoMarkerBeforeFirst(rest, j);
      OccursAtSuffix(inputData, k, Marker, j);
    }
  }

  /**
   * `inputData.includes('base64,') ? inputData.split('base64,')[1] : inputData`:
   * the text after the first marker, up to the next marker or the end.
   */
  function Base64Payload(inputData: string): (r: string)
    ensures !Contains(inputData, Marker) ==> r == inputData
    ensures Contains(inputData, Marker) ==> SegmentAfter(inputData, IndexOf(inputData, Marker), r)
  {
    var i := IndexOf(inputData, Marker);
    if i < 0 then inputData
    else
      var rest := inputData[i + |Marker|..];
      var j := IndexOf(rest, Marker);
      SegmentAfterMarker(inputData, i, j);
      if j < 0 then rest else rest[..j]
  }

  /** A string without a comma cannot hold the marker, whose last character is a comma. */
  lemma NoCommaNoMarker(s: string)
    requires forall k | 0 <= k < |s| :: s[k] != ','
    ensures !Contains(s, Marker)
  {
    forall p | 0 <= p <= |s| - |Marker| ensures !OccursAt(s, Marker, p) {
      assert s[p + 6] != Marker[6];
    }
  }

  /**
   * The payload of a base64 data URL `data:<mime>;base64,<payload>`, as a file
   * reader produces it, is what the request carries: the header is dropped
   * exactly, since neither the media type nor the base64 alphabet holds a comma.
   */
  lemma DataUrlPayload(mime: string, payload: string)
    requires forall k | 0 <= k < |mime| :: mime[k] != ','
    requires forall k | 0 <= k < |payload| :: payload[k] != ','
    ensures Base64Payload("data:" + mime + ";" + Marker + payload) == payload
  {
    var h := "data:" + mime + ";";
    var input := h + Marker + payload;
    assert forall k | 0 <= k < |h| :: h[k] != ',';
    assert OccursAt(input, Marker, |h|) by {
      assert input[|h|..|h| + |Marker|] == Marker;
    }
    forall p | 0 <= p < |h| ensures !OccursAt(input, Marker, p) {
      if p + 6 < |h| {
        assert input[p + 6] == h[p + 6];
      } else {
        assert input[p + 6] == Marker[p + 6 - |h|];
      }
    }
    assert IndexOf(input, Marker) == |h|;
    assert input[|h| + |Marker|..] == payload;
    NoCommaNoMarker(payload);
  }

  /** The content parts: the image and a prompt, or the text after its introduction. */
  function BuildParts(inputData: string, isImage: bool): (parts: seq<Part>)
    ensures isImage ==>
      && |parts| == 2 && parts[0].InlineData? && parts[0].mimeType == "image/png"
      && parts[0].data == Base64Payload(inputData) && parts[1] == TextPart(ImagePrompt)
    ensures !isImage ==>
      && |parts| == 1 && parts[0].TextPart?
      && StartsWith(parts[0].text, TextPromptPrefix)
      && parts[0].text[|TextPromptPrefix|..] == inputData
  {
    if isImage then [InlineData("image/png", Base64Payload(inputData)), TextPart(ImagePrompt)]
    else [TextPart(TextPromptPrefix + inputData)]
  }

  /** The `generateContent` request: model, contents and configuration. */
  datatype GenerateRequest = GenerateRequest(
    model: string, parts: seq<Part>, systemInstruction: string, responseMimeType: string)

  /** The request `analyzeSchedule` sends for its arguments. */
  function BuildRequest(inputData: string, isImage: bool, standardId: string, language: string): GenerateRequest {
    GenerateRequest(
      ModelId,
      BuildParts(inputData, isImage),
      SystemInstruction(StandardName(standardId), LanguageInstruction(language)),
      JsonMimeType)
  }

  /** Why an analysis produced no report. */
  datatype AnalysisError =
    | ClientNotInitialized
    | RequestFailed(message: string)
    | ParseFailed
  {
    /** The message of the error `analyzeSchedule` throws. */
    function Message(): string {
      match this
      case ClientNotInitialized => "Gemini client not initialized."
      case RequestFailed(m) => m
      case ParseFailed => "Failed to parse analysis results."
    }
  }

  /**
   * `analyzeSchedule(inputData, isImage, standardId, language)`. The SDK call
   * is `generate`: it fails with a message, or answers with the reply's text,
   * which may be missing. `JSON.parse` is `parse`: `None` where it throws.
   * A missing text is parsed as the string "undefined", which never parses.
   */
  function AnalyzeSchedule(
    service: Service, inputData: string, isImage: bool, standardId: string, language: string,
    generate: (GeminiClient, GenerateRequest) -> Result<Option<string>, string>,
    parse: string -> Option<Value>): (r: Result<Value, AnalysisError>)
    ensures service.client.None? ==> r == Failure(ClientNotInitialized)
    ensures service.client.Some? ==>
      var reply := generate(service.client.value, BuildRequest(inputData, isImage, standardId, language));
      && (reply.Failure? ==> r == Failure(RequestFailed(reply.error)))
      && (reply.Success? && reply.value.None? ==> r == Failure(ParseFailed))
      && (reply.Success? && reply.value.Some? ==>
            (r.Success? <==> parse(reply.value.value).Some?)
            && (r.Success? ==> Some(r.value) == parse(reply.value.value))
            && (r.Failure? ==> r.error == ParseFailed))
    ensures r.Success? ==> service.client.Some?
  {
    if service.client.None? then Failure(ClientNotInitialized)
    else
      var reply := generate(service.client.value, BuildRequest(inputData, isImage, standardId, language));
      if reply.Failure? then Failure(RequestFailed(reply.error))
      else if reply.value.None? then Failure(ParseFailed)
      else
        var parsed := parse(reply.value.value);
        if parsed.Some? then Success(parsed.value) else Failure(ParseFailed)
  }
}
