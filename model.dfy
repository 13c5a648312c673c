/**
 * The deterministic part of the backend's analysis functions (fastapi/model.py):
 * the API-key check, page joining, the text each prompt embeds, the recovery of
 * structured results from the model's free-form reply for question answering,
 * summaries and risk analysis, and the transcript sent to the chat model.
 *
 * The language model is a parameter `llm: ChatModel`, a function from the prompt
 * to its reply text; `json.loads` is a parameter `parse: JsonParser`. Every
 * property below holds for every model and every parser.
 */
module LegalModel {
  import opened Wrappers
  import opened PyText
  import opened JsonValue

  // ---------------------------------------------------------------------
  // API key
  // ---------------------------------------------------------------------

  const ApiKeyPlaceholder := "YOUR_API_KEY_HERE"

  /** The ValueError that `get_api_key` raises. */
  datatype ConfigError = ApiKeyNotSet

  /** `get_api_key`, given the value of the `API_KEY` environment variable. */
  function GetApiKey(env: Option<string>): (r: Result<string, ConfigError>)
    ensures r.Failure? <==> env == None || env == Some("") || env == Some(ApiKeyPlaceholder)
    ensures r.Success? ==> env == Some(r.value)
  {
    if env.None? || env.value == "" || env.value == ApiKeyPlaceholder then Failure(ApiKeyNotSet)
    else Success(env.value)
  }

  // ---------------------------------------------------------------------
  // Document text
  // ---------------------------------------------------------------------

  /**
   * `load_full_text`: the pages' contents joined with newlines. No pages give
   * the empty text; `n >= 1` pages give their total length plus `n - 1`
   * newlines, starting with the first page.
   */
  function LoadFullText(pages: seq<string>): (text: string)
    ensures pages == [] ==> text == ""
    ensures |pages| >= 1 ==> |text| == TotalLength(pages) + |pages| - 1 && pages[0] <= text
  {
    JoinLength("\n", pages);
    Join("\n", pages)
  }

  /** Pages without line breaks can be told apart again in the joined text. */
  lemma LoadFullTextSplits(pages: seq<string>)
    requires |pages| >= 1
    requires forall i :: 0 <= i < |pages| ==> '\n' !in pages[i]
    ensures Split(LoadFullText(pages), '\n') == pages
  {
    SplitJoin(pages, '\n');
  }

  // ---------------------------------------------------------------------
  // Prompts
  // ---------------------------------------------------------------------

  /** How much of the document the summary and risk prompts embed. */
  const DocumentTextLimit := 8000

  /**
   * What a prompt sends to the model besides its fixed wording: the retrieved
   * context and question, the head of the document, or the conversation.
   */
  datatype Prompt =
    | QnaPrompt(context: string, query: string)
    | SummaryPrompt(documentText: string)
    | RiskPrompt(documentText: string)
    | ChatPrompt(conversation: string)

  /** A chat model call: `llm.invoke(prompt).content`. */
  type ChatModel = Prompt -> string

  /** `embedded` is `full_text[:8000]`: the document verbatim when short enough, else its first 8000 characters. */
  predicate EmbedsDocumentHead(embedded: string, fullText: string) {
    && embedded <= fullText
    && |embedded| <= DocumentTextLimit
    && (|fullText| <= DocumentTextLimit ==> embedded == fullText)
    && (|fullText| > DocumentTextLimit ==> |embedded| == DocumentTextLimit)
  }

  /** `create_summary_prompt`. */
  function CreateSummaryPrompt(fullText: string): (p: Prompt)
    ensures p.SummaryPrompt? && EmbedsDocumentHead(p.documentText, fullText)
  {
    SummaryPrompt(Prefix(fullText, DocumentTextLimit))
  }

  /** `create_risk_prompt`. */
  function CreateRiskPrompt(fullText: string): (p: Prompt)
    ensures p.RiskPrompt? && EmbedsDocumentHead(p.documentText, fullText)
  {
    RiskPrompt(Prefix(fullText, DocumentTextLimit))
  }

  // ---------------------------------------------------------------------
  // Question answering
  // ---------------------------------------------------------------------

  const NoInformationAnswer := "No relevant information found in the document for this question."
  const ParseErrorAnswer := "Error: Could not parse model response as JSON."

  /** A QA result with the given answer, confidence 0.0 and no sources. */
  function ZeroConfidenceAnswer(answer: string): Json {
    JObject(map["answer" := JString(answer), "confidence" := JNumber(0.0), "sources" := JArray([])])
  }

  /** True when the raw text has a `{` somewhere before its last `}`. */
  predicate HasBraceSpan(raw: string) {
    '{' in raw && '}' in raw && Find(raw, '{') <= RFind(raw, '}')
  }

  /**
   * `raw[raw.find("{"):raw.rfind("}") + 1]`, the second parse attempt: the span from
   * the first `{` to the last `}` when there is one, and otherwise (Python's slice
   * with a -1 start) a text of at most one character that holds no `{`.
   */
  function JsonCandidate(raw: string): (c: string)
    ensures HasBraceSpan(raw) ==> c == raw[Find(raw, '{')..RFind(raw, '}') + 1]
    ensures HasBraceSpan(raw) ==> c[0] == '{' && c[|c| - 1] == '}'
    ensures !HasBraceSpan(raw) ==> c == [] || c == "}"
  {
    Slice(raw, Find(raw, '{'), RFind(raw, '}') + 1)
  }

  /**
   * The recovery chain of `answer_questions`: whole text, then the brace span,
   * then a fixed error result. It never fails: the result is always one of the
   * two parses or the error result, and the whole text is tried first.
   */
  function RecoverQa(raw: string, parse: JsonParser): (r: Json)
    ensures parse(raw).Some? ==> r == parse(raw).value
    ensures parse(raw).None? ==>
      || parse(JsonCandidate(raw)) == Some(r)
      || (parse(JsonCandidate(raw)).None? && r == ZeroConfidenceAnswer(ParseErrorAnswer))
  {
    match parse(raw)
    case Some(j) => j
    case None =>
      match parse(JsonCandidate(raw))
      case Some(j) => j
      case None => ZeroConfidenceAnswer(ParseErrorAnswer)
  }

  /**
   * `answer_questions`, given the texts of the chunks the vector store returned
   * for the query. With no hits the model is not consulted.
   */
  function AnswerQuestions(hits: seq<string>, query: string, llm: ChatModel, parse: JsonParser): (r: Json)
    ensures hits == [] ==> r == ZeroConfidenceAnswer(NoInformationAnswer)
    ensures hits != [] ==> r == RecoverQa(llm(QnaPrompt(Join("\n\n", hits), query)), parse)
  {
    if hits == [] then ZeroConfidenceAnswer(NoInformationAnswer)
    else RecoverQa(llm(QnaPrompt(Join("\n\n", hits), query)), parse)
  }

  /**
   * A JSON object reply surrounded by prose is recovered: when the text before it
   * holds no `{` and the text after it no `}`, and the whole reply is not itself
   * parsed as something else, the result is the object's own parse.
   */
  lemma QaRecoversEmbeddedObject(before: string, body: string, after: string, parse: JsonParser, v: Json)
    requires |body| >= 2 && body[0] == '{' && body[|body| - 1] == '}'
    requires '{' !in before && '}' !in after
    requires parse(body) == Some(v)
    requires parse(before + body + after) == None || parse(before + body + after) == Some(v)
    ensures RecoverQa(before + body + after, parse) == v
  {
    var raw := before + body + after;
    var i, j := |before|, |before| + |body| - 1;
    assert raw[i] == '{' && raw[j] == '}';
    assert forall k :: 0 <= k < i ==> raw[k] == before[k];
    assert forall k :: j < k < |raw| ==> raw[k] == after[k - j - 1];
    assert Find(raw, '{') == i;
    assert RFind(raw, '}') == j;
    assert raw[i..j + 1] == body;
  }

  /** QA strips no code fences, yet a fenced JSON object still comes back through the brace span. */
  lemma QaRecoversFencedObject(body: string, parse: JsonParser, v: Json)
    requires |body| >= 2 && body[0] == '{' && body[|body| - 1] == '}'
    requires parse(body) == Some(v)
    requires parse("```json\n" + body + "\n```") == None
    ensures RecoverQa("```json\n" + body + "\n```", parse) == v
  {
    QaRecoversEmbeddedObject("```json\n", body, "\n```", parse, v);
  }

  // ---------------------------------------------------------------------
  // Structured replies: fences and the non-object case
  // ---------------------------------------------------------------------

  /** The AttributeError raised when `.get` is called on a parsed value that is not a dict. */
  datatype RecoveryError = NonObjectJson

  const JsonFence := "```json"

  /**
   * `content.replace("```json", "").replace("```", "").strip()`: no fence is
   * left and neither end is whitespace, and a reply without backticks is only
   * stripped.
   */
  function StripFences(content: string): (r: string)
    ensures !Contains(r, Fence)
    ensures NoEdgeSpace(r)
    ensures '`' !in content ==> r == Strip(content)
  {
    var unfenced := RemoveAll(RemoveAll(content, JsonFence), Fence);
    PlainPassesFences(content);
    RemoveFenceComplete(RemoveAll(content, JsonFence));
    StripKeepsOut(unfenced, Fence);
    Strip(unfenced)
  }

  /** Removing both fence patterns leaves backtick-free text as it is. */
  lemma PlainPassesFences(t: string)
    ensures '`' !in t ==> RemoveAll(RemoveAll(t, JsonFence), Fence) == t
  {
    if '`' !in t {
      RemoveAllPassesPlainText(t, [], JsonFence);
      RemoveAllPassesPlainText(t, [], Fence);
      assert t + [] == t;
    }
  }

  /** A JSON text wrapped in a json fence comes out of `StripFences` as the stripped text. */
  lemma StripFencesUnwraps(t: string)
    requires '`' !in t
    ensures StripFences(JsonFence + t + Fence) == Strip(t)
  {
    var s := JsonFence + t + Fence;
    assert JsonFence <= s;
    assert s[|JsonFence|..] == t + Fence;
    assert RemoveAll(s, JsonFence) == RemoveAll(t + Fence, JsonFence);
    RemoveAllPassesPlainText(t, Fence, JsonFence);
    assert RemoveAll(Fence, JsonFence) == Fence;
    RemoveAllPassesPlainText(t, Fence, Fence);
    assert Fence[3..] == [];
    assert RemoveAll(Fence, Fence) == [];
    assert t + [] == t;
  }

  // ---------------------------------------------------------------------
  // Summaries
  // ---------------------------------------------------------------------

  const SummaryLimit := 500
  const KeyPointLimit := 4
  const NoSummary := "Unable to generate summary"
  const FallbackDocumentType := "Legal Document"
  const UnknownDocumentType := "Unknown Document"
  const GenericKeyPoints := [
    "Document establishes legal obligations",
    "Contains standard terms and conditions",
    "Defines rights and responsibilities",
    "Includes dispute resolution procedures"
  ]

  /** The dict `summarize_document` returns. */
  datatype SummaryResult = SummaryResult(summary: Json, keyPoints: Json, documentType: Json)

  predicate IsBulletMarker(c: char) {
    c == '-' || c == '•' || c == '*'
  }

  /** A line whose stripped form is non-empty and starts with `-`, a bullet or `*`. */
  predicate IsBullet(line: string) {
    var t := Strip(line);
    t != [] && IsBulletMarker(t[0])
  }

  /** Everything `r` leaves off the front of `s` is a bullet marker or a space. */
  predicate MarkersCut(s: string, r: string) {
    forall i :: 0 <= i < |s| - |r| ==> IsBulletMarker(s[i]) || s[i] == ' '
  }

  /** `line.strip().lstrip('-•* ')`: the text of a bullet line, markers and spaces removed. */
  function BulletText(line: string): (r: string)
    ensures r == [] || (!IsBulletMarker(r[0]) && r[0] != ' ')
    ensures |r| <= |Strip(line)| && r == Strip(line)[|Strip(line)| - |r|..]
    ensures MarkersCut(Strip(line), r)
  {
    TrimLeft(Strip(line), c => IsBulletMarker(c) || c == ' ')
  }

  /** The bullet texts of the lines, in order. */
  function BulletPoints(lines: seq<string>): (r: seq<string>)
    ensures |r| <= |lines|
    decreases |lines|
  {
    if lines == [] then []
    else
      var last := lines[|lines| - 1];
      BulletPoints(lines[..|lines| - 1]) + (if IsBullet(last) then [BulletText(last)] else [])
  }

  /** One more line adds its bullet text, if it is a bullet, at the end. */
  lemma BulletPointsLast(lines: seq<string>, line: string)
    ensures BulletPoints(lines + [line]) == BulletPoints(lines) + if IsBullet(line) then [BulletText(line)] else []
  {
    assert (lines + [line])[..|lines|] == lines;
  }

  /** No key point is collected exactly when no line is a bullet. */
  lemma {:induction false} BulletPointsEmpty(lines: seq<string>)
    ensures BulletPoints(lines) == [] <==> forall i :: 0 <= i < |lines| ==> !IsBullet(lines[i])
    decreases |lines|
  {
    if lines != [] {
      var init := lines[..|lines| - 1];
      BulletPointsEmpty(init);
      assert forall i :: 0 <= i < |init| ==> init[i] == lines[i];
    }
  }

  /**
   * The fallback's key points for the lines after the first: the first four bullet
   * texts, or exactly the four generic points when no line is a bullet.
   */
  function FallbackKeyPoints(lines: seq<string>): (kp: seq<string>)
    ensures 1 <= |kp| <= KeyPointLimit
    ensures (forall i :: 0 <= i < |lines| ==> !IsBullet(lines[i])) ==> kp == GenericKeyPoints
    ensures (exists i :: 0 <= i < |lines| && IsBullet(lines[i])) ==>
      kp <= BulletPoints(lines) && |kp| == if |BulletPoints(lines)| < KeyPointLimit then |BulletPoints(lines)| else KeyPointLimit
  {
    var points := BulletPoints(lines);
    BulletPointsEmpty(lines);
    Prefix(if points == [] then GenericKeyPoints else points, KeyPointLimit)
  }

  /**
   * The fallback's summary: the reply up to its first line break (possibly
   * empty), cut to 500 characters.
   */
  function FallbackSummary(reply: string): (s: string)
    ensures s <= reply && |s| <= SummaryLimit && '\n' !in s
    ensures |s| < SummaryLimit ==> s == reply || reply[|s|] == '\n'
  {
    var lines := Split(reply, '\n');
    FirstLineIsHead(reply);
    Prefix(if |lines| > 0 then lines[0] else NoSummary, SummaryLimit)
  }

  /**
   * The plain-text fallback of `summarize_document`: a summary string that is a
   * line-break-free prefix of the reply of at most 500 characters, one to four
   * key-point strings, and always the type "Legal Document".
   */
  function SummaryFallback(reply: string): (r: SummaryResult)
    ensures r.summary.JString? && r.summary.s <= reply && |r.summary.s| <= SummaryLimit && '\n' !in r.summary.s
    ensures r.keyPoints.JArray? && 1 <= |r.keyPoints.items| <= KeyPointLimit
    ensures forall i :: 0 <= i < |r.keyPoints.items| ==> r.keyPoints.items[i].JString?
    ensures r.documentType == JString(FallbackDocumentType)
    ensures r.summary == JString(FallbackSummary(reply))
    ensures r.keyPoints == Strings(FallbackKeyPoints(Split(reply, '\n')[1..]))
  {
    SummaryResult(
      JString(FallbackSummary(reply)),
      Strings(FallbackKeyPoints(Split(reply, '\n')[1..])),
      JString(FallbackDocumentType))
  }

  /** The first piece of `split('\n')` is the text before the first line break. */
  lemma FirstLineIsHead(reply: string)
    ensures var first := Split(reply, '\n')[0];
      first <= reply && '\n' !in first && (first == reply || reply[|first|] == '\n')
  {
  }

  /**
   * `summarize_document` after the model call: parse the fence-stripped reply; a
   * dict gives its fields with defaults, any other JSON value raises, and text
   * that is not JSON goes to the plain-text fallback (on the reply as received).
   */
  function SummaryFromReply(reply: string, parse: JsonParser): (r: Result<SummaryResult, RecoveryError>)
    ensures r.Failure? <==> parse(StripFences(reply)).Some? && !parse(StripFences(reply)).value.JObject?
    ensures parse(StripFences(reply)).None? ==> r == Success(SummaryFallback(reply))
    ensures parse(StripFences(reply)).Some? && parse(StripFences(reply)).value.JObject? ==>
      var m := parse(StripFences(reply)).value.fields;
      && ("summary" in m ==> r.value.summary == m["summary"])
      && ("summary" !in m ==> r.value.summary == JString(""))
      && ("key_points" in m ==> r.value.keyPoints == m["key_points"])
      && ("key_points" !in m ==> r.value.keyPoints == JArray([]))
      && ("document_type" in m ==> r.value.documentType == m["document_type"])
      && ("document_type" !in m ==> r.value.documentType == JString(UnknownDocumentType))
  {
    match parse(StripFences(reply))
    case None => Success(SummaryFallback(reply))
    case Some(JObject(m)) =>
      Success(SummaryResult(
        Get(m, "summary", JString("")),
        Get(m, "key_points", JArray([])),
        Get(m, "document_type", JString(UnknownDocumentType))))
    case Some(_) => Failure(NonObjectJson)
  }

  /**
   * `summarize_document`: one model call on the summary prompt, then the recovery
   * chain; the fallback collects the key points in a loop.
   */
  method SummarizeDocument(fullText: string, llm: ChatModel, parse: JsonParser)
    returns (r: Result<SummaryResult, RecoveryError>)
    ensures r == SummaryFromReply(llm(CreateSummaryPrompt(fullText)), parse)
  {
    var content := llm(CreateSummaryPrompt(fullText));
    var parsed := parse(StripFences(content));
    if parsed.None? {
      var lines := Split(content, '\n');
      var summary := if |lines| > 0 then lines[0] else NoSummary;
      var keyPoints := CollectKeyPoints(lines[1..]);
      if keyPoints == [] {
        keyPoints := GenericKeyPoints;
      }
      r := Success(SummaryResult(
        JString(Prefix(summary, SummaryLimit)),
        Strings(Prefix(keyPoints, KeyPointLimit)),
        JString(FallbackDocumentType)));
      assert Prefix(summary, SummaryLimit) == FallbackSummary(content);
      assert Prefix(keyPoints, KeyPointLimit) == FallbackKeyPoints(lines[1..]);
      assert r == Success(SummaryFallback(content));
    } else if parsed.value.JObject? {
      var m := parsed.value.fields;
      r := Success(SummaryResult(
        Get(m, "summary", JString("")),
        Get(m, "key_points", JArray([])),
        Get(m, "document_type", JString(UnknownDocumentType))));
    } else {
      r := Failure(NonObjectJson);
    }
  }

  /** The loop of the summary fallback: the stripped text of every bullet line, in order. */
  method CollectKeyPoints(lines: seq<string>) returns (keyPoints: seq<string>)
    ensures keyPoints == BulletPoints(lines)
  {
    keyPoints := [];
    var i := 0;
    while i < |lines|
      invariant 0 <= i <= |lines|
      invariant keyPoints == BulletPoints(lines[..i])
    {
      PrefixGrows(lines, i);
      BulletPointsLast(lines[..i], lines[i]);
      if IsBullet(lines[i]) {
        keyPoints := keyPoints + [BulletText(lines[i])];
      } else {
        AppendEmpty(keyPoints);
      }
      i := i + 1;
    }
    assert lines[..i] == lines;
  }

  /**
   * A summary object sent inside a json fence is returned field for field, with
   * a short `key_points` list left as it is (no padding to four).
   */
  lemma SummaryFencedRoundTrip(t: string, parse: JsonParser, m: map<string, Json>)
    requires '`' !in t
    requires parse(Strip(t)) == Some(JObject(m))
    requires "summary" in m && "key_points" in m && "document_type" in m
    ensures SummaryFromReply(JsonFence + t + Fence, parse)
      == Success(SummaryResult(m["summary"], m["key_points"], m["document_type"]))
  {
    var reply := JsonFence + t + Fence;
    StripFencesUnwraps(t);
    assert parse(StripFences(reply)) == Some(JObject(m));
  }

  /** A plain JSON summary object, with no backticks, comes back with its fields. */
  lemma SummaryPlainRoundTrip(t: string, parse: JsonParser, m: map<string, Json>)
    requires '`' !in t
    requires parse(Strip(t)) == Some(JObject(m))
    requires "summary" in m && "key_points" in m && "document_type" in m
    ensures SummaryFromReply(t, parse) == Success(SummaryResult(m["summary"], m["key_points"], m["document_type"]))
  {
    assert parse(StripFences(t)) == Some(JObject(m));
  }

  // ---------------------------------------------------------------------
  // Risk analysis
  // ---------------------------------------------------------------------

  /** The dict `analyze_risks` returns. */
  datatype RiskResult = RiskResult(riskLevel: Json, risks: Json)

  function RiskEntry(kind: string, description: string, severity: string, recommendation: string): Json {
    JObject(map[
      "type" := JString(kind),
      "description" := JString(description),
      "severity" := JString(severity),
      "recommendation" := JString(recommendation)])
  }

  /** The two risks the fallback reports whatever the reply says. */
  const FallbackRisks := [
    RiskEntry("General Compliance", "Document contains standard legal terms that require careful review",
      "Medium", "Conduct thorough legal review before signing"),
    RiskEntry("Liability", "Standard liability clauses present in the document",
      "Medium", "Review liability limits and ensure they are acceptable")
  ]

  predicate SignalsHighRisk(lowered: string) {
    Contains(lowered, "high risk") || Contains(lowered, "significant risk")
  }

  predicate SignalsLowRisk(lowered: string) {
    Contains(lowered, "low risk") || Contains(lowered, "minimal risk")
  }

  /** The fallback's overall level: high signals win over low ones, and anything else is medium. */
  function FallbackRiskLevel(reply: string): (level: string)
    ensures level == "high" <==> SignalsHighRisk(Lower(reply))
    ensures level == "low" <==> !SignalsHighRisk(Lower(reply)) && SignalsLowRisk(Lower(reply))
    ensures level == "medium" <==> !SignalsHighRisk(Lower(reply)) && !SignalsLowRisk(Lower(reply))
  {
    var lowered := Lower(reply);
    if SignalsHighRisk(lowered) then "high"
    else if SignalsLowRisk(lowered) then "low"
    else "medium"
  }

  /**
   * `analyze_risks` after the model call: parse the fence-stripped reply; a dict
   * gives its fields with defaults, any other JSON value raises, and text that
   * is not JSON is classified by keywords and given the two fixed risks.
   */
  function RiskFromReply(reply: string, parse: JsonParser): (r: Result<RiskResult, RecoveryError>)
    ensures r.Failure? <==> parse(StripFences(reply)).Some? && !parse(StripFences(reply)).value.JObject?
    ensures parse(StripFences(reply)).None? ==>
      r == Success(RiskResult(JString(FallbackRiskLevel(reply)), JArray(FallbackRisks)))
    ensures parse(StripFences(reply)).Some? && parse(StripFences(reply)).value.JObject? ==>
      var m := parse(StripFences(reply)).value.fields;
      && ("risk_level" in m ==> r.value.riskLevel == m["risk_level"])
      && ("risk_level" !in m ==> r.value.riskLevel == JString("medium"))
      && ("risks" in m ==> r.value.risks == m["risks"])
      && ("risks" !in m ==> r.value.risks == JArray([]))
  {
    match parse(StripFences(reply))
    case None => Success(RiskResult(JString(FallbackRiskLevel(reply)), JArray(FallbackRisks)))
    case Some(JObject(m)) =>
      Success(RiskResult(Get(m, "risk_level", JString("medium")), Get(m, "risks", JArray([]))))
    case Some(_) => Failure(NonObjectJson)
  }

  /**
   * `analyze_risks`: one model call on the risk prompt, then the recovery chain.
   * It fails only when the reply parses to something other than an object, and
   * a reply that is not JSON gives the keyword level and the two fixed risks.
   */
  function AnalyzeRisks(fullText: string, llm: ChatModel, parse: JsonParser): (r: Result<RiskResult, RecoveryError>)
    ensures var reply := llm(CreateRiskPrompt(fullText));
      && (r.Failure? <==> parse(StripFences(reply)).Some? && !parse(StripFences(reply)).value.JObject?)
      && (parse(StripFences(reply)).None? ==>
        r == Success(RiskResult(JString(FallbackRiskLevel(reply)), JArray(FallbackRisks))))
      && (parse(StripFences(reply)).Some? && parse(StripFences(reply)).value.JObject? ==>
        var m := parse(StripFences(reply)).value.fields;
        && r.value.riskLevel == (if "risk_level" in m then m["risk_level"] else JString("medium"))
        && r.value.risks == (if "risks" in m then m["risks"] else JArray([])))
  {
    RiskFromReply(llm(CreateRiskPrompt(fullText)), parse)
  }

  /** Whatever path is taken, a successful risk result from the fallback carries a level from {low, medium, high}. */
  lemma RiskFallbackLevelIsKnown(reply: string, parse: JsonParser)
    requires parse(StripFences(reply)).None?
    ensures RiskFromReply(reply, parse).Success?
    ensures RiskFromReply(reply, parse).value.riskLevel in {JString("low"), JString("medium"), JString("high")}
    ensures RiskFromReply(reply, parse).value.risks.items == FallbackRisks
  {
  }

  /** A risk object sent inside a json fence is returned field for field. */
  lemma RiskFencedRoundTrip(t: string, parse: JsonParser, m: map<string, Json>)
    requires '`' !in t
    requires parse(Strip(t)) == Some(JObject(m))
    requires "risk_level" in m && "risks" in m
    ensures RiskFromReply(JsonFence + t + Fence, parse) == Success(RiskResult(m["risk_level"], m["risks"]))
  {
    var reply := JsonFence + t + Fence;
    StripFencesUnwraps(t);
    assert parse(StripFences(reply)) == Some(JObject(m));
  }

  /** A plain JSON risk object, with no backticks, comes back with its level and risks. */
  lemma RiskPlainRoundTrip(t: string, parse: JsonParser, m: map<string, Json>)
    requires '`' !in t
    requires parse(Strip(t)) == Some(JObject(m))
    requires "risk_level" in m && "risks" in m
    ensures RiskFromReply(t, parse) == Success(RiskResult(m["risk_level"], m["risks"]))
  {
    assert parse(StripFences(t)) == Some(JObject(m));
  }

  // ---------------------------------------------------------------------
  // Chat transcript
  // ---------------------------------------------------------------------

  datatype Role = System | User | Assistant

  /** A chat message `{"role": ..., "content": ...}`. */
  datatype Turn = Turn(role: Role, content: string)

  function RoleName(role: Role): string {
    match role
    case System => "system"
    case User => "user"
    case Assistant => "assistant"
  }

  /** One line of the transcript: `ROLE: content` and a newline. */
  function TurnLine(t: Turn): string {
    RoleLabel(t.role) + ": " + t.content + "\n"
  }

  /** The role as it is written in the transcript. */
  function RoleLabel(role: Role): string {
    match role
    case System => "SYSTEM"
    case User => "USER"
    case Assistant => "ASSISTANT"
  }

  /** The transcript's role label is `msg["role"].upper()`. */
  lemma RoleLabelIsUpper(role: Role)
    ensures RoleLabel(role) == Upper(RoleName(role))
  {
  }

  /** The conversation text `chat_with_ai` builds: every message's line, in order. */
  function Transcript(messages: seq<Turn>): string
    decreases |messages|
  {
    if messages == [] then ""
    else Transcript(messages[..|messages| - 1]) + TurnLine(messages[|messages| - 1])
  }

  /** The transcript of two runs of messages is the transcript of the first followed by that of the second. */
  lemma {:induction false} TranscriptAppend(a: seq<Turn>, b: seq<Turn>)
    ensures Transcript(a + b) == Transcript(a) + Transcript(b)
    decreases |b|
  {
    if b == [] {
      assert a + b == a;
    } else {
      var init, last := b[..|b| - 1], b[|b| - 1];
      LastSplits(b);
      TranscriptAppend(a, init);
      TranscriptAppendStep(a, init, last);
    }
  }

  /** The inductive step of `TranscriptAppend`: one more message at the end of the second run. */
  lemma TranscriptAppendStep(a: seq<Turn>, init: seq<Turn>, last: Turn)
    requires Transcript(a + init) == Transcript(a) + Transcript(init)
    ensures Transcript(a + (init + [last])) == Transcript(a) + Transcript(init + [last])
  {
    AppendAssociates(a, init, [last]);
    TranscriptLast(a + init, last);
    TranscriptLast(init, last);
    AppendAssociates(Transcript(a), Transcript(init), TurnLine(last));
  }

  /** Adding one message adds its line at the end. */
  lemma TranscriptLast(messages: seq<Turn>, m: Turn)
    ensures Transcript(messages + [m]) == Transcript(messages) + TurnLine(m)
  {
    assert (messages + [m])[..|messages|] == messages;
  }

  /** Each message, system messages included, contributes its own line at its own place. */
  lemma {:induction false} TranscriptAt(messages: seq<Turn>, k: nat)
    requires k < |messages|
    ensures Transcript(messages) == Transcript(messages[..k]) + TurnLine(messages[k]) + Transcript(messages[k + 1..])
  {
    var before, here, after := messages[..k], [messages[k]], messages[k + 1..];
    assert messages == (before + here) + after;
    TranscriptAppend(before + here, after);
    TranscriptAppend(before, here);
    TranscriptSingle(messages[k]);
  }

  lemma TranscriptSingle(m: Turn)
    ensures Transcript([m]) == TurnLine(m)
  {
    assert [m][..0] == [];
  }

  /** The loop of `chat_with_ai` that accumulates the conversation text. */
  method RenderTranscript(messages: seq<Turn>) returns (conversation: string)
    ensures conversation == Transcript(messages)
  {
    conversation := "";
    var i := 0;
    while i < |messages|
      invariant 0 <= i <= |messages|
      invariant conversation == Transcript(messages[..i])
    {
      var role := Upper(RoleName(messages[i].role));
      var line := role + ": " + messages[i].content + "\n";
      RoleLabelIsUpper(messages[i].role);
      assert line == TurnLine(messages[i]);
      conversation := conversation + line;
      TranscriptLast(messages[..i], messages[i]);
      PrefixGrows(messages, i);
      i := i + 1;
    }
    assert messages[..i] == messages;
  }

  /** `chat_with_ai`: the reply to the chat prompt built from the whole transcript. */
  method ChatWithAi(messages: seq<Turn>, llm: ChatModel) returns (reply: string)
    ensures reply == llm(ChatPrompt(Transcript(messages)))
  {
    var conversation := RenderTranscript(messages);
    reply := llm(ChatPrompt(conversation));
  }
}
