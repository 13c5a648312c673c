/**
 * The side panel's API client (extension/sidepanel/src/lib/api.service.ts):
 * how it turns the JSON bodies of the backend into the objects the UI shows.
 * Every field of a backend body is optional, and JavaScript's `a || b` keeps
 * `a` only when it is truthy, so an empty string and the number 0 fall through
 * to the default exactly like a missing field; any array, even an empty one,
 * is kept.
 */
module ApiService {
  import opened Wrappers
  import opened PyText
  import opened JsonValue
  import opened LegalModel

  /** `s || fallback` on an optional string. */
  function OrString(s: Option<string>, fallback: string): (r: string)
    ensures s.Some? && s.value != "" ==> r == s.value
    ensures s.None? || s.value == "" ==> r == fallback
  {
    if s.Some? && s.value != "" then s.value else fallback
  }

  /** `xs || []` on an optional array. */
  function OrEmpty<T>(xs: Option<seq<T>>): (r: seq<T>)
    ensures xs.Some? ==> r == xs.value
    ensures xs.None? ==> r == []
  {
    if xs.Some? then xs.value else []
  }

  // ---------------------------------------------------------------------
  // Reading a backend body
  // ---------------------------------------------------------------------

  /** A string-valued field of a body: present exactly when the body holds a string there, and then that string. */
  function StringField(fields: map<string, Json>, key: string): (r: Option<string>)
    ensures r.Some? <==> key in fields && fields[key].JString?
    ensures r.Some? ==> fields[key] == JString(r.value)
  {
    if key in fields && fields[key].JString? then Some(fields[key].s) else None
  }

  /** A number-valued field of a body: present exactly when the body holds a number there, and then that number. */
  function NumberField(fields: map<string, Json>, key: string): (r: Option<real>)
    ensures r.Some? <==> key in fields && fields[key].JNumber?
    ensures r.Some? ==> fields[key] == JNumber(r.value)
  {
    if key in fields && fields[key].JNumber? then Some(fields[key].n) else None
  }

  predicate AllStrings(items: seq<Json>) {
    forall i :: 0 <= i < |items| ==> items[i].JString?
  }

  /** The texts of an array whose elements are all strings. */
  function StringItems(items: seq<Json>): (r: seq<string>)
    requires AllStrings(items)
    ensures |r| == |items| && forall i :: 0 <= i < |items| ==> items[i] == JString(r[i])
  {
    seq(|items|, i requires 0 <= i < |items| => items[i].s)
  }

  /**
   * An array-of-strings field of a body: present exactly when the body holds an
   * array of strings there, and then those strings in order.
   */
  function StringsField(fields: map<string, Json>, key: string): (r: Option<seq<string>>)
    ensures r.Some? <==> key in fields && fields[key].JArray? && AllStrings(fields[key].items)
    ensures r.Some? ==> fields[key] == Strings(r.value)
  {
    if key in fields && fields[key].JArray? && AllStrings(fields[key].items) then
      var ss := StringItems(fields[key].items);
      assert Strings(ss).items == fields[key].items;
      Some(ss)
    else None
  }

  /** A string list written by the backend is read back unchanged. */
  lemma StringsFieldReadsStrings(fields: map<string, Json>, key: string, ss: seq<string>)
    requires key in fields && fields[key] == Strings(ss)
    ensures StringsField(fields, key) == Some(ss)
  {
    var items := fields[key].items;
    assert AllStrings(items) by {
      forall i | 0 <= i < |items|
        ensures items[i].JString?
      {
        assert items[i] == JString(ss[i]);
      }
    }
    var read := StringItems(items);
    forall i | 0 <= i < |ss|
      ensures read[i] == ss[i]
    {
      assert items[i] == JString(ss[i]) == JString(read[i]);
    }
    assert read == ss;
  }

  // ---------------------------------------------------------------------
  // askQuestion
  // ---------------------------------------------------------------------

  /** `BackendQAResponse`. */
  datatype BackendQa = BackendQa(answer: Option<string>, response: Option<string>, confidence: Option<real>, sources: Option<seq<string>>)

  /** `QAResponse`. */
  datatype QaResponse = QaResponse(answer: string, confidence: real, sources: seq<string>)

  const DefaultConfidence: real := 0.85

  /**
   * The body of `/qa` as the client reads it. Reading a field of `null` throws,
   * so a `null` body is `None`; any other value that is not an object has none
   * of the fields.
   */
  function QaBody(body: Json): (r: Option<BackendQa>)
    ensures r.None? <==> body.JNull?
    ensures r.Some? && !body.JObject? ==> r.value == BackendQa(None, None, None, None)
    ensures body.JObject? ==>
      && r.value.answer == StringField(body.fields, "answer")
      && r.value.response == StringField(body.fields, "response")
      && r.value.confidence == NumberField(body.fields, "confidence")
      && r.value.sources == StringsField(body.fields, "sources")
  {
    match body
    case JNull => None
    case JObject(f) =>
      Some(BackendQa(StringField(f, "answer"), StringField(f, "response"), NumberField(f, "confidence"), StringsField(f, "sources")))
    case _ => Some(BackendQa(None, None, None, None))
  }

  /**
   * `askQuestion`'s transformation: the answer is `answer`, else `response`, else
   * empty; a missing or zero confidence is shown as 0.85, so the shown
   * confidence is never 0; missing sources are an empty list.
   */
  function ToQaResponse(data: BackendQa): (r: QaResponse)
    ensures data.answer.Some? && data.answer.value != "" ==> r.answer == data.answer.value
    ensures (data.answer.None? || data.answer.value == "") && data.response.Some? ==> r.answer == data.response.value
    ensures r.answer == "" <==> (data.answer.None? || data.answer.value == "") && (data.response.None? || data.response.value == "")
    ensures r.confidence != 0.0
    ensures data.confidence.Some? && data.confidence.value != 0.0 ==> r.confidence == data.confidence.value
    ensures data.confidence.None? || data.confidence.value == 0.0 ==> r.confidence == DefaultConfidence
    ensures data.sources.Some? ==> r.sources == data.sources.value
    ensures data.sources.None? ==> r.sources == []
  {
    QaResponse(
      OrString(data.answer, OrString(data.response, "")),
      if data.confidence.Some? && data.confidence.value != 0.0 then data.confidence.value else DefaultConfidence,
      OrEmpty(data.sources))
  }

  /**
   * When the vector store finds nothing, the backend answers with confidence
   * 0.0, and the side panel shows that answer with confidence 0.85 and no
   * sources.
   */
  lemma NoHitsShownWithDefaultConfidence(query: string, llm: ChatModel, parse: JsonParser)
    ensures QaBody(AnswerQuestions([], query, llm, parse)).Some?
    ensures ToQaResponse(QaBody(AnswerQuestions([], query, llm, parse)).value)
      == QaResponse(NoInformationAnswer, DefaultConfidence, [])
  {
    var f := ZeroConfidenceAnswer(NoInformationAnswer).fields;
    assert StringField(f, "answer") == Some(NoInformationAnswer);
    StringsFieldReadsStrings(f, "sources", []);
  }

  // ---------------------------------------------------------------------
  // summarizeDocument
  // ---------------------------------------------------------------------

  /** `BackendSummarizeResponse`. */
  datatype BackendSummary = BackendSummary(summary: Option<string>, keyPoints: Option<seq<string>>, documentType: Option<string>)

  /** `SummarizeResponse`. */
  datatype SummaryResponse = SummaryResponse(summary: string, keyPoints: seq<string>, documentType: string)

  const UnknownDocumentTypeLabel := "Unknown Document Type"

  /** The JSON body `/summarize` sends for a summary result. */
  function SummaryJson(r: SummaryResult): Json {
    JObject(map["summary" := r.summary, "key_points" := r.keyPoints, "document_type" := r.documentType])
  }

  /** The body of `/summarize` as the client reads it; `null` throws, other non-objects have none of the fields. */
  function SummaryBody(body: Json): (r: Option<BackendSummary>)
    ensures r.None? <==> body.JNull?
    ensures r.Some? && !body.JObject? ==> r.value == BackendSummary(None, None, None)
    ensures body.JObject? ==>
      && r.value.summary == StringField(body.fields, "summary")
      && r.value.keyPoints == StringsField(body.fields, "key_points")
      && r.value.documentType == StringField(body.fields, "document_type")
  {
    match body
    case JNull => None
    case JObject(f) => Some(BackendSummary(StringField(f, "summary"), StringsField(f, "key_points"), StringField(f, "document_type")))
    case _ => Some(BackendSummary(None, None, None))
  }

  /**
   * `summarizeDocument`'s transformation: missing or empty fields become an
   * empty summary, no key points, and "Unknown Document Type"; present ones are
   * kept as they are.
   */
  function ToSummaryResponse(data: BackendSummary): (r: SummaryResponse)
    ensures data.summary.Some? ==> r.summary == data.summary.value
    ensures data.summary.None? ==> r.summary == ""
    ensures data.keyPoints.Some? ==> r.keyPoints == data.keyPoints.value
    ensures data.keyPoints.None? ==> r.keyPoints == []
    ensures r.documentType != ""
    ensures data.documentType.Some? && data.documentType.value != "" ==> r.documentType == data.documentType.value
    ensures data.documentType.None? || data.documentType.value == "" ==> r.documentType == UnknownDocumentTypeLabel
  {
    SummaryResponse(
      OrString(data.summary, ""),
      OrEmpty(data.keyPoints),
      OrString(data.documentType, UnknownDocumentTypeLabel))
  }

  /** A summary whose fields have the declared types is read back field for field. */
  lemma SummaryBodyReadsFields(summary: string, keyPoints: seq<string>, documentType: string)
    ensures SummaryBody(SummaryJson(SummaryResult(JString(summary), Strings(keyPoints), JString(documentType))))
      == Some(BackendSummary(Some(summary), Some(keyPoints), Some(documentType)))
  {
    var f := SummaryJson(SummaryResult(JString(summary), Strings(keyPoints), JString(documentType))).fields;
    StringsFieldReadsStrings(f, "key_points", keyPoints);
  }

  /**
   * When the model's reply is not JSON, the side panel shows the first line of
   * the reply (at most 500 characters) as the summary, between one and four key
   * points, and "Legal Document" as the type.
   */
  lemma SummaryFallbackShown(reply: string, parse: JsonParser)
    requires parse(StripFences(reply)).None?
    ensures SummaryFromReply(reply, parse).Success?
    ensures SummaryBody(SummaryJson(SummaryFromReply(reply, parse).value)).Some?
    ensures var view := ToSummaryResponse(SummaryBody(SummaryJson(SummaryFromReply(reply, parse).value)).value);
      && view.summary == FallbackSummary(reply)
      && view.keyPoints == FallbackKeyPoints(Split(reply, '\n')[1..])
      && 1 <= |view.keyPoints| <= KeyPointLimit
      && view.documentType == FallbackDocumentType
  {
    var kp := FallbackKeyPoints(Split(reply, '\n')[1..]);
    assert SummaryFromReply(reply, parse) == Success(SummaryResult(JString(FallbackSummary(reply)), Strings(kp), JString(FallbackDocumentType)));
    SummaryBodyReadsFields(FallbackSummary(reply), kp, FallbackDocumentType);
  }

  // ---------------------------------------------------------------------
  // analyzeRisks
  // ---------------------------------------------------------------------

  /** `'Low' | 'Medium' | 'High'`. */
  datatype Level = Low | Medium | High

  /** `riskLevelMap`: the backend's lower-case level names. */
  const RiskLevelTable: map<string, Level> := map["low" := Low, "medium" := Medium, "high" := High]

  /** The backend's name for a level. */
  function LevelKey(l: Level): string {
    match l
    case Low => "low"
    case Medium => "medium"
    case High => "high"
  }

  /**
   * `riskLevelMap[data.risk_level || 'medium'] || 'Medium'`: exactly the names
   * "low" and "high" give Low and High; anything else, including a missing
   * level and a capitalised name, is Medium. Every level survives the trip
   * through its backend name.
   */
  function OverallRisk(riskLevel: Option<string>): (l: Level)
    ensures l == Low <==> riskLevel == Some("low")
    ensures l == High <==> riskLevel == Some("high")
    ensures forall k: Level :: riskLevel == Some(LevelKey(k)) ==> l == k
  {
    var key := OrString(riskLevel, "medium");
    if key in RiskLevelTable then RiskLevelTable[key] else Medium
  }

  /** `BackendRisk`; `type` is a reserved word here, hence `kind`. */
  datatype BackendRisk = BackendRisk(kind: Option<string>, category: Option<string>, description: Option<string>,
    severity: Option<string>, recommendation: Option<string>)

  /** `Risk`; the severity is whatever string the backend sent, not checked against the three levels. */
  datatype Risk = Risk(category: string, description: string, severity: string, recommendation: string)

  /** `BackendRiskResponse`. */
  datatype BackendRiskReport = BackendRiskReport(riskLevel: Option<string>, risks: Option<seq<BackendRisk>>)

  /** `RiskResponse`. */
  datatype RiskResponse = RiskResponse(overallRisk: Level, risks: seq<Risk>)

  /**
   * One risk: the category is `type`, else `category`, else "General"; a
   * missing severity is "Medium" and any other non-empty one is passed
   * through; missing texts are empty.
   */
  function ToRisk(b: BackendRisk): (r: Risk)
    ensures b.kind.Some? && b.kind.value != "" ==> r.category == b.kind.value
    ensures (b.kind.None? || b.kind.value == "") && b.category.Some? && b.category.value != "" ==> r.category == b.category.value
    ensures (b.kind.None? || b.kind.value == "") && (b.category.None? || b.category.value == "") ==> r.category == "General"
    ensures r.category != "" && r.severity != ""
    ensures b.severity.Some? && b.severity.value != "" ==> r.severity == b.severity.value
    ensures b.severity.None? || b.severity.value == "" ==> r.severity == LevelName(Medium)
    ensures b.description.Some? ==> r.description == b.description.value
    ensures b.description.None? ==> r.description == ""
    ensures b.recommendation.Some? ==> r.recommendation == b.recommendation.value
    ensures b.recommendation.None? ==> r.recommendation == ""
  {
    Risk(
      OrString(b.kind, OrString(b.category, "General")),
      OrString(b.description, ""),
      OrString(b.severity, LevelName(Medium)),
      OrString(b.recommendation, ""))
  }

  /** The UI's name for a level. */
  function LevelName(l: Level): string {
    match l
    case Low => "Low"
    case Medium => "Medium"
    case High => "High"
  }

  /**
   * `analyzeRisks`'s transformation: the overall level through the table, and
   * the risks mapped one by one, same length and same order; no list gives no
   * risks.
   */
  function ToRiskResponse(data: BackendRiskReport): (r: RiskResponse)
    ensures r.overallRisk == OverallRisk(data.riskLevel)
    ensures data.risks.None? ==> r.risks == []
    ensures data.risks.Some? ==> |r.risks| == |data.risks.value|
    ensures data.risks.Some? ==> forall i :: 0 <= i < |r.risks| ==> r.risks[i] == ToRisk(data.risks.value[i])
  {
    var source := OrEmpty(data.risks);
    RiskResponse(OverallRisk(data.riskLevel), seq(|source|, i requires 0 <= i < |source| => ToRisk(source[i])))
  }

  /** The JSON body `/risk` sends for a risk result. */
  function RiskJson(r: RiskResult): Json {
    JObject(map["risk_level" := r.riskLevel, "risks" := r.risks])
  }

  /**
   * One element of the `risks` array, other than `null`: an object gives its
   * string fields, and any other value has none of the fields.
   */
  function RiskItem(item: Json): (r: BackendRisk)
    ensures !item.JObject? ==> r == BackendRisk(None, None, None, None, None)
    ensures item.JObject? ==>
      && r.kind == StringField(item.fields, "type")
      && r.category == StringField(item.fields, "category")
      && r.description == StringField(item.fields, "description")
      && r.severity == StringField(item.fields, "severity")
      && r.recommendation == StringField(item.fields, "recommendation")
  {
    match item
    case JObject(f) =>
      BackendRisk(StringField(f, "type"), StringField(f, "category"), StringField(f, "description"),
        StringField(f, "severity"), StringField(f, "recommendation"))
    case _ => BackendRisk(None, None, None, None, None)
  }

  /**
   * `data.risks?.map(...)` throws a TypeError when `risks` is neither `null` nor
   * an array (it has no `map`), and when an element is `null` (reading its
   * `type` throws); a missing or `null` list is skipped.
   */
  predicate RisksThrow(risks: Json) {
    !risks.JNull? && (!risks.JArray? || JNull in risks.items)
  }

  /**
   * The body of `/risk` as the client reads it: `None` when reading it throws,
   * that is for a `null` body or a `risks` value the `map` call fails on;
   * otherwise the level and, when there is a list, one entry per element in
   * order.
   */
  function RiskBody(body: Json): (r: Option<BackendRiskReport>)
    ensures r.None? <==> body.JNull? || (body.JObject? && "risks" in body.fields && RisksThrow(body.fields["risks"]))
    ensures r.Some? && !body.JObject? ==> r.value == BackendRiskReport(None, None)
    ensures r.Some? && body.JObject? ==> r.value.riskLevel == StringField(body.fields, "risk_level")
    ensures r.Some? && body.JObject? ==> (r.value.risks.None? <==> "risks" !in body.fields || body.fields["risks"].JNull?)
    ensures r.Some? && r.value.risks.Some? ==>
      && |r.value.risks.value| == |body.fields["risks"].items|
      && forall i :: 0 <= i < |r.value.risks.value| ==> r.value.risks.value[i] == RiskItem(body.fields["risks"].items[i])
  {
    match body
    case JNull => None
    case JObject(f) =>
      if "risks" in f && RisksThrow(f["risks"]) then None
      else
        var risks := if "risks" in f && f["risks"].JArray? then
          Some(seq(|f["risks"].items|, i requires 0 <= i < |f["risks"].items| => RiskItem(f["risks"].items[i])))
        else None;
        Some(BackendRiskReport(StringField(f, "risk_level"), risks))
    case _ => Some(BackendRiskReport(None, None))
  }

  /** What the side panel shows for the fallback's two fixed risks. */
  const ShownFallbackRisks := [
    Risk("General Compliance", "Document contains standard legal terms that require careful review",
      "Medium", "Conduct thorough legal review before signing"),
    Risk("Liability", "Standard liability clauses present in the document",
      "Medium", "Review liability limits and ensure they are acceptable")
  ]

  /** A risk entry the backend writes is read back with its `type` and no `category`. */
  lemma RiskItemReadsEntry(kind: string, description: string, severity: string, recommendation: string)
    ensures RiskItem(RiskEntry(kind, description, severity, recommendation))
      == BackendRisk(Some(kind), None, Some(description), Some(severity), Some(recommendation))
  {
  }

  /** A risk result with a string level and no `null` entry is read back with that level and its entries in order. */
  lemma RiskBodyReadsFields(level: string, entries: seq<Json>)
    requires JNull !in entries
    ensures RiskBody(RiskJson(RiskResult(JString(level), JArray(entries))))
      == Some(BackendRiskReport(Some(level), Some(seq(|entries|, i requires 0 <= i < |entries| => RiskItem(entries[i])))))
  {
  }

  /** The two fixed fallback risks as the side panel shows them. */
  lemma FallbackRisksShown()
    ensures ToRiskResponse(BackendRiskReport(None, Some(seq(2, i requires 0 <= i < 2 => RiskItem(FallbackRisks[i]))))).risks
      == ShownFallbackRisks
  {
    var items := seq(2, i requires 0 <= i < 2 => RiskItem(FallbackRisks[i]));
    RiskItemReadsEntry("General Compliance", "Document contains standard legal terms that require careful review",
      "Medium", "Conduct thorough legal review before signing");
    RiskItemReadsEntry("Liability", "Standard liability clauses present in the document",
      "Medium", "Review liability limits and ensure they are acceptable");
    var shown := ToRiskResponse(BackendRiskReport(None, Some(items))).risks;
    assert shown[0] == ToRisk(items[0]) == ShownFallbackRisks[0];
    assert shown[1] == ToRisk(items[1]) == ShownFallbackRisks[1];
  }

  /**
   * When the model's reply is not JSON, the side panel shows High exactly when
   * the reply speaks of a high or significant risk, Low exactly when it speaks
   * only of a low or minimal one, and the two fixed risks: the backend's
   * lower-case level names always reach the table.
   */
  lemma RiskFallbackShown(reply: string, parse: JsonParser)
    requires parse(StripFences(reply)).None?
    ensures RiskFromReply(reply, parse).Success?
    ensures RiskBody(RiskJson(RiskFromReply(reply, parse).value)).Some?
    ensures var view := ToRiskResponse(RiskBody(RiskJson(RiskFromReply(reply, parse).value)).value);
      && (view.overallRisk == High <==> SignalsHighRisk(Lower(reply)))
      && (view.overallRisk == Low <==> !SignalsHighRisk(Lower(reply)) && SignalsLowRisk(Lower(reply)))
      && view.risks == ShownFallbackRisks
  {
    var level := FallbackRiskLevel(reply);
    assert JNull !in FallbackRisks;
    RiskBodyReadsFields(level, FallbackRisks);
    FallbackRisksShown();
  }

  /**
   * The backend passes a parsed `risks` value through unchecked, so a reply
   * whose `risks` is not a list (or holds a `null`) reaches the client, whose
   * `map` call then throws: no risk report is shown, and the error is only
   * logged to the console.
   */
  lemma UncheckedRisksFail(reply: string, parse: JsonParser, m: map<string, Json>)
    requires parse(StripFences(reply)) == Some(JObject(m))
    requires "risks" in m && RisksThrow(m["risks"])
    ensures RiskFromReply(reply, parse).Success?
    ensures RiskBody(RiskJson(RiskFromReply(reply, parse).value)).None?
  {
    var result := RiskFromReply(reply, parse).value;
    assert result.risks == m["risks"];
    assert RiskJson(result).fields["risks"] == m["risks"];
  }

  /** For instance, a model that answers `{"risk_level": "high", "risks": "none"}` gets no risk report shown. */
  lemma TextRisksFail(reply: string, parse: JsonParser)
    requires parse(StripFences(reply)) == Some(JObject(map["risk_level" := JString("high"), "risks" := JString("none")]))
    ensures RiskFromReply(reply, parse) == Success(RiskResult(JString("high"), JString("none")))
    ensures RiskBody(RiskJson(RiskFromReply(reply, parse).value)).None?
  {
    var m := map["risk_level" := JString("high"), "risks" := JString("none")];
    assert m["risk_level"] == JString("high") && m["risks"] == JString("none");
    UncheckedRisksFail(reply, parse, m);
  }

  // ---------------------------------------------------------------------
  // sendChatMessage
  // ---------------------------------------------------------------------

  /** `BackendChatResponse`. */
  datatype BackendChat = BackendChat(reply: Option<string>, history: Option<seq<Turn>>)

  /** `ChatResponse`. */
  datatype ChatResponse = ChatResponse(reply: string, history: seq<Turn>)

  /** `sendChatMessage`'s transformation: a missing reply is empty and a missing history is no turns. */
  function ToChatResponse(data: BackendChat): (r: ChatResponse)
    ensures data.reply.Some? ==> r.reply == data.reply.value
    ensures data.reply.None? ==> r.reply == ""
    ensures data.history.Some? ==> r.history == data.history.value
    ensures data.history.None? ==> r.history == []
  {
    ChatResponse(OrString(data.reply, ""), OrEmpty(data.history))
  }
}
