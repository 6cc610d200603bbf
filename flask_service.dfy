/**
 * The backend's client for the ML services. Every method is one HTTP POST whose
 * outcome is an input here. The chatbot call swallows its errors and yields
 * `undefined`; every other call rethrows a fixed message. The disease cure is
 * asked of the chatbot with a fixed prompt and a one-off session.
 */
module FlaskService {
  import opened Wrappers
  import opened Strings
  import opened JsValues
  import opened Http
  import opened Constants

  datatype Method = CallChatbot | AnalyzeSoil | EstimateResources | GetWeatherAdvisory | SearchSchemes | DetectDisease

  /** The ML-service path each method posts to. */
  function Endpoint(m: Method): FlaskEndpoint {
    match m
    case CallChatbot => ChatbotPath
    case AnalyzeSoil => SoilAnalysisPath
    case EstimateResources => ResourceEstimatePath
    case GetWeatherAdvisory => WeatherAdvisoryPath
    case SearchSchemes => SchemeRecommendationsPath
    case DetectDisease => DiseaseDetectionPath
  }

  /** The axios timeout of each method, in milliseconds. */
  function Timeout(m: Method): nat {
    match m
    case CallChatbot => 60000
    case DetectDisease => 30000
    case _ => 15000
  }

  /** The message a failing method rethrows; the chatbot rethrows nothing. */
  function FailureMessage(m: Method): Option<string> {
    match m
    case CallChatbot => None
    case AnalyzeSoil => Some("Failed to analyze soil data")
    case EstimateResources => Some("Failed to estimate resources")
    case GetWeatherAdvisory => Some("Failed to get weather advisory")
    case SearchSchemes => Some("Failed to search schemes")
    case DetectDisease => Some("Failed to detect disease")
  }

  /** What an awaited service method gives its caller: a value, or a thrown Error's message. */
  datatype Returned = Value(v: JsValue) | Threw(message: string)

  /** One service method applied to the outcome of its HTTP call. */
  function Invoke(m: Method, outcome: CallOutcome): (r: Returned)
    ensures outcome.Answer? ==> r == Value(outcome.data)
    ensures outcome.Fault? && m == CallChatbot ==> r == Value(Undefined)
    ensures outcome.Fault? && m != CallChatbot ==> r == Threw(FailureMessage(m).value)
  {
    match outcome
    case Answer(data) => Value(data)
    case Fault(_) =>
      match FailureMessage(m)
      case None => Value(Undefined)
      case Some(msg) => Threw(msg)
  }

  /** The chat service is 60 s; detection 30 s; the four other analyses 15 s. */
  lemma Timeouts()
    ensures Timeout(CallChatbot) == 60000 && Timeout(DetectDisease) == 30000
    ensures forall m: Method :: m != CallChatbot && m != DetectDisease ==> Timeout(m) == 15000
  {
  }

  /** Only the chatbot hides failures: it never throws, and every other method always throws when its call fails. */
  lemma OnlyChatbotSwallowsErrors(m: Method, message: string)
    ensures Invoke(m, Fault(message)).Threw? <==> m != CallChatbot
    ensures m != CallChatbot ==> Invoke(m, Fault(message)).message == FailureMessage(m).value
  {
  }

  /** The POST a method makes: its ML-service path and the body it sends. */
  function Request(m: Method, payload: JsValue): Effect {
    Call(Endpoint(m).Path(), payload)
  }

  /** The body `callChatbot` posts. */
  function ChatbotPayload(message: JsValue, sessionId: JsValue): JsValue {
    Obj([Field("message", message), Field("session_id", sessionId)])
  }

  // ---- getDiseaseCure ----

  /** `${disease_name || 'Unknown'}` */
  function NameText(name: JsValue): string {
    if Truthy(name) then ToJsString(name) else "Unknown"
  }

  /** `typeof confidence === 'number' ? confidence.toFixed(3) : 'N/A'`, the rounding given as `toFixed3`. */
  function ConfidenceText(confidence: JsValue, toFixed3: int -> string): string {
    if confidence.Num? then toFixed3(confidence.n) else "N/A"
  }

  /** The third detail line: the image URL when there is one, else an empty line. */
  function ImageLine(imageUrl: JsValue): string {
    if Truthy(imageUrl) then "- Image URL (for reference): " + ToJsString(imageUrl) else ""
  }

  /** The lines of the prompt template between its opening and closing newline. */
  function PromptLines(name: JsValue, confidence: JsValue, imageUrl: JsValue, toFixed3: int -> string): seq<string> {
    [ Header,
      "- Disease name: " + NameText(name),
      "- Confidence score: " + ConfidenceText(confidence, toFixed3),
      ImageLine(imageUrl),
      "",
      Ask,
      Explain,
      Treat,
      Precautions,
      DoubleCheck,
      "",
      Closing ]
  }

  // Long lines are written as concatenations of short literals so that the
  // verifier can see their characters.
  const Header: string := "A vision model has detected the " + "following on the farmer's crop:"
  const Ask: string := "Based on this, provide a clear, " + "practical cure recommendation"
  const Explain: string := "1) Explain what this disease is in 2\U{2013}3 lines"
  const Treat: string := "2)List step-by-step treatment actions " + "(exact sprays/chemicals or organic " + "options, with dosage if known)"
  const Precautions: string := "3) Mention precautions and follow-up " + "monitoring"
  const DoubleCheck: string := "4)If the diagnosis might be wrong, " + "mention what the farmer should " + "double-check."
  const Closing: string := "give answer in less than 1000 tokens " + "complete for this cure"

  /** No fixed line of the template holds a newline. */
  lemma TemplateNoNewline()
    ensures '\n' !in Header && '\n' !in Ask && '\n' !in Explain && '\n' !in Treat
    ensures '\n' !in Precautions && '\n' !in DoubleCheck && '\n' !in Closing
  {
    OneLineHeader();
    OneLineAsk();
    OneLineExplain();
    OneLineTreat();
    OneLinePrecautions();
    OneLineDoubleCheck();
    OneLineClosing();
  }

  lemma OneLineHeader() ensures '\n' !in Header { }
  lemma OneLineAsk() ensures '\n' !in Ask { }
  lemma OneLineExplain() ensures '\n' !in Explain { }
  lemma OneLineTreat() ensures '\n' !in Treat { }
  lemma OneLinePrecautions() ensures '\n' !in Precautions { }
  lemma OneLineDoubleCheck() ensures '\n' !in DoubleCheck { }
  lemma OneLineClosing() ensures '\n' !in Closing { }

  /** The template literal, which starts and ends with a newline, then `.trim()`. */
  function CurePrompt(name: JsValue, confidence: JsValue, imageUrl: JsValue, toFixed3: int -> string): string {
    Trim("\n" + Join("\n", PromptLines(name, confidence, imageUrl, toFixed3)) + "\n")
  }

  /** The fields of `diseaseInfo || {}`. */
  function InfoField(info: JsValue, key: string): JsValue {
    Get(Or(info, Obj([])), key)
  }

  /** `disease_cure_${Date.now()}` */
  function CureSessionId(now: nat): string {
    "disease_cure_" + NatToString(now)
  }

  /** The request getDiseaseCure makes, and the object it returns. */
  datatype Cure = Cure(request: Effect, result: JsValue)

  function GetDiseaseCure(info: JsValue, now: nat, toFixed3: int -> string, outcome: CallOutcome): Cure
  {
    var prompt := CurePrompt(InfoField(info, "disease_name"), InfoField(info, "confidence"), InfoField(info, "image_url"), toFixed3);
    var sessionId := CureSessionId(now);
    var result := Invoke(CallChatbot, outcome).v;
    var text := Or(Get(result, "response"), result);
    Cure(Request(CallChatbot, ChatbotPayload(Str(prompt), Str(sessionId))), Obj([Field("cure_recommendation", text)]))
  }

  /** The recommendation returned by GetDiseaseCure. */
  function Recommendation(c: Cure): JsValue {
    Get(c.result, "cure_recommendation")
  }

  lemma RecommendationField(text: JsValue)
    ensures Get(Obj([Field("cure_recommendation", text)]), "cure_recommendation") == text
  {
  }

  /**
   * The recommendation is the chatbot's `response` when that is truthy, and the
   * whole reply otherwise; when the chatbot call fails it is `undefined`, so the
   * returned object stringifies to "{}".
   */
  lemma CureNormalisation(info: JsValue, now: nat, toFixed3: int -> string, outcome: CallOutcome)
    ensures var c := GetDiseaseCure(info, now, toFixed3, outcome);
      (outcome.Answer? && Truthy(Get(outcome.data, "response")) ==> Recommendation(c) == Get(outcome.data, "response")) &&
      (outcome.Answer? && !Truthy(Get(outcome.data, "response")) ==> Recommendation(c) == outcome.data) &&
      (outcome.Fault? ==> Recommendation(c) == Undefined && Stringify(c.result) == Some("{}"))
  {
    var c := GetDiseaseCure(info, now, toFixed3, outcome);
    var reply := Invoke(CallChatbot, outcome).v;
    RecommendationField(Or(Get(reply, "response"), reply));
    if outcome.Fault? {
      StringifyAllUndefined([Field("cure_recommendation", Undefined)]);
    }
  }

  /**
   * The prompt is the template's twelve lines: the second names the disease (or
   * `Unknown`), and the fourth is the image-URL line exactly when an image URL
   * is given, and empty otherwise.
   */
  lemma CurePromptLines(name: JsValue, confidence: JsValue, imageUrl: JsValue, toFixed3: int -> string)
    requires '\n' !in NameText(name) && '\n' !in ConfidenceText(confidence, toFixed3) && '\n' !in ToJsString(imageUrl)
    ensures var lines := Split(CurePrompt(name, confidence, imageUrl, toFixed3), '\n');
      |lines| == 12 &&
      lines[1] == "- Disease name: " + (if Truthy(name) then ToJsString(name) else "Unknown") &&
      (Truthy(imageUrl) <==> lines[3] != "") &&
      (Truthy(imageUrl) ==> lines[3] == "- Image URL (for reference): " + ToJsString(imageUrl))
  {
    var lines := Split(CurePrompt(name, confidence, imageUrl, toFixed3), '\n');
    assert lines == PromptLines(name, confidence, imageUrl, toFixed3) by {
      SplitPrompt(name, confidence, imageUrl, toFixed3);
    }
    PromptLinesShape(name, confidence, imageUrl, toFixed3);
    ImageLineEmpty(imageUrl);
  }

  lemma PromptLinesShape(name: JsValue, confidence: JsValue, imageUrl: JsValue, toFixed3: int -> string)
    ensures var ls := PromptLines(name, confidence, imageUrl, toFixed3);
      |ls| == 12 && ls[1] == "- Disease name: " + NameText(name) && ls[3] == ImageLine(imageUrl)
  {
  }

  /** Splitting the prompt at its newlines gives back the template's lines. */
  lemma SplitPrompt(name: JsValue, confidence: JsValue, imageUrl: JsValue, toFixed3: int -> string)
    requires '\n' !in NameText(name) && '\n' !in ConfidenceText(confidence, toFixed3) && '\n' !in ToJsString(imageUrl)
    ensures Split(CurePrompt(name, confidence, imageUrl, toFixed3), '\n') == PromptLines(name, confidence, imageUrl, toFixed3)
  {
    var ls := PromptLines(name, confidence, imageUrl, toFixed3);
    calc {
      Split(CurePrompt(name, confidence, imageUrl, toFixed3), '\n');
      { PromptIsTrimmedJoin(name, confidence, imageUrl, toFixed3); }
      Split(Join("\n", ls), '\n');
      { PromptLinesNoNewline(name, confidence, imageUrl, toFixed3); SplitJoin(ls, '\n'); }
      ls;
    }
  }

  lemma ImageLineEmpty(imageUrl: JsValue)
    ensures ImageLine(imageUrl) == "" <==> !Truthy(imageUrl)
  {
    if Truthy(imageUrl) {
      assert ImageLine(imageUrl)[0] == '-';
    }
  }

  lemma PromptLinesNoNewline(name: JsValue, confidence: JsValue, imageUrl: JsValue, toFixed3: int -> string)
    requires '\n' !in NameText(name) && '\n' !in ConfidenceText(confidence, toFixed3) && '\n' !in ToJsString(imageUrl)
    ensures NoneContain(PromptLines(name, confidence, imageUrl, toFixed3), '\n')
  {
    var ls := PromptLines(name, confidence, imageUrl, toFixed3);
    ImageLineNoNewline(imageUrl);
    TemplateNoNewline();
    assert '\n' !in ls[1] && '\n' !in ls[2];
  }

  lemma ImageLineNoNewline(imageUrl: JsValue)
    requires '\n' !in ToJsString(imageUrl)
    ensures '\n' !in ImageLine(imageUrl)
  {
  }

  /** Trimming removes exactly the template's opening and closing newline. */
  lemma PromptIsTrimmedJoin(name: JsValue, confidence: JsValue, imageUrl: JsValue, toFixed3: int -> string)
    ensures CurePrompt(name, confidence, imageUrl, toFixed3) == Join("\n", PromptLines(name, confidence, imageUrl, toFixed3))
  {
    var ls := PromptLines(name, confidence, imageUrl, toFixed3);
    var body := Join("\n", ls);
    JoinFirst("\n", ls);
    JoinLast("\n", ls);
    assert ls[0] == Header && Header[0] == 'A';
    assert ls[11] == Closing && Closing[|Closing| - 1] == 'e';
    assert body[0] == 'A';
    assert body[|body| - 1] == 'e';
    assert !IsJsSpace('A') && !IsJsSpace('e');
    TrimPadded("\n", body, "\n");
  }

  /** The cure session id is `disease_cure_` followed by the timestamp, which parseInt reads back. */
  lemma CureSessionIdShape(now: nat)
    ensures StartsWith(CureSessionId(now), "disease_cure_")
    ensures CureSessionId(now)[13..] == NatToString(now)
    ensures ParseInt(CureSessionId(now)[13..]) == Some(now)
  {
    ParseIntOfIntToString(now);
  }

  /**
   * The cure request posts the chatbot path with the one-off `disease_cure_`
   * session of the clock: no chat session of the caller enters it.
   */
  lemma CureSessionFresh(info: JsValue, now: nat, toFixed3: int -> string, outcome: CallOutcome)
    ensures var request := GetDiseaseCure(info, now, toFixed3, outcome).request;
      request.Call? && request.endpoint == ChatbotPath.Path() &&
      Get(request.payload, "session_id") == Str(CureSessionId(now))
  {
    var prompt := CurePrompt(InfoField(info, "disease_name"), InfoField(info, "confidence"), InfoField(info, "image_url"), toFixed3);
    PayloadFields(Str(prompt), Str(CureSessionId(now)));
  }

  lemma PayloadFields(message: JsValue, sessionId: JsValue)
    ensures Get(ChatbotPayload(message, sessionId), "message") == message
    ensures Get(ChatbotPayload(message, sessionId), "session_id") == sessionId
  {
    TwoFields("message", message, "session_id", sessionId);
  }
}
