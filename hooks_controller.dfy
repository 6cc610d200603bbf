/**
 * The feature hooks of the backend: the chatbot, soil analysis, resource
 * estimation, weather advisory, scheme search, disease detection, and the
 * translate and text-to-speech endpoints. Each handler validates its body,
 * calls the ML service, stores a history row and replies; handlers that take a
 * pooled database client release it on every path.
 *
 * The outcomes of the ML service, the translator, the media store and the
 * database are inputs, as are the clock and the authenticated user.
 */
module HooksController {
  import opened Wrappers
  import opened Strings
  import opened JsValues
  import opened Http
  import opened Constants
  import opened FlaskService
  import TtsService

  const TranslatorUrl: string := "https://libretranslate.de/translate"

  /** The POST to the public translator. */
  function TranslateCall(q: JsValue, source: JsValue, target: JsValue): Effect {
    Call(TranslatorUrl, Obj([Field("q", q), Field("source", source), Field("target", target), Field("format", Str("text"))]))
  }

  // ---- chatbot ----

  /** `session_id || \`session_${req.user.userId}_${Date.now()}\`` */
  function SessionId(supplied: JsValue, user: JsValue, now: nat): (id: JsValue)
    ensures Truthy(supplied) ==> id == supplied
    ensures !Truthy(supplied) ==> id.Str? && StartsWith(id.s, "session_")
  {
    Or(supplied, Str("session_" + ToJsString(Get(user, "userId")) + "_" + NatToString(now)))
  }

  /** `flaskResponse.response || flaskResponse`, once the chatbot returned a non-nullish reply. */
  function EnglishResponse(reply: JsValue): JsValue {
    Or(Get(reply, "response"), reply)
  }

  /**
   * The response given back: the English one when the user's language is `en`,
   * else the translator's text, keeping the English response when the
   * translator fails, returns no body or returns an empty text.
   */
  function Translated(english: JsValue, userLang: JsValue, translation: CallOutcome): JsValue {
    if StrictEquals(userLang, Str("en")) then english
    else
      match translation
      case Fault(_) => english
      case Answer(data) =>
        match Member(data, "translatedText")
        case Failure(_) => english
        case Success(text) => Or(text, english)
  }

  lemma TranslationFallback(english: JsValue, userLang: JsValue, translation: CallOutcome)
    ensures userLang == Str("en") ==> Translated(english, userLang, translation) == english
    ensures translation.Fault? ==> Translated(english, userLang, translation) == english
    ensures translation.Answer? && !Truthy(Get(translation.data, "translatedText")) ==>
      Translated(english, userLang, translation) == english
    ensures userLang != Str("en") && translation.Answer? && Truthy(Get(translation.data, "translatedText")) ==>
      Translated(english, userLang, translation) == Get(translation.data, "translatedText")
  {
  }

  /**
   * The message of the TypeError raised by `undefined.response` when the chatbot
   * service failed: "Cannot read properties of undefined (reading 'response')".
   */
  const UndefinedResponse: string := ReadError(Undefined, "response")

  /**
   * `HooksController.chatbot`. `chat` is the outcome of the chatbot POST,
   * `translation` that of the translator (used only for a language other than
   * `en`) and `insert` that of the history INSERT.
   */
  method Chatbot(body: JsValue, user: JsValue, now: nat, chat: CallOutcome, translation: CallOutcome, insert: DbOutcome)
    returns (reply: Reply, trace: seq<Effect>)
    ensures |trace| > 0 && trace[|trace| - 1] == Release
    ensures !Truthy(Get(body, "message")) ==> reply == ErrorReply(400, "Message is required") && trace == [Release]
    ensures Truthy(Get(body, "message")) ==>
      trace[0] == Request(CallChatbot, ChatbotPayload(Get(body, "message"), SessionId(Get(body, "session_id"), user, now)))
    ensures Truthy(Get(body, "message")) && chat.Fault? ==>
      reply == ErrorReply(500, UndefinedResponse) && !HasInsert(trace)
    ensures reply.status == 200 <==> Truthy(Get(body, "message")) && chat.Answer? && !IsNullish(chat.data) && insert.Rows?
    ensures reply.status == 200 ==>
      var sessionId := SessionId(Get(body, "session_id"), user, now);
      var response := Translated(EnglishResponse(chat.data), OrStr(Get(body, "language"), "en"), translation);
      reply == DataReply(200, Obj([Field("response", response), Field("session_id", sessionId)])) &&
      trace[|trace| - 2] == Insert("chat_history",
        [Get(user, "userId"), sessionId, Or(Get(body, "original_message"), Get(body, "message")), response, Str(HookType.Chatbot.Value())])
    ensures Truthy(Get(body, "message")) && chat.Answer? && !IsNullish(chat.data) ==>
      (TranslateCall(EnglishResponse(chat.data), Str("en"), OrStr(Get(body, "language"), "en")) in trace <==>
       !StrictEquals(OrStr(Get(body, "language"), "en"), Str("en")))
  {
    var message := Get(body, "message");
    if !Truthy(message) {
      reply := ErrorReply(400, "Message is required");
      trace := [Release];
      return;
    }
    var sessionId := SessionId(Get(body, "session_id"), user, now);
    var userLang := OrStr(Get(body, "language"), "en");
    trace := [Request(CallChatbot, ChatbotPayload(message, sessionId))];
    var flaskResponse := Invoke(CallChatbot, chat).v;
    var field := Member(flaskResponse, "response");
    if field.Failure? {
      reply := Failed(field.error, "Failed to process chatbot request");
      trace := trace + [Release];
      return;
    }
    var englishResponse := Or(field.value, flaskResponse);
    var finalResponse := englishResponse;
    if !StrictEquals(userLang, Str("en")) {
      trace := trace + [TranslateCall(englishResponse, Str("en"), userLang)];
      if translation.Answer? {
        var text := Member(translation.data, "translatedText");
        if text.Success? {
          finalResponse := Or(text.value, englishResponse);
        }
      }
    }
    var row := [Get(user, "userId"), sessionId, Or(Get(body, "original_message"), message), finalResponse, Str(HookType.Chatbot.Value())];
    trace := trace + [Insert("chat_history", row)];
    if insert.DbFault? {
      reply := Failed(insert.message, "Failed to process chatbot request");
    } else {
      reply := DataReply(200, Obj([Field("response", finalResponse), Field("session_id", sessionId)]));
    }
    trace := trace + [Release];
  }

  // ---- soilAnalysis, resourceEstimation, weatherAdvisory, schemeSearch ----

  /** `HooksController.soilAnalysis`: the four readings must be truthy, so a reading of 0 is refused. */
  function SoilAnalysis(body: JsValue, user: JsValue, flask: CallOutcome, insert: DbOutcome): Handled {
    var ph := Get(body, "ph_level");
    var n := Get(body, "nitrogen");
    var p := Get(body, "phosphorus");
    var k := Get(body, "potassium");
    if !Truthy(ph) || !Truthy(n) || !Truthy(p) || !Truthy(k) then
      Handled(ErrorReply(400, "Ph level, nitrogen, phosphorus, and potassium are required"), [Release])
    else
      var soilData := Obj([Field("ph_level", ph), Field("nitrogen", n), Field("phosphorus", p), Field("potassium", k),
                           Field("moisture", Get(body, "moisture")), Field("temperature", Get(body, "temperature"))]);
      var call := Request(AnalyzeSoil, soilData);
      match Invoke(AnalyzeSoil, flask)
      case Threw(m) => Handled(Failed(m, "Failed to analyze soil data"), [call, Release])
      case Value(resp) =>
        match Member(resp, "recommendation")
        case Failure(e) => Handled(Failed(e, "Failed to analyze soil data"), [call, Release])
        case Success(recommendation) =>
          var row := [Get(user, "userId"), Get(body, "device_id"), ph, n, p, k, Get(body, "moisture"),
                      Get(body, "temperature"), Or(recommendation, StringifyValue(resp))];
          var stored := Insert("soil_data", row);
          match insert
          case DbFault(_, m) => Handled(Failed(m, "Failed to analyze soil data"), [call, stored, Release])
          case Rows(_) => Handled(DataReply(200, resp), [call, stored, Release])
  }

  /** A missing or zero reading is a 400 before the ML service or the database is touched. */
  lemma SoilReadingsRequired(body: JsValue, user: JsValue, flask: CallOutcome, insert: DbOutcome, key: string)
    requires key in ["ph_level", "nitrogen", "phosphorus", "potassium"]
    requires Get(body, key) == Num(0) || Get(body, key) == Undefined || Get(body, key) == Str("")
    ensures SoilAnalysis(body, user, flask, insert) ==
      Handled(ErrorReply(400, "Ph level, nitrogen, phosphorus, and potassium are required"), [Release])
  {
  }

  /** The stored recommendation is the service's `recommendation`, or the whole reply as JSON when it has none. */
  lemma SoilRecommendationStored(body: JsValue, user: JsValue, resp: JsValue, insert: DbOutcome)
    requires Truthy(Get(body, "ph_level")) && Truthy(Get(body, "nitrogen"))
    requires Truthy(Get(body, "phosphorus")) && Truthy(Get(body, "potassium"))
    requires resp.Obj?
    ensures var h := SoilAnalysis(body, user, Answer(resp), insert);
      |h.trace| == 3 && h.trace[1].Insert? && h.trace[1].table == "soil_data" && |h.trace[1].values| == 9 &&
      h.trace[1].values[8] == (if Truthy(Get(resp, "recommendation")) then Get(resp, "recommendation") else StringifyValue(resp)) &&
      (insert.Rows? ==> h.reply == DataReply(200, resp))
  {
  }

  /** `HooksController.resourceEstimation`. */
  function ResourceEstimation(body: JsValue, user: JsValue, flask: CallOutcome, insert: DbOutcome): Handled {
    var crop := Get(body, "crop_name");
    var area := Get(body, "land_area");
    if !Truthy(crop) || !Truthy(area) then
      Handled(ErrorReply(400, "Crop name and land area are required"), [Release])
    else
      var unit := OrStr(Get(body, "land_unit"), "acres");
      var resourceData := Obj([Field("crop_name", crop), Field("land_area", area), Field("land_unit", unit),
                               Field("soil_quality", Get(body, "soil_quality"))]);
      var call := Request(EstimateResources, resourceData);
      match Invoke(EstimateResources, flask)
      case Threw(m) => Handled(Failed(m, "Failed to estimate resources"), [call, Release])
      case Value(resp) =>
        match Member(resp, "estimated_fertilizer")
        case Failure(e) => Handled(Failed(e, "Failed to estimate resources"), [call, Release])
        case Success(fertilizer) =>
          var row := [Get(user, "userId"), crop, area, unit, Get(body, "soil_quality"), fertilizer,
                      Get(resp, "estimated_water"), Get(resp, "other_resources"), Get(resp, "advice")];
          var stored := Insert("resource_estimations", row);
          match insert
          case DbFault(_, m) => Handled(Failed(m, "Failed to estimate resources"), [call, stored, Release])
          case Rows(_) => Handled(DataReply(200, resp), [call, stored, Release])
  }

  /** A missing land unit is sent and stored as `acres`; a given one is sent and stored as given. */
  lemma LandUnitDefault(body: JsValue, user: JsValue, flask: CallOutcome, insert: DbOutcome)
    requires Truthy(Get(body, "crop_name")) && Truthy(Get(body, "land_area"))
    ensures var h := ResourceEstimation(body, user, flask, insert);
      var unit := if Truthy(Get(body, "land_unit")) then Get(body, "land_unit") else Str("acres");
      h.trace[0].Call? && Get(h.trace[0].payload, "land_unit") == unit &&
      (flask.Answer? && !IsNullish(flask.data) ==> h.trace[1].Insert? && h.trace[1].values[3] == unit)
  {
    LandUnitSent(body, user, flask, insert);
    if flask.Answer? && !IsNullish(flask.data) {
      LandUnitStored(body, user, flask, insert);
    }
  }

  lemma LandUnitSent(body: JsValue, user: JsValue, flask: CallOutcome, insert: DbOutcome)
    requires Truthy(Get(body, "crop_name")) && Truthy(Get(body, "land_area"))
    ensures var h := ResourceEstimation(body, user, flask, insert);
      h.trace[0].Call? && Get(h.trace[0].payload, "land_unit") == OrStr(Get(body, "land_unit"), "acres")
  {
    var unit := OrStr(Get(body, "land_unit"), "acres");
    var fs := [Field("crop_name", Get(body, "crop_name")), Field("land_area", Get(body, "land_area")),
               Field("land_unit", unit), Field("soil_quality", Get(body, "soil_quality"))];
    LookupAt(fs, 2, "land_unit");
  }

  lemma LandUnitStored(body: JsValue, user: JsValue, flask: CallOutcome, insert: DbOutcome)
    requires Truthy(Get(body, "crop_name")) && Truthy(Get(body, "land_area"))
    requires flask.Answer? && !IsNullish(flask.data)
    ensures var h := ResourceEstimation(body, user, flask, insert);
      h.trace[1].Insert? && h.trace[1].values[3] == OrStr(Get(body, "land_unit"), "acres")
  {
    var resp := flask.data;
    assert Invoke(EstimateResources, flask) == Value(resp);
    assert Member(resp, "estimated_fertilizer") == Success(Get(resp, "estimated_fertilizer"));
  }

  /** `HooksController.weatherAdvisory`: the weather and market data are stored as JSON, `{}` when absent. */
  function WeatherAdvisory(body: JsValue, user: JsValue, flask: CallOutcome, insert: DbOutcome): Handled {
    var location := Get(body, "location");
    if !Truthy(location) then Handled(ErrorReply(400, "Location is required"), [Release])
    else
      var call := Request(GetWeatherAdvisory, Obj([Field("location", location), Field("crop", Get(body, "crop"))]));
      match Invoke(GetWeatherAdvisory, flask)
      case Threw(m) => Handled(Failed(m, "Failed to get weather advisory"), [call, Release])
      case Value(resp) =>
        match Member(resp, "weather_data")
        case Failure(e) => Handled(Failed(e, "Failed to get weather advisory"), [call, Release])
        case Success(weather) =>
          var row := [Get(user, "userId"), location, StringifyValue(Or(weather, Obj([]))),
                      StringifyValue(Or(Get(resp, "market_prices"), Obj([]))), Get(resp, "crop_suitability")];
          var stored := Insert("weather_queries", row);
          match insert
          case DbFault(_, m) => Handled(Failed(m, "Failed to get weather advisory"), [call, stored, Release])
          case Rows(_) => Handled(DataReply(200, resp), [call, stored, Release])
  }

  /** Missing weather or market data is stored as the text `{}`. */
  lemma WeatherDefaultsStored(body: JsValue, user: JsValue, resp: JsValue, insert: DbOutcome)
    requires Truthy(Get(body, "location")) && resp.Obj?
    requires !Truthy(Get(resp, "weather_data")) && !Truthy(Get(resp, "market_prices"))
    ensures var h := WeatherAdvisory(body, user, Answer(resp), insert);
      h.trace[1].Insert? && h.trace[1].values[2] == Str("{}") && h.trace[1].values[3] == Str("{}")
  {
    StringifyAllUndefined([]);
  }

  /** `HooksController.schemeSearch`, which takes no database client. */
  function SchemeSearch(body: JsValue, flask: CallOutcome): Handled {
    var query := Get(body, "query");
    if !Truthy(query) then Handled(ErrorReply(400, "Search query is required"), [])
    else
      var call := Request(SearchSchemes, Obj([Field("query", query), Field("filters", Or(Get(body, "filters"), Obj([])))]));
      match Invoke(SearchSchemes, flask)
      case Threw(m) => Handled(Failed(m, "Failed to search schemes"), [call])
      case Value(resp) => Handled(DataReply(200, resp), [call])
  }

  /** The guarded hooks make no call and no insert when their required field is falsy. */
  lemma GuardsBeforeEffects(body: JsValue, user: JsValue, flask: CallOutcome, insert: DbOutcome)
    ensures !Truthy(Get(body, "location")) ==> WeatherAdvisory(body, user, flask, insert).trace == [Release]
    ensures !Truthy(Get(body, "crop_name")) || !Truthy(Get(body, "land_area")) ==>
      ResourceEstimation(body, user, flask, insert) == Handled(ErrorReply(400, "Crop name and land area are required"), [Release])
    ensures !Truthy(Get(body, "query")) ==> SchemeSearch(body, flask) == Handled(ErrorReply(400, "Search query is required"), [])
  {
  }

  /** The hooks that take a database client release it last, on every path. */
  lemma SoilReleases(body: JsValue, user: JsValue, flask: CallOutcome, insert: DbOutcome)
    ensures var h := SoilAnalysis(body, user, flask, insert); |h.trace| > 0 && h.trace[|h.trace| - 1] == Release
  {
  }

  lemma ResourceReleases(body: JsValue, user: JsValue, flask: CallOutcome, insert: DbOutcome)
    ensures var h := ResourceEstimation(body, user, flask, insert); |h.trace| > 0 && h.trace[|h.trace| - 1] == Release
  {
  }

  lemma WeatherReleases(body: JsValue, user: JsValue, flask: CallOutcome, insert: DbOutcome)
    ensures var h := WeatherAdvisory(body, user, flask, insert); |h.trace| > 0 && h.trace[|h.trace| - 1] == Release
  {
  }

  // ---- diseaseDetection ----

  /** The uploaded image multer hands over. */
  datatype ImageFile = ImageFile(originalname: string, buffer: seq<bv8>)

  const DiseaseFolder: string := "disease-detection"

  /** `detectionResponse.detected && detectionResponse.disease` */
  predicate DetectionSuccessful(detection: JsValue) {
    Truthy(Get(detection, "detected")) && Truthy(Get(detection, "disease"))
  }

  /** The `diseaseInfo` handed to getDiseaseCure. */
  function DiseaseInfo(detection: JsValue, imageUrl: JsValue): JsValue {
    Obj([Field("disease_name", Get(detection, "disease")), Field("confidence", Get(detection, "confidence")),
         Field("image_url", imageUrl)])
  }

  /** `cureResponse.cure_recommendation || JSON.stringify(cureResponse)` */
  function StoredCure(detection: JsValue, imageUrl: JsValue, now: nat, toFixed3: int -> string, cure: CallOutcome): JsValue {
    var response := GetDiseaseCure(DiseaseInfo(detection, imageUrl), now, toFixed3, cure).result;
    Or(Get(response, "cure_recommendation"), StringifyValue(response))
  }

  /** When the chatbot fails, the cure stored and returned is the text `{}`. */
  lemma FailedCureIsEmptyObjectText(detection: JsValue, imageUrl: JsValue, now: nat, toFixed3: int -> string, message: string)
    ensures StoredCure(detection, imageUrl, now, toFixed3, Fault(message)) == Str("{}")
  {
    CureNormalisation(DiseaseInfo(detection, imageUrl), now, toFixed3, Fault(message));
  }

  /** A chatbot reply with a truthy `response` is stored as that response. */
  lemma AnsweredCureStored(detection: JsValue, imageUrl: JsValue, now: nat, toFixed3: int -> string, data: JsValue)
    requires Truthy(Get(data, "response"))
    ensures StoredCure(detection, imageUrl, now, toFixed3, Answer(data)) == Get(data, "response")
  {
    CureNormalisation(DiseaseInfo(detection, imageUrl), now, toFixed3, Answer(data));
  }

  /** The success reply of diseaseDetection. */
  function DetectionReply(detection: JsValue, cure: JsValue, imageUrl: JsValue, successful: bool): Reply {
    DataReply(200, Obj([Field("detection", detection), Field("cure", if successful then cure else Null),
      Field("image_url", imageUrl),
      Field("message", Str(if successful then "Disease detected and cure recommendation provided"
                           else "No disease detected or image unclear"))]))
  }

  /** The success reply carries the cure only for a successful detection, and `null` otherwise. */
  lemma DetectionReplyCure(detection: JsValue, cure: JsValue, imageUrl: JsValue, successful: bool)
    ensures Get(Data(DetectionReply(detection, cure, imageUrl, successful)), "cure") == (if successful then cure else Null)
    ensures Get(Data(DetectionReply(detection, cure, imageUrl, successful)), "image_url") == imageUrl
  {
    var fs := [Field("detection", detection), Field("cure", if successful then cure else Null),
      Field("image_url", imageUrl),
      Field("message", Str(if successful then "Disease detected and cure recommendation provided"
                           else "No disease detected or image unclear"))];
    DataReplyFields(200, Obj(fs));
    LookupAt(fs, 1, "cure");
    LookupAt(fs, 2, "image_url");
  }

  /** The row diseaseDetection stores. */
  function DetectionRow(user: JsValue, imageUrl: JsValue, detection: JsValue, cure: JsValue, successful: bool): Effect {
    Insert("disease_detections",
      [Get(user, "userId"), imageUrl, Get(detection, "disease"), Get(detection, "confidence"), cure, Bool(successful)])
  }

  /**
   * `HooksController.diseaseDetection`. `detection` is the outcome of the
   * detection POST, `upload` the uploaded image's secure URL (`None` when the
   * upload failed), `cure` the outcome of the chatbot call getDiseaseCure makes
   * and `insert` that of the INSERT. The temporary file is written and removed
   * around the calls; the image is uploaded whatever the detection says, and
   * the cure is asked for, stored and returned only for a successful detection.
   */
  method DiseaseDetection(file: Option<ImageFile>, user: JsValue, now: nat, toFixed3: int -> string,
                          detection: CallOutcome, upload: Option<JsValue>, cure: CallOutcome, insert: DbOutcome)
    returns (reply: Reply, trace: seq<Effect>)
    ensures file.None? ==> reply == ErrorReply(400, "Image is required") && trace == [Release]
    ensures file.Some? ==> |trace| >= 4 && trace[0] == WriteTemp && trace[|trace| - 2..] == [RemoveTemp, Release]
    ensures file.Some? && detection.Fault? ==> reply == ErrorReply(500, "Failed to detect disease") && |trace| == 4
    ensures file.Some? && detection.Answer? && !IsNullish(detection.data) ==> trace[2] == Effect.Upload(DiseaseFolder)
    ensures file.Some? && detection.Answer? && !IsNullish(detection.data) && upload.Some? ==>
      var det := detection.data;
      var successful := DetectionSuccessful(det);
      var curing := if successful then StoredCure(det, upload.value, now, toFixed3, cure) else Null;
      trace[3..|trace| - 2] ==
        (if successful then [GetDiseaseCure(DiseaseInfo(det, upload.value), now, toFixed3, cure).request] else []) +
        [DetectionRow(user, upload.value, det, curing, successful)] &&
      (insert.Rows? ==> reply == DetectionReply(det, curing, upload.value, successful))
    ensures reply.status == 200 <==>
      file.Some? && detection.Answer? && !IsNullish(detection.data) && upload.Some? && insert.Rows?
  {
    if file.None? {
      reply := ErrorReply(400, "Image is required");
      trace := [Release];
      return;
    }
    // The detection POST carries the temporary file, named after the clock and the original name.
    trace := [WriteTemp, Request(DetectDisease, Str("disease_" + NatToString(now) + "_" + file.value.originalname))];
    var returned := Invoke(DetectDisease, detection);
    if returned.Threw? {
      reply := Failed(returned.message, "Failed to detect disease");
      trace := trace + [RemoveTemp, Release];
      return;
    }
    var detectionResponse := returned.v;
    var detected := Member(detectionResponse, "detected");
    if detected.Failure? {
      reply := Failed(detected.error, "Failed to detect disease");
      trace := trace + [RemoveTemp, Release];
      return;
    }
    var cloudinaryUrl := Null;
    // Both branches of the source upload the image before anything else.
    trace := trace + [Effect.Upload(DiseaseFolder)];
    if upload.None? {
      reply := Failed("Failed to upload image to Cloudinary", "Failed to detect disease");
      trace := trace + [RemoveTemp, Release];
      return;
    }
    cloudinaryUrl := upload.value;
    var middle;
    reply, middle := RecordDetection(detectionResponse, user, cloudinaryUrl, now, toFixed3, cure, insert);
    MiddleOf(trace, middle, [RemoveTemp, Release]);
    trace := trace + middle + [RemoveTemp, Release];
  }

  /**
   * The part of diseaseDetection after the image is stored at `imageUrl`:
   * for a successful detection the cure is asked for; then the row is
   * inserted and the reply built. `middle` is what happens in between.
   */
  method RecordDetection(detectionResponse: JsValue, user: JsValue, imageUrl: JsValue, now: nat, toFixed3: int -> string,
                         cure: CallOutcome, insert: DbOutcome)
    returns (reply: Reply, middle: seq<Effect>)
    ensures var successful := DetectionSuccessful(detectionResponse);
      var curing := if successful then StoredCure(detectionResponse, imageUrl, now, toFixed3, cure) else Null;
      middle == (if successful then [GetDiseaseCure(DiseaseInfo(detectionResponse, imageUrl), now, toFixed3, cure).request] else []) +
        [DetectionRow(user, imageUrl, detectionResponse, curing, successful)] &&
      (insert.Rows? ==> reply == DetectionReply(detectionResponse, curing, imageUrl, successful))
    ensures reply.status == 200 <==> insert.Rows?
  {
    var cureRecommendation := Null;
    var detectionSuccessful := false;
    middle := [];
    if Truthy(Get(detectionResponse, "detected")) && Truthy(Get(detectionResponse, "disease")) {
      detectionSuccessful := true;
      var cureResponse := GetDiseaseCure(DiseaseInfo(detectionResponse, imageUrl), now, toFixed3, cure);
      middle := [cureResponse.request];
      cureRecommendation := StoredCure(detectionResponse, imageUrl, now, toFixed3, cure);
    }
    middle := middle + [DetectionRow(user, imageUrl, detectionResponse, cureRecommendation, detectionSuccessful)];
    if insert.DbFault? {
      reply := Failed(insert.message, "Failed to detect disease");
    } else {
      reply := DetectionReply(detectionResponse, cureRecommendation, imageUrl, detectionSuccessful);
    }
  }

  lemma MiddleOf(pre: seq<Effect>, middle: seq<Effect>, post: seq<Effect>)
    requires |pre| == 3 && |post| == 2
    ensures var t := pre + middle + post; |t| >= 5 && t[0] == pre[0] && t[2] == pre[2] && t[3..|t| - 2] == middle && t[|t| - 2..] == post
  {
  }

  // ---- translate and textToSpeech ----

  /** `HooksController.translate`: equal languages echo the text; a translator failure still succeeds with the text. */
  function Translate(body: JsValue, translation: CallOutcome): Handled {
    var text := Get(body, "text");
    var source := Get(body, "source_lang");
    var target := Get(body, "target_lang");
    if !Truthy(text) || !Truthy(source) || !Truthy(target) then
      Handled(ErrorReply(400, "Text, source_lang, and target_lang are required"), [])
    else if StrictEquals(source, target) then
      Handled(DataReply(200, Obj([Field("translated_text", text)])), [])
    else
      var call := TranslateCall(text, source, target);
      var fallback := DataReply(200, Obj([Field("translated_text", text),
        Field("note", Str("Translation service unavailable, returning original text"))]));
      match translation
      case Fault(_) => Handled(fallback, [call])
      case Answer(data) =>
        match Member(data, "translatedText")
        case Failure(_) => Handled(fallback, [call])
        case Success(translated) => Handled(DataReply(200, Obj([Field("translated_text", Or(translated, text))])), [call])
  }

  /**
   * Translate always answers 200 once its three fields are present: with the
   * input when the languages are equal (no call), with the original text when
   * the translator fails, and with the translation otherwise.
   */
  lemma TranslateTotal(body: JsValue, translation: CallOutcome)
    ensures var h := Translate(body, translation);
      var text := Get(body, "text");
      (h.reply.status == 400 <==> !Truthy(text) || !Truthy(Get(body, "source_lang")) || !Truthy(Get(body, "target_lang"))) &&
      (h.reply.status != 400 ==> h.reply.status == 200 && SuccessFlag(h.reply) == Bool(true)) &&
      (h.reply.status == 200 && Get(body, "source_lang") == Get(body, "target_lang") && Get(body, "source_lang").Str? ==>
        h == Handled(DataReply(200, Obj([Field("translated_text", text)])), [])) &&
      (h.reply.status == 200 && translation.Fault? && !StrictEquals(Get(body, "source_lang"), Get(body, "target_lang")) ==>
        Get(Data(h.reply), "translated_text") == text)
  {
    var h := Translate(body, translation);
    var text := Get(body, "text");
    if h.reply.status == 200 && translation.Fault? && !StrictEquals(Get(body, "source_lang"), Get(body, "target_lang")) {
      var fs := [Field("translated_text", text), Field("note", Str("Translation service unavailable, returning original text"))];
      assert h.reply == DataReply(200, Obj(fs));
      DataReplyFields(200, Obj(fs));
      LookupAt(fs, 0, "translated_text");
    }
  }

  /** `HooksController.textToSpeech`: a TTS failure is a 500 that points the client at its browser voice. */
  function TextToSpeech(body: JsValue, client: bool, cloud: Result<string, string>, free: Result<seq<bv8>, string>,
                        base64: seq<bv8> -> string): Reply
  {
    var text := Get(body, "text");
    if !Truthy(text) then ErrorReply(400, "Text is required")
    else
      var targetLang := OrStr(Get(body, "language"), "en-US");
      match TtsService.SynthesizeSpeech(text, targetLang, Null, client, cloud, free, base64).result
      case Success(audio) =>
        DataReply(200, Obj([Field("audio", Str(audio.audio)), Field("format", Str(audio.format)), Field("provider", Str(audio.provider))]))
      case Failure(_) =>
        Reply(500, Obj(TtsUnavailable))
  }

  /** The body of the speech failure reply, which names the browser as the fallback voice. */
  const TtsUnavailable: seq<Field> := [Field("success", Bool(false)),
    Field("message", Str("TTS service unavailable. Please use browser TTS or configure Google Cloud TTS.")),
    Field("fallback", Str("browser"))]

  lemma TtsFallbackField()
    ensures Get(Obj(TtsUnavailable), "fallback") == Str("browser")
  {
    LookupAt(TtsUnavailable, 2, "fallback");
  }

  /** Speech defaults to `en-US`; every synthesis failure is the same 500 with a browser fallback hint. */
  lemma TextToSpeechOutcomes(body: JsValue, client: bool, cloud: Result<string, string>, free: Result<seq<bv8>, string>,
                             base64: seq<bv8> -> string)
    requires Truthy(Get(body, "text"))
    ensures var s := TtsService.SynthesizeSpeech(Get(body, "text"), OrStr(Get(body, "language"), "en-US"), Null, client, cloud, free, base64);
      var r := TextToSpeech(body, client, cloud, free, base64);
      (s.result.Failure? ==> r.status == 500 && Get(r.body, "fallback") == Str("browser")) &&
      (s.result.Success? ==> r.status == 200 && Get(Data(r), "format") == Str("mp3"))
  {
    var s := TtsService.SynthesizeSpeech(Get(body, "text"), OrStr(Get(body, "language"), "en-US"), Null, client, cloud, free, base64);
    TtsService.OutcomeShape(Get(body, "text"), OrStr(Get(body, "language"), "en-US"), Null, client, cloud, free, base64);
    if s.result.Success? {
      var a := s.result.value;
      var fs := [Field("audio", Str(a.audio)), Field("format", Str(a.format)), Field("provider", Str(a.provider))];
      DataReplyFields(200, Obj(fs));
      LookupAt(fs, 1, "format");
    } else {
      TtsFallbackField();
    }
  }
}
