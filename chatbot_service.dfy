/**
 * The browser's chatbot client: the query is translated to English for the
 * language model when the user writes in another language, and the original
 * is sent along for the history. The translation reply and the chatbot
 * hook's reply are inputs.
 */
module ChatbotService {
  import opened Wrappers
  import opened Strings
  import opened JsValues
  import opened Http
  import TranslationService

  const ChatbotPath: string := "/hooks/chatbot"

  /** The requests a call made and what it resolves to (or the request's error). */
  datatype Sent = Sent(calls: seq<Effect>, result: Result<JsValue, string>)

  /** `data?.data` of an answered request, the error of a failed one. */
  function ReplyData(reply: CallOutcome): (r: Result<JsValue, string>)
    ensures reply.Answer? <==> r.Success?
  {
    match reply
    case Answer(data) => Success(Get(data, "data"))
    case Fault(message) => Failure(message)
  }

  /** The text sent to the model: the query itself in English, otherwise its translation. */
  function EnglishMessage(query: string, language: JsValue, translation: CallOutcome): JsValue {
    if !StrictEquals(language, Str("en")) then TranslationService.ToEnglish(query, language, translation).text
    else Str(query)
  }

  function ChatPayload(query: string, language: JsValue, session: JsValue, translation: CallOutcome): JsValue {
    Obj([Field("message", EnglishMessage(query, language, translation)), Field("original_message", Str(query)),
         Field("session_id", session), Field("language", language)])
  }

  /**
   * `sendQuery(query, language = 'en', sessionId = null)`. A failed
   * translation cannot reach the catch here: the translation service already
   * falls back to the query.
   */
  function SendQuery(query: string, language: JsValue, sessionId: JsValue, translation: CallOutcome, reply: CallOutcome): (s: Sent)
    ensures var lang := DefaultTo(language, Str("en"));
      (|s.calls| == 2 <==> !StrictEquals(lang, Str("en")) && Trim(query) != []) && 1 <= |s.calls| <= 2 &&
      s.calls[|s.calls| - 1] == Call(ChatbotPath, ChatPayload(query, lang, DefaultTo(sessionId, Null), translation))
    ensures s.result == ReplyData(reply)
  {
    var lang := DefaultTo(language, Str("en"));
    var session := DefaultTo(sessionId, Null);
    var translated := if !StrictEquals(lang, Str("en")) then TranslationService.ToEnglish(query, lang, translation).calls else [];
    Sent(translated + [Call(ChatbotPath, ChatPayload(query, lang, session, translation))], ReplyData(reply))
  }

  /** In English, or with no language given, the model gets the query itself and nothing is translated. */
  lemma EnglishSendsQuery(query: string, sessionId: JsValue, translation: CallOutcome, reply: CallOutcome)
    ensures forall language | language in {Undefined, Str("en")} ::
      SendQuery(query, language, sessionId, translation, reply).calls ==
        [Call(ChatbotPath, ChatPayload(query, Str("en"), DefaultTo(sessionId, Null), translation))] &&
      EnglishMessage(query, Str("en"), translation) == Str(query)
  {
  }

  /** The history always gets the untranslated query, and a failed translation sends the query as it is. */
  lemma OriginalKept(query: string, language: JsValue, session: JsValue, translation: CallOutcome)
    ensures Get(ChatPayload(query, language, session, translation), "original_message") == Str(query)
    ensures translation.Fault? ==> EnglishMessage(query, language, translation) == Str(query)
  {
    LookupAt([Field("message", EnglishMessage(query, language, translation)), Field("original_message", Str(query)),
              Field("session_id", session), Field("language", language)], 1, "original_message");
  }

  /** Without a session id the request carries `null`, so the backend starts a new session. */
  lemma NoSessionSendsNull(query: string, language: JsValue, translation: CallOutcome)
    ensures Get(ChatPayload(query, language, DefaultTo(Undefined, Null), translation), "session_id") == Null
  {
    LookupAt([Field("message", EnglishMessage(query, language, translation)), Field("original_message", Str(query)),
              Field("session_id", Null), Field("language", language)], 2, "session_id");
  }
}
