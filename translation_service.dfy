/**
 * The browser's translation service. It posts to the backend's translate hook
 * and never fails: the same language, blank text, a reply without a
 * translation and a failed request all give back the original text. The
 * backend's reply (or the request's failure) is an input.
 */
module TranslationService {
  import opened Strings
  import opened JsValues
  import opened Http

  const TranslatePath: string := "/hooks/translate"

  /** The text a call resolves to and the requests it made. */
  datatype Translated = Translated(text: JsValue, calls: seq<Effect>)

  function TranslateRequest(text: string, source: JsValue, target: JsValue): Effect {
    Call(TranslatePath, Obj([Field("text", Str(text)), Field("source_lang", source), Field("target_lang", target)]))
  }

  /** `response.data?.data?.translated_text` */
  function TranslatedText(reply: CallOutcome): JsValue {
    match reply
    case Answer(data) => Get(Get(data, "data"), "translated_text")
    case Fault(_) => Undefined
  }

  /** `translate(text, sourceLang, targetLang)` */
  function Translate(text: string, source: JsValue, target: JsValue, reply: CallOutcome): (t: Translated)
    ensures StrictEquals(source, target) || Trim(text) == [] <==> t == Translated(Str(text), [])
    ensures !StrictEquals(source, target) && Trim(text) != [] ==> t.calls == [TranslateRequest(text, source, target)]
    ensures t.text == Str(text) || (t.calls != [] && Truthy(t.text) && t.text == TranslatedText(reply))
    ensures Truthy(TranslatedText(reply)) && t.calls != [] ==> t.text == TranslatedText(reply)
  {
    if StrictEquals(source, target) then Translated(Str(text), [])
    else if text == "" || Trim(text) == "" then Translated(Str(text), [])
    else Translated(OrStr(TranslatedText(reply), text), [TranslateRequest(text, source, target)])
  }

  /** A failed request or a reply without a translation leaves the text as it was. */
  lemma TranslateFallsBack(text: string, source: JsValue, target: JsValue, reply: CallOutcome)
    requires reply.Fault? || !Truthy(TranslatedText(reply))
    ensures Translate(text, source, target, reply).text == Str(text)
  {
  }

  /** Text that is not blank never comes back empty. */
  lemma TranslateNeverEmpty(text: string, source: JsValue, target: JsValue, reply: CallOutcome)
    requires text != ""
    ensures Truthy(Translate(text, source, target, reply).text)
  {
  }

  /** `translateToEnglish(text, userLang)` */
  function ToEnglish(text: string, lang: JsValue, reply: CallOutcome): (t: Translated)
    ensures lang == Str("en") ==> t == Translated(Str(text), [])
  {
    if StrictEquals(lang, Str("en")) then Translated(Str(text), []) else Translate(text, lang, Str("en"), reply)
  }

  /** `translateFromEnglish(text, userLang)` */
  function FromEnglish(text: string, lang: JsValue, reply: CallOutcome): (t: Translated)
    ensures lang == Str("en") ==> t == Translated(Str(text), [])
  {
    if StrictEquals(lang, Str("en")) then Translated(Str(text), []) else Translate(text, Str("en"), lang, reply)
  }

  /**
   * The English short-cut of both helpers changes nothing: each agrees with a
   * plain `translate` into or out of English for every language.
   */
  lemma EnglishHelpersAgree(text: string, lang: JsValue, reply: CallOutcome)
    ensures ToEnglish(text, lang, reply) == Translate(text, lang, Str("en"), reply)
    ensures FromEnglish(text, lang, reply) == Translate(text, Str("en"), lang, reply)
  {
  }
}
