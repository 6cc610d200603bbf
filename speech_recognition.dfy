/**
 * The speech-input helpers of the browser: the BCP 47 tag used for each
 * application language, and the creation of a one-shot recognizer when the
 * browser has the Web Speech API.
 */
module SpeechRecognition {
  import opened Wrappers
  import opened JsValues

  /** The application's language codes. */
  const Codes: seq<string> := ["en", "hi", "pa", "bn", "te", "mr", "ta", "gu"]

  /** `languageMap`: the own properties of the object literal, one per code. */
  function LanguageMap(key: string): (tag: Option<string>)
    ensures tag.Some? <==> key in Codes
    ensures tag.Some? ==> tag.value == (if key == "en" then "en-US" else key + "-IN")
  {
    if key == "en" then Some("en-US")
    else if key == "hi" then Some("hi-IN")
    else if key == "pa" then Some("pa-IN")
    else if key == "bn" then Some("bn-IN")
    else if key == "te" then Some("te-IN")
    else if key == "mr" then Some("mr-IN")
    else if key == "ta" then Some("ta-IN")
    else if key == "gu" then Some("gu-IN")
    else None
  }

  /**
   * `languageMap[langCode] || 'en-US'`: the code is used as a property key,
   * that is, in its string form; every tag in the map is a non-empty string.
   */
  function SpeechLanguageCode(code: JsValue): (tag: string)
    ensures ToJsString(code) !in Codes ==> tag == "en-US"
    ensures ToJsString(code) in Codes ==> tag == LanguageMap(ToJsString(code)).value
  {
    match LanguageMap(ToJsString(code))
    case Some(t) => t
    case None => "en-US"
  }

  /** English maps to `en-US`, each Indian language to its `xx-IN` tag, and a missing language to `en-US`. */
  lemma EachCodeTagged(code: JsValue)
    ensures code.Str? && code.s in Codes[1..] ==> SpeechLanguageCode(code) == code.s + "-IN"
    ensures code in {Str("en"), Undefined, Null} ==> SpeechLanguageCode(code) == "en-US"
    ensures |SpeechLanguageCode(code)| == 5 && SpeechLanguageCode(code)[2] == '-'
  {
    if code.Str? && code.s in Codes[1..] {
      assert code.s != "en";
    }
    var key := ToJsString(code);
    if key in Codes {
      assert |key| == 2;
    }
  }

  /** A recognizer as configured here: one utterance, final results only. */
  datatype Recognizer = Recognizer(continuous: bool, interimResults: bool)

  /** `initializeSpeechRecognition`: `available` says whether the browser has the API. */
  function InitializeSpeechRecognition(available: bool): (r: Option<Recognizer>)
    ensures r.None? <==> !available
    ensures r.Some? ==> !r.value.continuous && !r.value.interimResults
  {
    if !available then None else Some(Recognizer(false, false))
  }
}
