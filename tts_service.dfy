/**
 * The backend's text-to-speech service. With a Google Cloud client configured
 * it asks the cloud first and falls back to the free Google Translate endpoint
 * when that throws; without a client only the free endpoint is used. The free
 * endpoint receives at most 200 characters, and an empty audio body counts as a
 * failure. Whatever goes wrong on the free path surfaces as one fixed message.
 *
 * The two remote services are inputs: the cloud's base64 audio or its error, and
 * the free endpoint's body bytes or its error.
 */
module TtsService {
  import opened Wrappers
  import opened Strings
  import opened JsValues

  datatype Voice = Voice(name: string, gender: string)

  /** The voice map of the cloud path, keyed by language prefix. */
  function VoiceFor(code: string): Option<Voice> {
    if code == "en" then Some(Voice("en-US-Neural2-F", "FEMALE"))
    else if code == "hi" then Some(Voice("hi-IN-Neural2-A", "FEMALE"))
    else if code == "pa" then Some(Voice("pa-IN-Standard-A", "FEMALE"))
    else if code == "bn" then Some(Voice("bn-IN-Standard-A", "FEMALE"))
    else if code == "te" then Some(Voice("te-IN-Standard-A", "FEMALE"))
    else if code == "mr" then Some(Voice("mr-IN-Standard-A", "FEMALE"))
    else if code == "ta" then Some(Voice("ta-IN-Standard-A", "FEMALE"))
    else if code == "gu" then Some(Voice("gu-IN-Standard-A", "FEMALE"))
    else None
  }

  const MappedCodes: seq<string> := ["en", "hi", "pa", "bn", "te", "mr", "ta", "gu"]

  /** `language.split('-')[0]` */
  function LangCode(language: string): (code: string)
    ensures '-' !in code && StartsWith(language, code)
  {
    Split(language, '-')[0]
  }

  /** `voiceMap[langCode] || voiceMap['en']` */
  function VoiceConfig(language: string): Voice {
    VoiceFor(LangCode(language)).GetOr(VoiceFor("en").value)
  }

  datatype CloudRequest = CloudRequest(text: JsValue, languageCode: string, name: JsValue, gender: string, encoding: string)

  /** The request sent to the cloud: the caller's voice name when given, else the mapped voice. */
  function CloudRequestFor(text: JsValue, language: string, voiceName: JsValue): CloudRequest {
    var config := VoiceConfig(language);
    CloudRequest(text, language, Or(voiceName, Str(config.name)), config.gender, "MP3")
  }

  /** The parameters of the free endpoint that the model keeps: the text, its language and `textlen`. */
  datatype FreeRequest = FreeRequest(q: string, tl: string, textlen: nat)

  const FreeLimit: nat := 200

  function Min(a: nat, b: nat): nat {
    if a <= b then a else b
  }

  /** `q: text.substring(0, 200)`, `tl: langCode`, `textlen: Math.min(text.length, 200)`. */
  function FreeRequestFor(text: string, language: string): FreeRequest {
    FreeRequest(text[..Min(|text|, FreeLimit)], LangCode(language), Min(|text|, FreeLimit))
  }

  datatype Request = ToCloud(cloud: CloudRequest) | ToFree(free: FreeRequest)

  datatype Audio = Audio(audio: string, format: string, provider: string)

  /** The requests made, in order, and the audio returned or the message thrown. */
  datatype Synthesis = Synthesis(requests: seq<Request>, result: Result<Audio, string>)

  const Unavailable: string := "TTS service unavailable. Please configure Google Cloud TTS for best quality."

  /**
   * `useFreeTTS`: a non-string text or language throws before any request; an
   * error or an empty body from the endpoint fails too. Every failure is reported
   * with the fixed `Unavailable` message.
   */
  function FreeTts(text: JsValue, language: JsValue, free: Result<seq<bv8>, string>, base64: seq<bv8> -> string): (s: Synthesis)
    ensures s.result.Success? ==> s.result.value.format == "mp3" && s.result.value.provider == "google-translate-free"
    ensures s.result.Failure? ==> s.result.error == Unavailable
  {
    if !language.Str? || !text.Str? then Synthesis([], Failure(Unavailable))
    else
      var request := [ToFree(FreeRequestFor(text.s, language.s))];
      match free
      case Failure(_) => Synthesis(request, Failure(Unavailable))
      case Success(body) =>
        if |body| > 0 then Synthesis(request, Success(Audio(base64(body), "mp3", "google-translate-free")))
        else Synthesis(request, Failure(Unavailable))
  }

  /**
   * `synthesizeSpeech(text, language, voiceName)`. `client` says whether the cloud
   * client was configured when the module loaded; `cloud` is the cloud's base64
   * audio or its error, `free` the free endpoint's body or its error.
   */
  function SynthesizeSpeech(text: JsValue, language: JsValue, voiceName: JsValue, client: bool,
                            cloud: Result<string, string>, free: Result<seq<bv8>, string>,
                            base64: seq<bv8> -> string): Synthesis
  {
    // the parameter defaults `language = 'en-US'` and `voiceName = null`
    var lang := DefaultTo(language, Str("en-US"));
    var voice := DefaultTo(voiceName, Null);
    if client then
      if !lang.Str? then FreeTts(text, lang, free, base64)
      else
        var asked := ToCloud(CloudRequestFor(text, lang.s, voice));
        match cloud
        case Success(audio) => Synthesis([asked], Success(Audio(audio, "mp3", "google-cloud")))
        case Failure(_) =>
          var fallback := FreeTts(text, lang, free, base64);
          Synthesis([asked] + fallback.requests, fallback.result)
    else FreeTts(text, lang, free, base64)
  }

  /** An omitted language is `en-US` and an omitted voice name is `null`, as the parameter defaults say. */
  lemma OmittedArguments(text: JsValue, client: bool, cloud: Result<string, string>, free: Result<seq<bv8>, string>,
                         base64: seq<bv8> -> string)
    ensures SynthesizeSpeech(text, Undefined, Undefined, client, cloud, free, base64) ==
            SynthesizeSpeech(text, Str("en-US"), Null, client, cloud, free, base64)
  {
  }

  /**
   * With a client the cloud is asked first and answers alone when it succeeds;
   * the free endpoint is asked only after the cloud failed or when there is no
   * client, and the cloud is never asked without a client.
   */
  lemma FallbackOrder(text: JsValue, language: string, voiceName: JsValue, client: bool,
                      cloud: Result<string, string>, free: Result<seq<bv8>, string>, base64: seq<bv8> -> string)
    ensures var s := SynthesizeSpeech(text, Str(language), voiceName, client, cloud, free, base64);
      (client ==> |s.requests| >= 1 && s.requests[0] == ToCloud(CloudRequestFor(text, language, voiceName))) &&
      (client && cloud.Success? ==> s == Synthesis([s.requests[0]], Success(Audio(cloud.value, "mp3", "google-cloud")))) &&
      (client && cloud.Failure? ==> s.result == FreeTts(text, Str(language), free, base64).result) &&
      (!client ==> s == FreeTts(text, Str(language), free, base64) && forall i :: 0 <= i < |s.requests| ==> s.requests[i].ToFree?)
  {
  }

  /** Every success is mp3, tagged with the path that produced it; every failure is the fixed message. */
  lemma OutcomeShape(text: JsValue, language: JsValue, voiceName: JsValue, client: bool,
                     cloud: Result<string, string>, free: Result<seq<bv8>, string>, base64: seq<bv8> -> string)
    ensures var r := SynthesizeSpeech(text, language, voiceName, client, cloud, free, base64).result;
      (r.Success? ==> r.value.format == "mp3" && (r.value.provider == "google-cloud" || r.value.provider == "google-translate-free")) &&
      (r.Success? && r.value.provider == "google-cloud" ==> client && cloud.Success?) &&
      (r.Failure? ==> r.error == Unavailable)
  {
  }

  /** An empty body from the free endpoint is a failure, never a silent success. */
  lemma EmptyAudioFails(text: JsValue, language: JsValue, voiceName: JsValue, client: bool,
                        cloud: Result<string, string>, base64: seq<bv8> -> string)
    requires !client || cloud.Failure?
    ensures SynthesizeSpeech(text, language, voiceName, client, cloud, Success([]), base64).result == Failure(Unavailable)
  {
  }

  /** The voice is chosen by the prefix before '-': the eight mapped prefixes have their own voice, any other falls back to English. */
  lemma VoiceSelection(language: string, voiceName: JsValue)
    ensures LangCode(language) !in MappedCodes ==> VoiceConfig(language) == Voice("en-US-Neural2-F", "FEMALE")
    ensures LangCode(language) in MappedCodes ==> VoiceConfig(language) == VoiceFor(LangCode(language)).value
    ensures VoiceConfig(language).gender == "FEMALE"
    ensures Truthy(voiceName) ==> CloudRequestFor(Undefined, language, voiceName).name == voiceName
    ensures !Truthy(voiceName) ==> CloudRequestFor(Undefined, language, voiceName).name == Str(VoiceConfig(language).name)
  {
  }

  /** Every mapped prefix has a voice, and a language tag selects its prefix's voice. */
  lemma MappedCodesHaveVoices(prefix: string, rest: string)
    requires prefix in MappedCodes
    ensures VoiceFor(prefix).Some?
    ensures VoiceConfig(prefix + "-" + rest) == VoiceFor(prefix).value
  {
    var s := prefix + "-" + rest;
    assert s == prefix + ['-'] + rest;
    assert '-' !in prefix;
    SplitConcat(prefix, '-', rest);
  }

  /** The free endpoint gets a prefix of the text of at most 200 characters, and textlen is its length. */
  lemma FreeTruncation(text: string, language: string)
    ensures var q := FreeRequestFor(text, language);
      |q.q| <= FreeLimit && StartsWith(text, q.q) && q.textlen == |q.q| &&
      (|text| <= FreeLimit ==> q.q == text) && (|text| > FreeLimit ==> q.textlen == FreeLimit)
  {
  }
}
