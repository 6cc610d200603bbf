/**
 * The browser's disease client: it normalises the detection hook's reply into
 * a flat record and asks the chatbot about a named disease.
 */
module DiseaseService {
  import opened Wrappers
  import opened Strings
  import opened JsValues
  import opened Http

  /** The record `detectDisease` resolves to. */
  datatype Detection = Detection(raw: JsValue, diseaseDetected: bool, diseaseName: JsValue,
                                 confidence: JsValue, cureRecommendation: JsValue)

  /** `data?.data || {}` */
  function Payload(data: JsValue): (p: JsValue)
    ensures Truthy(p)
  {
    Or(Get(data, "data"), Obj([]))
  }

  /** `detectDisease`: `data` is the body of the hook's reply. */
  function DetectDisease(data: JsValue): (d: Detection)
    ensures d.raw == Payload(data)
    ensures d.diseaseDetected <==> Truthy(Get(Get(Payload(data), "detection"), "detected"))
    ensures Truthy(Get(Get(Payload(data), "detection"), "disease")) ==> d.diseaseName == Get(Get(Payload(data), "detection"), "disease")
    ensures !Truthy(Get(Get(Payload(data), "detection"), "disease")) ==> d.diseaseName == Null
    ensures IsNullish(d.confidence) <==> IsNullish(Get(Get(Payload(data), "detection"), "confidence"))
    ensures !IsNullish(d.confidence) ==> d.confidence == Get(Get(Payload(data), "detection"), "confidence")
    ensures d.cureRecommendation == Null || (Truthy(d.cureRecommendation) && d.cureRecommendation == Get(Payload(data), "cure"))
  {
    var payload := Payload(data);
    var detection := Or(Get(payload, "detection"), Obj([]));
    Detection(payload, Truthy(Get(detection, "detected")), Or(Get(detection, "disease"), Null),
              Coalesce(Get(detection, "confidence"), Null), Or(Get(payload, "cure"), Null))
  }

  /**
   * `||` and `??` differ where it shows: a confidence of 0 is kept while an
   * empty disease name becomes null, and a reply without a detection is "not
   * detected".
   */
  lemma NormalisationEdges(cure: JsValue)
    ensures var d := DetectDisease(Obj([Field("data", Obj([Field("detection",
               Obj([Field("detected", Bool(true)), Field("disease", Str("")), Field("confidence", Num(0))])),
               Field("cure", cure)]))]));
      d.confidence == Num(0) && d.diseaseName == Null && d.diseaseDetected
    ensures !DetectDisease(Obj([])).diseaseDetected && DetectDisease(Obj([])).raw == Obj([])
    ensures DetectDisease(Obj([])).cureRecommendation == Null
  {
    var det := Obj([Field("detected", Bool(true)), Field("disease", Str("")), Field("confidence", Num(0))]);
    var payload := Obj([Field("detection", det), Field("cure", cure)]);
    LookupAt([Field("data", payload)], 0, "data");
    LookupAt([Field("detection", det), Field("cure", cure)], 0, "detection");
    LookupAt([Field("detected", Bool(true)), Field("disease", Str("")), Field("confidence", Num(0))], 0, "detected");
    LookupAt([Field("detected", Bool(true)), Field("disease", Str("")), Field("confidence", Num(0))], 1, "disease");
    LookupAt([Field("detected", Bool(true)), Field("disease", Str("")), Field("confidence", Num(0))], 2, "confidence");
  }

  const InfoLead: string := "Tell me about "
  const InfoRest: string := " plant disease, its symptoms, causes, and treatment methods."

  /** The question `getDiseaseInfo` asks the chatbot. */
  function InfoMessage(diseaseName: JsValue): (m: string)
    ensures Contains(m, ToJsString(diseaseName))
    ensures StartsWith(m, InfoLead)
  {
    var m := InfoLead + ToJsString(diseaseName) + InfoRest;
    ContainsInfix(InfoLead, ToJsString(diseaseName), InfoRest);
    assert m[..|InfoLead|] == InfoLead;
    m
  }

  /** `getDiseaseInfo(diseaseName, language = 'en')`: the one chatbot request and its `data?.data`. */
  function DiseaseInfoRequest(diseaseName: JsValue, language: JsValue): (e: Effect)
    ensures e.Call? && e.endpoint == "/hooks/chatbot"
    ensures Get(e.payload, "message").Str? && Contains(Get(e.payload, "message").s, ToJsString(diseaseName))
    ensures language.Undefined? ==> Get(e.payload, "language") == Str("en")
    ensures !language.Undefined? ==> Get(e.payload, "language") == language
  {
    var fields := [Field("message", Str(InfoMessage(diseaseName))), Field("language", DefaultTo(language, Str("en")))];
    LookupAt(fields, 0, "message");
    LookupAt(fields, 1, "language");
    Call("/hooks/chatbot", Obj(fields))
  }
}
