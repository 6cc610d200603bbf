/**
 * The backend's enumerations: user roles, the hook (feature) types recorded in
 * chat history, report types and statuses, and the paths of the ML service.
 * Each is a datatype with the string the application stores or sends.
 */
module Constants {
  import opened Wrappers
  import opened JsValues

  datatype Role = Farmer | Admin {
    function Value(): string {
      match this
      case Farmer => "farmer"
      case Admin => "admin"
    }
  }

  /** The role a stored or submitted string names, if any. */
  function ParseRole(s: string): (r: Option<Role>)
    ensures r.Some? ==> r.value.Value() == s
    ensures r.None? ==> forall role: Role :: role.Value() != s
  {
    if s == "farmer" then Some(Farmer)
    else if s == "admin" then Some(Admin)
    else None
  }

  /** ROLES is exactly {farmer, admin}, and each role is read back from its string. */
  lemma RolesExactly(s: string)
    ensures (exists role: Role :: role.Value() == s) <==> (s == "farmer" || s == "admin")
    ensures forall role: Role :: ParseRole(role.Value()) == Some(role)
  {
    if s == "farmer" { assert Farmer.Value() == s; }
    if s == "admin" { assert Admin.Value() == s; }
  }

  /** `[ROLES.FARMER, ROLES.ADMIN].includes(role)`, a strict comparison. */
  predicate ValidRole(role: JsValue) {
    role.Str? && ParseRole(role.s).Some?
  }

  /** Exactly the two role strings are accepted. */
  lemma ValidRoleExactly(role: JsValue)
    ensures ValidRole(role) <==> role == Str(Farmer.Value()) || role == Str(Admin.Value())
  {
  }

  datatype HookType = Chatbot | Soil | Resource | Weather | Scheme | Disease {
    function Value(): string {
      match this
      case Chatbot => "chatbot"
      case Soil => "soil"
      case Resource => "resource"
      case Weather => "weather"
      case Scheme => "scheme"
      case Disease => "disease"
    }
  }

  const AllHookTypes: seq<HookType> := [Chatbot, Soil, Resource, Weather, Scheme, Disease]

  /** HOOK_TYPES lists six hooks with six distinct stored values. */
  lemma HookTypesDistinct()
    ensures |AllHookTypes| == 6
    ensures forall h: HookType :: h in AllHookTypes
    ensures forall i, j :: 0 <= i < j < |AllHookTypes| ==> AllHookTypes[i].Value() != AllHookTypes[j].Value()
  {
    forall h: HookType ensures h in AllHookTypes {
      match h
      case Chatbot => assert AllHookTypes[0] == h;
      case Soil => assert AllHookTypes[1] == h;
      case Resource => assert AllHookTypes[2] == h;
      case Weather => assert AllHookTypes[3] == h;
      case Scheme => assert AllHookTypes[4] == h;
      case Disease => assert AllHookTypes[5] == h;
    }
  }

  datatype ReportType = Bug | Inappropriate | Other {
    function Value(): string {
      match this
      case Bug => "bug"
      case Inappropriate => "inappropriate_content"
      case Other => "other"
    }
  }

  datatype ReportStatus = Pending | Resolved | Rejected {
    function Value(): string {
      match this
      case Pending => "pending"
      case Resolved => "resolved"
      case Rejected => "rejected"
    }
  }

  function ParseReportStatus(s: string): (r: Option<ReportStatus>)
    ensures r.Some? ==> r.value.Value() == s
    ensures r.None? ==> forall st: ReportStatus :: st.Value() != s
  {
    if s == "pending" then Some(Pending)
    else if s == "resolved" then Some(Resolved)
    else if s == "rejected" then Some(Rejected)
    else None
  }

  /** REPORT_STATUS is exactly {pending, resolved, rejected}. */
  lemma ReportStatusExactly(s: string)
    ensures (exists st: ReportStatus :: st.Value() == s) <==> (s == "pending" || s == "resolved" || s == "rejected")
    ensures forall st: ReportStatus :: ParseReportStatus(st.Value()) == Some(st)
  {
    if s == "pending" { assert Pending.Value() == s; }
    if s == "resolved" { assert Resolved.Value() == s; }
    if s == "rejected" { assert Rejected.Value() == s; }
  }

  datatype FlaskEndpoint =
    | ChatbotPath | SoilAnalysisPath | ResourceEstimatePath | WeatherAdvisoryPath
    | SchemeRecommendationsPath | DiseaseDetectionPath | DiseaseCurePath
  {
    function Path(): string {
      match this
      case ChatbotPath => "/chatbot"
      case SoilAnalysisPath => "/soil-analysis"
      case ResourceEstimatePath => "/resource-estimate"
      case WeatherAdvisoryPath => "/weather-advisory"
      case SchemeRecommendationsPath => "/scheme-recommendations"
      case DiseaseDetectionPath => "/detect-disease"
      case DiseaseCurePath => "/disease-cure"
    }
  }

  /** FLASK_ENDPOINTS: seven paths, pairwise distinct, each beginning with `/`. */
  lemma EndpointPathsDistinct()
    ensures forall e: FlaskEndpoint :: |e.Path()| > 1 && e.Path()[0] == '/'
    ensures forall e, f: FlaskEndpoint :: e != f ==> e.Path() != f.Path()
  {
  }
}
