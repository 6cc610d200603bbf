/**
 * The weekly disease survey: an administrator creates a survey, users fetch
 * the active one and submit a response with a photograph, and the surveys and
 * their responses are listed page by page. `now` is the clock reading
 * `Date.now()`; the uploaded image and the rows each query returns are inputs.
 * Query texts are modelled with their whitespace runs collapsed.
 */
module SurveyController {
  import opened Wrappers
  import opened Strings
  import opened JsValues
  import opened JsNumbers
  import opened Http
  import opened Sql
  import opened Pagination
  import R2Service

  // ---- createSurvey ----

  const SurveyRequired: string := "Title, week_number, year, and ends_at are required"

  predicate HasSurveyFields(body: JsValue) {
    Truthy(Get(body, "title")) && Truthy(Get(body, "week_number")) && Truthy(Get(body, "year")) && Truthy(Get(body, "ends_at"))
  }

  /** `SURVEY_W${week_number}_${year}_${Date.now()}` */
  function SurveyId(week: JsValue, year: JsValue, now: int): string {
    "SURVEY_W" + ToJsString(week) + "_" + ToJsString(year) + "_" + IntToString(now)
  }

  function SurveyValues(body: JsValue, now: int): seq<JsValue> {
    [Str(SurveyId(Get(body, "week_number"), Get(body, "year"), now)), Get(body, "title"), Get(body, "description"),
     Get(body, "week_number"), Get(body, "year"), Get(body, "ends_at")]
  }

  /** `createSurvey`: the description is optional. */
  function CreateSurvey(body: JsValue, now: int, insert: DbOutcome): (h: Handled)
    ensures !HasSurveyFields(body) <==> h == Handled(ErrorReply(400, SurveyRequired), [Release])
    ensures HasSurveyFields(body) ==> h.trace == [Insert("surveys", SurveyValues(body, now)), Release]
    ensures h.reply.status == 201 <==> HasSurveyFields(body) && insert.Rows?
  {
    if !HasSurveyFields(body) then Handled(ErrorReply(400, SurveyRequired), [Release])
    else
      var trace := [Insert("surveys", SurveyValues(body, now)), Release];
      match insert
      case DbFault(_, _) => Handled(ErrorReply(500, "Failed to create survey"), trace)
      case Rows(rows) => Handled(MessageDataReply(201, "Survey created successfully", FirstRow(rows)), trace)
  }

  /** A survey without a description is still created; any missing required field is a 400. */
  lemma DescriptionOptional(title: string, week: int, year: int, endsAt: string, now: int, insert: DbOutcome)
    requires title != "" && week != 0 && year != 0 && endsAt != ""
    ensures var body := Obj([Field("title", Str(title)), Field("week_number", Num(week)), Field("year", Num(year)),
                             Field("ends_at", Str(endsAt))]);
      HasSurveyFields(body) && Get(body, "description") == Undefined &&
      CreateSurvey(body, now, insert).trace[0] == Insert("surveys", SurveyValues(body, now))
  {
    var fs := [Field("title", Str(title)), Field("week_number", Num(week)), Field("year", Num(year)), Field("ends_at", Str(endsAt))];
    FourFieldsRead(fs, title, week, year, endsAt);
    CreateSurveyInserts(Obj(fs), now, insert);
  }

  lemma FourFieldsRead(fs: seq<Field>, title: string, week: int, year: int, endsAt: string)
    requires title != "" && week != 0 && year != 0 && endsAt != ""
    requires fs == [Field("title", Str(title)), Field("week_number", Num(week)), Field("year", Num(year)), Field("ends_at", Str(endsAt))]
    ensures HasSurveyFields(Obj(fs)) && Get(Obj(fs), "description") == Undefined
  {
    assert fs[0].key[0] == 't' && fs[1].key[0] == 'w' && fs[2].key[0] == 'y' && fs[3].key[0] == 'e';
    LookupAt(fs, 0, "title");
    LookupAt(fs, 1, "week_number");
    LookupAt(fs, 2, "year");
    LookupAt(fs, 3, "ends_at");
    NoDescription(fs);
  }

  lemma NoDescription(fs: seq<Field>)
    requires |fs| == 4 && fs[0].key == "title" && fs[1].key == "week_number" && fs[2].key == "year" && fs[3].key == "ends_at"
    ensures Get(Obj(fs), "description") == Undefined
  {
    assert "description"[0] == 'd';
    assert forall i :: 0 <= i < |fs| ==> fs[i].key[0] != 'd';
  }

  lemma CreateSurveyInserts(body: JsValue, now: int, insert: DbOutcome)
    requires HasSurveyFields(body)
    ensures CreateSurvey(body, now, insert).trace[0] == Insert("surveys", SurveyValues(body, now))
  {
  }

  lemma IntToStringPlain(n: int)
    ensures '_' !in IntToString(n)
  {
  }

  /**
   * The id reads back as its four `_`-separated parts: `SURVEY`, `W` and the
   * week, the year, and the creation time.
   */
  lemma SurveyIdParts(week: int, year: int, now: int)
    ensures Split(SurveyId(Num(week), Num(year), now), '_') ==
      ["SURVEY", "W" + IntToString(week), IntToString(year), IntToString(now)]
  {
    var w, y, t := IntToString(week), IntToString(year), IntToString(now);
    IntToStringPlain(week);
    IntToStringPlain(year);
    IntToStringPlain(now);
    assert '_' !in "W" + w;
    assert "SURVEY_W" == "SURVEY" + ['_'] + "W";
    assert SurveyId(Num(week), Num(year), now) == "SURVEY" + ['_'] + ("W" + w) + ['_'] + y + ['_'] + t;
    SplitFour("SURVEY", "W" + w, y, t, '_');
  }

  // ---- getActiveSurvey ----

  const ActiveSql: string :=
    "SELECT * FROM surveys WHERE is_active = true AND ends_at > NOW() ORDER BY created_at DESC LIMIT 1"

  /** `getActiveSurvey`: 404 when no survey is active and unexpired. */
  function GetActiveSurvey(result: DbOutcome): (h: Handled)
    ensures h.trace == [Query(ActiveSql, []), Release]
    ensures h.reply.status == 404 <==> result == Rows([])
    ensures h.reply.status == 200 <==> result.Rows? && result.rows != []
    ensures result.Rows? && result.rows != [] ==> h.reply == DataReply(200, result.rows[0])
  {
    var trace := [Query(ActiveSql, []), Release];
    match result
    case DbFault(_, _) => Handled(ErrorReply(500, "Failed to fetch active survey"), trace)
    case Rows(rows) =>
      if |rows| == 0 then Handled(ErrorReply(404, "No active survey found"), trace)
      else Handled(DataReply(200, rows[0]), trace)
  }

  // ---- getAllSurveys ----

  const SurveysFrom: string := "SELECT * FROM surveys"
  const SurveysOrder: string := "created_at DESC"

  /** `getAllSurveys`: page 1 and limit 10 by default, no filter. */
  function GetAllSurveys(query: JsValue, pageRows: DbOutcome, countRows: DbOutcome): Handled {
    var page := DefaultTo(Get(query, "page"), Num(1));
    var limit := DefaultTo(Get(query, "limit"), Num(10));
    PageList("surveys",
      Query(PageSql(SurveysFrom, 0, [], SurveysOrder), [Val(limit), Numeric(Offset(page, limit))]),
      Query("SELECT COUNT(*) FROM surveys", []), pageRows, countRows, page, limit, "Failed to fetch surveys")
  }

  /**
   * Without `page` and `limit` the list asks for the first ten surveys: LIMIT
   * 10 and OFFSET 0, at the markers `$1` and `$2`, and it releases its client last.
   */
  lemma SurveyListDefaults(query: JsValue, pageRows: DbOutcome, countRows: DbOutcome)
    requires Get(query, "page") == Undefined && Get(query, "limit") == Undefined
    ensures var h := GetAllSurveys(query, pageRows, countRows);
      h.trace[0].Query? && h.trace[0].params == [Val(Num(10)), Numeric(Fin(0.0))] &&
      Placeholders(h.trace[0].sql) == [1, 2] && h.trace[|h.trace| - 1] == Release
  {
    SurveyListShape(query, pageRows, countRows);
    assert DefaultTo(Get(query, "page"), Num(1)) == Num(1);
    assert DefaultTo(Get(query, "limit"), Num(10)) == Num(10);
    OffsetOfFirstPage();
    AllSurveysPlaceholders();
  }

  /** The list runs its page query first, with LIMIT and OFFSET computed from the defaulted page and limit, and releases last. */
  lemma SurveyListShape(query: JsValue, pageRows: DbOutcome, countRows: DbOutcome)
    ensures var page := DefaultTo(Get(query, "page"), Num(1));
      var limit := DefaultTo(Get(query, "limit"), Num(10));
      var h := GetAllSurveys(query, pageRows, countRows);
      |h.trace| >= 2 && h.trace[0] == Query(PageSql(SurveysFrom, 0, [], SurveysOrder), [Val(limit), Numeric(Offset(page, limit))]) &&
      h.trace[|h.trace| - 1] == Release
  {
  }

  lemma OffsetOfFirstPage()
    ensures Offset(Num(1), Num(10)) == Fin(0.0)
  {
    assert ToNumber(Num(1)) == Fin(1.0) && ToNumber(Num(10)) == Fin(10.0);
    assert Sub(Fin(1.0), Fin(1.0)) == Fin(0.0) by {
      assert Neg(Fin(1.0)) == Fin(-1.0);
    }
  }

  lemma SurveysFromPlain()
    ensures Placeholders(SurveysFrom) == Range(1, 1)
  {
    assert NoMarker(SurveysFrom);
    PlaceholdersNone(SurveysFrom);
    assert Range(1, 1) == [];
  }

  lemma SurveysOrderPlain()
    ensures NoMarker(SurveysOrder)
  {
  }

  /** The survey list binds LIMIT to `$1` and OFFSET to `$2`. */
  lemma AllSurveysPlaceholders()
    ensures Placeholders(PageSql(SurveysFrom, 0, [], SurveysOrder)) == [1, 2]
  {
    SurveysFromPlain();
    SurveysOrderPlain();
    PageSqlPlaceholders(SurveysFrom, 0, [], SurveysOrder);
    assert Range(1, 3) == [1, 2];
  }

  // ---- submitResponse ----

  const ResponseRequired: string := "Disease name, cure description, and why description are required"
  const ImageRequired: string := "Disease image is required"
  const OpenSurveySql: string := "SELECT * FROM surveys WHERE id = $1 AND is_active = true AND ends_at > NOW()"

  predicate HasResponseFields(body: JsValue) {
    Truthy(Get(body, "disease_name")) && Truthy(Get(body, "cure_description")) && Truthy(Get(body, "why_description"))
  }

  /** The response's folder in the media store, `surveys/${id}`. */
  function ResponseFolder(id: JsValue): string {
    "surveys/" + ToJsString(id)
  }

  function ResponseValues(id: JsValue, body: JsValue, user: JsValue, url: JsValue): seq<JsValue> {
    [id, Get(user, "userId"), Get(body, "disease_name"), url, Get(body, "cure_description"), Get(body, "why_description")]
  }

  /**
   * `submitResponse`. `hasFile` says whether the request carried the image;
   * `survey` is the outcome of the open-survey lookup, `stored` what the media
   * store returned for the upload (`None` when it failed), `insert` the
   * outcome of the INSERT.
   */
  function SubmitResponse(id: JsValue, body: JsValue, user: JsValue, hasFile: bool, survey: DbOutcome,
                          stored: Option<JsValue>, insert: DbOutcome): Handled
  {
    var failed := ErrorReply(500, "Failed to submit survey response");
    if !HasResponseFields(body) then Handled(ErrorReply(400, ResponseRequired), [Release])
    else if !hasFile then Handled(ErrorReply(400, ImageRequired), [Release])
    else
      var lookup := Query(OpenSurveySql, [Val(id)]);
      match survey
      case DbFault(_, _) => Handled(failed, [lookup, Release])
      case Rows(rows) =>
        if |rows| == 0 then Handled(ErrorReply(404, "Survey not found or has ended"), [lookup, Release])
        else
          var upload := Upload(ResponseFolder(id));
          match R2Service.UploadImage(stored)
          case Failure(_) => Handled(failed, [lookup, upload, Release])
          case Success(uploaded) =>
            var trace := [lookup, upload, Insert("survey_responses", ResponseValues(id, body, user, Get(uploaded, "url"))), Release];
            match insert
            case DbFault(_, _) => Handled(failed, trace)
            case Rows(inserted) => Handled(MessageDataReply(201, "Survey response submitted successfully", FirstRow(inserted)), trace)
  }

  /**
   * The guards apply in order: the three texts, then the image, then the
   * survey being open. Nothing is uploaded unless all three pass, and the
   * stored response carries the URL the media store returned.
   */
  lemma ResponseGuardOrder(id: JsValue, body: JsValue, user: JsValue, hasFile: bool, survey: DbOutcome,
                           stored: Option<JsValue>, insert: DbOutcome)
    ensures var h := SubmitResponse(id, body, user, hasFile, survey, stored, insert);
      (!HasResponseFields(body) ==> h == Handled(ErrorReply(400, ResponseRequired), [Release])) &&
      (HasResponseFields(body) && !hasFile ==> h == Handled(ErrorReply(400, ImageRequired), [Release])) &&
      (HasResponseFields(body) && hasFile ==> h.trace[0] == Query(OpenSurveySql, [Val(id)])) &&
      (HasResponseFields(body) && hasFile && survey == Rows([]) ==>
         h == Handled(ErrorReply(404, "Survey not found or has ended"), [Query(OpenSurveySql, [Val(id)]), Release])) &&
      ((exists i :: 0 <= i < |h.trace| && h.trace[i].Upload?) <==>
         HasResponseFields(body) && hasFile && survey.Rows? && survey.rows != []) &&
      (h.reply.status == 201 ==>
         stored.Some? && h.trace[2] == Insert("survey_responses", ResponseValues(id, body, user, Get(stored.value, "secure_url"))))
  {
    var h := SubmitResponse(id, body, user, hasFile, survey, stored, insert);
    if HasResponseFields(body) && hasFile && survey.Rows? && survey.rows != [] {
      assert h.trace[1] == Upload(ResponseFolder(id));
    }
  }

  /** An upload failure after the survey was found ends in the handler's 500 with no response stored. */
  lemma UploadFailureStoresNothing(id: JsValue, body: JsValue, user: JsValue, survey: DbOutcome, insert: DbOutcome)
    requires HasResponseFields(body) && survey.Rows? && survey.rows != []
    ensures var h := SubmitResponse(id, body, user, true, survey, None, insert);
      h.reply == ErrorReply(500, "Failed to submit survey response") && !HasInsert(h.trace)
  {
  }

  // ---- getSurveyResponses ----

  const ResponsesSelect: string := "SELECT sr.*, u.name as user_name"
  const ResponsesEmail: string := ", u.email as user_email"
  const ResponsesFrom: string := " FROM survey_responses sr"
  const ResponsesJoin: string := " JOIN users u ON sr.user_id = u.id"
  const ResponsesWhere: string := " WHERE sr.survey_id = "
  const ResponsesBase: string := ResponsesSelect + ResponsesEmail + ResponsesFrom + ResponsesJoin + ResponsesWhere + "$1"
  const ResponsesOrder: string := "sr.submitted_at DESC"
  const ResponsesCount: string := "SELECT COUNT(*) FROM survey_responses WHERE survey_id = $1"

  /** `getSurveyResponses`: the survey is `$1`, LIMIT `$2` and OFFSET `$3`; page 1 and limit 20 by default. */
  function GetSurveyResponses(id: JsValue, query: JsValue, pageRows: DbOutcome, countRows: DbOutcome): Handled {
    var page := DefaultTo(Get(query, "page"), Num(1));
    var limit := DefaultTo(Get(query, "limit"), Num(20));
    PageList("responses",
      Query(PageSql(ResponsesBase, 1, [], ResponsesOrder), [Val(id), Val(limit), Numeric(Offset(page, limit))]),
      Query(ResponsesCount, [Val(id)]), pageRows, countRows, page, limit, "Failed to fetch survey responses")
  }

  lemma ResponsesLeadPlain()
    ensures NoMarker(ResponsesSelect + ResponsesEmail + ResponsesFrom)
  {
    assert NoMarker(ResponsesSelect) && NoMarker(ResponsesEmail) && NoMarker(ResponsesFrom);
    NoMarkerConcat(ResponsesSelect, ResponsesEmail);
    NoMarkerConcat(ResponsesSelect + ResponsesEmail, ResponsesFrom);
  }

  lemma ResponsesPlaceholders()
    ensures Placeholders(PageSql(ResponsesBase, 1, [], ResponsesOrder)) == [1, 2, 3]
  {
    ResponsesLeadPlain();
    assert NoMarker(ResponsesJoin) && NoMarker(ResponsesWhere);
    NoMarkerConcat(ResponsesSelect + ResponsesEmail + ResponsesFrom, ResponsesJoin);
    NoMarkerConcat(ResponsesSelect + ResponsesEmail + ResponsesFrom + ResponsesJoin, ResponsesWhere);
    DigitMarker(ResponsesSelect + ResponsesEmail + ResponsesFrom + ResponsesJoin + ResponsesWhere, 1, "$1");
    assert Range(1, 2) == [1];
    assert NoMarker(ResponsesOrder);
    PageSqlPlaceholders(ResponsesBase, 1, [], ResponsesOrder);
    assert Range(1, 4) == [1, 2, 3];
  }

  /** Both queries of the response list are scoped to the one survey of the path. */
  lemma ResponsesScoped(id: JsValue, query: JsValue, pageRows: DbOutcome, countRows: DbOutcome)
    ensures var h := GetSurveyResponses(id, query, pageRows, countRows);
      h.trace[0].Query? && h.trace[0].params[0] == Val(id) &&
      (pageRows.Rows? ==> h.trace[1] == Query(ResponsesCount, [Val(id)]))
  {
    var page := DefaultTo(Get(query, "page"), Num(1));
    var limit := DefaultTo(Get(query, "limit"), Num(20));
    var pq := Query(PageSql(ResponsesBase, 1, [], ResponsesOrder), [Val(id), Val(limit), Numeric(Offset(page, limit))]);
    var cq := Query(ResponsesCount, [Val(id)]);
    PageListQueries("responses", pq, cq, pageRows, countRows, page, limit, "Failed to fetch survey responses");
    assert GetSurveyResponses(id, query, pageRows, countRows) ==
      PageList("responses", pq, cq, pageRows, countRows, page, limit, "Failed to fetch survey responses");
  }
}
