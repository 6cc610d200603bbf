/**
 * The feedback and report handlers: feedback with a 1..5 rating, the
 * feature-type filtered feedback list, reports with a required description,
 * the status filtered report list, and an administrator resolving a report.
 * Query texts are modelled with their whitespace runs collapsed to single
 * spaces; the rows each query returns are inputs.
 */
module FeedbackController {
  import opened Wrappers
  import opened Strings
  import opened JsValues
  import opened JsNumbers
  import opened Http
  import opened Sql
  import opened Pagination
  import opened Constants

  // ---- submitFeedback ----

  const RatingRequired: string := "Rating is required and must be between 1 and 5"

  /** `!rating || rating < 1 || rating > 5` is false: the comparisons coerce the rating to a number. */
  predicate RatingAccepted(rating: JsValue) {
    Truthy(rating) && !Less(ToNumber(rating), Fin(1.0)) && !Less(Fin(5.0), ToNumber(rating))
  }

  function FeedbackValues(body: JsValue, user: JsValue): seq<JsValue> {
    [Get(user, "userId"), Get(body, "feature_type"), Get(body, "rating"), Get(body, "comment")]
  }

  /** `submitFeedback`; `insert` is the outcome of the INSERT. */
  function SubmitFeedback(body: JsValue, user: JsValue, insert: DbOutcome): (h: Handled)
    ensures !RatingAccepted(Get(body, "rating")) <==> h == Handled(ErrorReply(400, RatingRequired), [Release])
    ensures RatingAccepted(Get(body, "rating")) ==> h.trace == [Insert("feedback", FeedbackValues(body, user)), Release]
    ensures h.reply.status == 201 <==> RatingAccepted(Get(body, "rating")) && insert.Rows?
    ensures h.reply.status in {201, 400, 500}
  {
    if !RatingAccepted(Get(body, "rating")) then Handled(ErrorReply(400, RatingRequired), [Release])
    else
      var trace := [Insert("feedback", FeedbackValues(body, user)), Release];
      match insert
      case DbFault(_, _) => Handled(ErrorReply(500, "Failed to submit feedback"), trace)
      case Rows(rows) => Handled(MessageDataReply(201, "Feedback submitted successfully", FirstRow(rows)), trace)
  }

  /** A numeric rating is accepted exactly when it lies in 1..5. */
  lemma NumericRating(n: int)
    ensures RatingAccepted(Num(n)) <==> 1 <= n <= 5
  {
  }

  /** A rating given as a number or as its decimal text is accepted exactly when it lies in 1..5. */
  lemma DecimalRating(rating: JsValue, n: nat)
    requires Denotes(rating, n)
    ensures RatingAccepted(rating) <==> 1 <= n <= 5
  {
    DenotesToNumber(rating, n);
    assert Truthy(rating) <== n != 0;
  }

  /**
   * A comparison with NaN is false, so a truthy rating that is not a number at
   * all, such as the text "abc", the array `["abc"]` or an object, passes the
   * guard and reaches the INSERT.
   */
  lemma NonNumericRatingPasses(rating: JsValue)
    requires Truthy(rating) && ToNumber(rating) == NaN
    ensures RatingAccepted(rating)
  {
  }

  /**
   * An array rating is compared through its string form: a one-element array
   * of a number n is accepted exactly when n lies in 1..5, and the empty array
   * coerces to 0 and is refused.
   */
  lemma ArrayRating(n: nat)
    ensures RatingAccepted(Arr([Num(n)])) <==> 1 <= n <= 5
    ensures !RatingAccepted(Arr([]))
  {
    SingletonArrayNumber(n);
    EmptyArrayNumber();
  }

  /** `true` coerces to 1 and is accepted; 0, `false`, null and the empty text are refused. */
  lemma RatingCoercions()
    ensures RatingAccepted(Bool(true))
    ensures !RatingAccepted(Num(0)) && !RatingAccepted(Bool(false)) && !RatingAccepted(Null) && !RatingAccepted(Str(""))
    ensures !RatingAccepted(Num(6))
  {
  }

  // ---- getAllFeedback ----

  const FeedbackColumns: string := "SELECT f.*, u.name as user_name"
  const FeedbackEmail: string := ", u.email as user_email"
  const FeedbackJoin: string := " FROM feedback f JOIN users u"
  const FeedbackOn: string := " ON f.user_id = u.id WHERE 1=1"
  const FeedbackBase: string := FeedbackColumns + FeedbackEmail + FeedbackJoin + FeedbackOn
  const FeedbackOrder: string := "f.created_at DESC"

  /** `getAllFeedback`: page 1 and limit 20 by default, an optional feature-type filter. */
  method GetAllFeedback(query: JsValue, pageRows: DbOutcome, countRows: DbOutcome) returns (h: Handled)
    ensures var page := DefaultTo(Get(query, "page"), Num(1));
      var limit := DefaultTo(Get(query, "limit"), Num(20));
      var ft := Get(query, "feature_type");
      var fs := OneFilter("f.feature_type", ft);
      h == PageList("feedback",
        Query(PageSql(FeedbackBase, 0, fs, FeedbackOrder), PageParams([], fs, Val(limit), Numeric(Offset(page, limit)))),
        Query(OneFilterCount("feedback", "feature_type", ft), []), pageRows, countRows, page, limit, "Failed to fetch feedback")
  {
    var page := DefaultTo(Get(query, "page"), Num(1));
    var limit := DefaultTo(Get(query, "limit"), Num(20));
    var ft := Get(query, "feature_type");
    var sql, params := OneFilterPage(FeedbackBase, "f.feature_type", ft, FeedbackOrder, limit, Offset(page, limit));
    var count := OneFilterCount("feedback", "feature_type", ft);
    h := PageList("feedback", Query(sql, params), Query(count, []), pageRows, countRows, page, limit, "Failed to fetch feedback");
  }

  lemma FeedbackPiecesPlain()
    ensures NoMarker(FeedbackBase) && NoMarker("f.feature_type") && NoMarker(FeedbackOrder)
  {
    FeedbackHeadPlain();
    FeedbackTailPlain();
    NoMarkerConcat(FeedbackColumns + FeedbackEmail, FeedbackJoin + FeedbackOn);
    assert FeedbackBase == (FeedbackColumns + FeedbackEmail) + (FeedbackJoin + FeedbackOn);
    assert NoMarker("f.feature_type") && NoMarker(FeedbackOrder);
  }

  lemma FeedbackHeadPlain()
    ensures NoMarker(FeedbackColumns + FeedbackEmail)
  {
    assert NoMarker(FeedbackColumns) && NoMarker(FeedbackEmail);
    NoMarkerConcat(FeedbackColumns, FeedbackEmail);
  }

  lemma FeedbackTailPlain()
    ensures NoMarker(FeedbackJoin + FeedbackOn)
  {
    assert NoMarker(FeedbackJoin) && NoMarker(FeedbackOn);
    NoMarkerConcat(FeedbackJoin, FeedbackOn);
  }

  /**
   * The feature type is `$1` when present, and LIMIT and OFFSET follow it:
   * `$2`/`$3` with the filter, `$1`/`$2` without; the parameters are bound in
   * the same order.
   */
  lemma FeedbackPlaceholders(ft: JsValue, limit: JsValue, offset: Number)
    ensures Placeholders(PageSql(FeedbackBase, 0, OneFilter("f.feature_type", ft), FeedbackOrder)) ==
      if Truthy(ft) then [1, 2, 3] else [1, 2]
    ensures PageParams([], OneFilter("f.feature_type", ft), Val(limit), Numeric(offset)) ==
      if Truthy(ft) then [Val(ft), Val(limit), Numeric(offset)] else [Val(limit), Numeric(offset)]
  {
    FeedbackPiecesPlain();
    OnePagePlaceholders(FeedbackBase, "f.feature_type", ft, FeedbackOrder);
    OneFilterParams("f.feature_type", ft, Val(limit), Numeric(offset));
  }

  // ---- submitReport ----

  function ReportValues(body: JsValue, user: JsValue): seq<JsValue> {
    [Get(user, "userId"), Get(body, "report_type"), Get(body, "description")]
  }

  /** `submitReport`: a report needs a truthy description. */
  function SubmitReport(body: JsValue, user: JsValue, insert: DbOutcome): (h: Handled)
    ensures !Truthy(Get(body, "description")) <==> h == Handled(ErrorReply(400, "Description is required"), [Release])
    ensures Truthy(Get(body, "description")) ==> h.trace == [Insert("reports", ReportValues(body, user)), Release]
    ensures h.reply.status == 201 <==> Truthy(Get(body, "description")) && insert.Rows?
  {
    if !Truthy(Get(body, "description")) then Handled(ErrorReply(400, "Description is required"), [Release])
    else
      var trace := [Insert("reports", ReportValues(body, user)), Release];
      match insert
      case DbFault(_, _) => Handled(ErrorReply(500, "Failed to submit report"), trace)
      case Rows(rows) => Handled(MessageDataReply(201, "Report submitted successfully", FirstRow(rows)), trace)
  }

  // ---- getAllReports ----

  const ReportColumns: string := "SELECT r.*, u.name as user_name"
  const ReportEmail: string := ", u.email as user_email"
  const ReportResolver: string := ", admin.name as resolved_by_name"
  const ReportJoin: string := " FROM reports r JOIN users u"
  const ReportOn: string := " ON r.user_id = u.id"
  const ReportAdminJoin: string := " LEFT JOIN users admin"
  const ReportAdminOn: string := " ON r.resolved_by = admin.id"
  const ReportBase: string :=
    ReportColumns + ReportEmail + ReportResolver + ReportJoin + ReportOn + ReportAdminJoin + ReportAdminOn + " WHERE 1=1"
  const ReportOrder: string := "r.created_at DESC"

  /** `getAllReports`: page 1 and limit 20 by default, an optional status filter. */
  method GetAllReports(query: JsValue, pageRows: DbOutcome, countRows: DbOutcome) returns (h: Handled)
    ensures var page := DefaultTo(Get(query, "page"), Num(1));
      var limit := DefaultTo(Get(query, "limit"), Num(20));
      var status := Get(query, "status");
      var fs := OneFilter("r.status", status);
      h == PageList("reports",
        Query(PageSql(ReportBase, 0, fs, ReportOrder), PageParams([], fs, Val(limit), Numeric(Offset(page, limit)))),
        Query(OneFilterCount("reports", "status", status), []), pageRows, countRows, page, limit, "Failed to fetch reports")
  {
    var page := DefaultTo(Get(query, "page"), Num(1));
    var limit := DefaultTo(Get(query, "limit"), Num(20));
    var status := Get(query, "status");
    var sql, params := OneFilterPage(ReportBase, "r.status", status, ReportOrder, limit, Offset(page, limit));
    var count := OneFilterCount("reports", "status", status);
    h := PageList("reports", Query(sql, params), Query(count, []), pageRows, countRows, page, limit, "Failed to fetch reports");
  }

  lemma ReportSelectPlain()
    ensures NoMarker(ReportColumns + ReportEmail + ReportResolver + ReportJoin)
  {
    ReportHeadPlain();
    ReportJoinPlain();
    NoMarkerConcat(ReportColumns + ReportEmail, ReportResolver + ReportJoin);
    ConcatAssoc(ReportColumns + ReportEmail, ReportResolver, ReportJoin);
  }

  lemma ReportHeadPlain()
    ensures NoMarker(ReportColumns + ReportEmail)
  {
    assert NoMarker(ReportColumns) && NoMarker(ReportEmail);
    NoMarkerConcat(ReportColumns, ReportEmail);
  }

  lemma ReportJoinPlain()
    ensures NoMarker(ReportResolver + ReportJoin)
  {
    assert NoMarker(ReportResolver) && NoMarker(ReportJoin);
    NoMarkerConcat(ReportResolver, ReportJoin);
  }

  lemma ReportBasePlain()
    ensures NoMarker(ReportBase)
  {
    var s := ReportColumns + ReportEmail + ReportResolver + ReportJoin;
    ReportSelectPlain();
    assert NoMarker(ReportOn);
    NoMarkerConcat(s, ReportOn);
    s := s + ReportOn;
    assert NoMarker(ReportAdminJoin);
    NoMarkerConcat(s, ReportAdminJoin);
    s := s + ReportAdminJoin;
    assert NoMarker(ReportAdminOn);
    NoMarkerConcat(s, ReportAdminOn);
    s := s + ReportAdminOn;
    assert NoMarker(" WHERE 1=1");
    NoMarkerConcat(s, " WHERE 1=1");
  }

  /** The report list binds the status to `$1` when present and numbers LIMIT and OFFSET after it. */
  lemma ReportPlaceholders(status: JsValue)
    ensures Placeholders(PageSql(ReportBase, 0, OneFilter("r.status", status), ReportOrder)) ==
      if Truthy(status) then [1, 2, 3] else [1, 2]
  {
    ReportBasePlain();
    assert NoMarker("r.status") && NoMarker(ReportOrder);
    OnePagePlaceholders(ReportBase, "r.status", status, ReportOrder);
  }

  // ---- resolveReport ----

  const StatusRequired: string := "Valid status (resolved/rejected) is required"

  /** `[REPORT_STATUS.RESOLVED, REPORT_STATUS.REJECTED].includes(status)`, a strict comparison. */
  predicate Resolvable(status: JsValue) {
    status.Str? && ParseReportStatus(status.s) in {Some(Resolved), Some(Rejected)}
  }

  const ResolveSet: string := "UPDATE reports SET status = "
  const ResolveBy: string := ", resolved_by = "
  const ResolveAt: string := ", resolved_at = CURRENT_TIMESTAMP WHERE id = "
  const ResolveSql: string := ResolveSet + "$1" + ResolveBy + "$2" + ResolveAt + "$3" + " RETURNING *"

  /** `resolveReport`: the status, then the acting administrator, then the report id. */
  function ResolveReport(id: JsValue, body: JsValue, user: JsValue, result: DbOutcome): (h: Handled)
    ensures !Resolvable(Get(body, "status")) <==> h == Handled(ErrorReply(400, StatusRequired), [Release])
    ensures Resolvable(Get(body, "status")) ==>
      h.trace == [Query(ResolveSql, [Val(Get(body, "status")), Val(Get(user, "userId")), Val(id)]), Release]
    ensures h.reply.status == 404 <==> Resolvable(Get(body, "status")) && result == Rows([])
    ensures h.reply.status == 200 <==> Resolvable(Get(body, "status")) && result.Rows? && result.rows != []
  {
    var status := Get(body, "status");
    if !Truthy(status) || !Resolvable(status) then Handled(ErrorReply(400, StatusRequired), [Release])
    else
      var trace := [Query(ResolveSql, [Val(status), Val(Get(user, "userId")), Val(id)]), Release];
      match result
      case DbFault(_, _) => Handled(ErrorReply(500, "Failed to resolve report"), trace)
      case Rows(rows) =>
        if |rows| == 0 then Handled(ErrorReply(404, "Report not found"), trace)
        else Handled(MessageDataReply(200, "Report updated successfully", rows[0]), trace)
  }

  /** Only `resolved` and `rejected` pass: `pending`, other texts and non-texts are refused. */
  lemma ResolvableExactly(status: JsValue)
    ensures Resolvable(status) <==> status == Str(Resolved.Value()) || status == Str(Rejected.Value())
    ensures !Resolvable(Str(Pending.Value()))
  {
  }

  /** A resolved report records the acting user as `resolved_by`, bound to `$2`. */
  lemma ResolvedByActingUser(id: JsValue, body: JsValue, user: JsValue, result: DbOutcome)
    requires Resolvable(Get(body, "status"))
    ensures var q := ResolveReport(id, body, user, result).trace[0];
      q.Query? && Placeholders(q.sql) == [1, 2, 3] && q.params[1] == Val(Get(user, "userId")) && q.params[2] == Val(id)
  {
    ResolveSqlPlaceholders();
  }

  lemma ResolveSqlPlaceholders()
    ensures Placeholders(ResolveSql) == [1, 2, 3]
  {
    ResolvePiecesPlain();
    ThreeMarkers(ResolveSet, ResolveBy, ResolveAt, " RETURNING *");
  }

  lemma ResolvePiecesPlain()
    ensures NoMarker(ResolveSet) && NoMarker(ResolveBy) && NoMarker(ResolveAt) && NoMarker(" RETURNING *")
    ensures ResolveBy[0] == ',' && ResolveAt[0] == ','
  {
    assert NoMarker(ResolveSet) && NoMarker(ResolveBy);
    assert NoMarker(ResolveAt) && NoMarker(" RETURNING *");
  }

  /** Three consecutive markers `$1`, `$2`, `$3` between texts without markers. */
  lemma {:induction false} ThreeMarkers(a: string, b: string, c: string, d: string)
    requires NoMarker(a) && NoMarker(b) && NoMarker(c) && NoMarker(d)
    requires b != [] && b[0] == ',' && c != [] && c[0] == ',' && d != [] && d[0] == ' '
    ensures Placeholders(a + "$1" + b + "$2" + c + "$3" + d) == [1, 2, 3]
  {
    DigitMarker(a, 1, "$1");
    DigitMarker(b, 2, "$2");
    DigitMarker(c, 3, "$3");
    var p1, p2, p3 := a + "$1", b + "$2", c + "$3";
    PlaceholdersNone(d);
    ConcatAssoc(p1, b, "$2");
    PlaceholdersConcat(p1, p2);
    ConcatAssoc(p1 + p2, c, "$3");
    PlaceholdersConcat(p1 + p2, p3);
    PlaceholdersConcat(p1 + p2 + p3, d);
  }
}
