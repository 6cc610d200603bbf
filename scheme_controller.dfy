/**
 * The government-scheme handlers: create (four required fields), the
 * filtered and paginated list, fetch by id, the COALESCE update, delete, and
 * the active-only text search. Query texts are modelled with their whitespace
 * runs collapsed to single spaces; the rows each query returns are inputs.
 */
module SchemeController {
  import opened Wrappers
  import opened Strings
  import opened JsValues
  import opened JsNumbers
  import opened Http
  import opened Sql
  import opened Pagination

  // ---- createScheme ----

  const CreateRequired: string := "Title, description, eligibility, and how_to_apply are required"

  predicate HasRequiredFields(body: JsValue) {
    Truthy(Get(body, "title")) && Truthy(Get(body, "description")) &&
    Truthy(Get(body, "eligibility")) && Truthy(Get(body, "how_to_apply"))
  }

  /** The INSERT's parameters: the body's fields in column order, with the uploader after the benefits. */
  function CreateValues(body: JsValue, user: JsValue): seq<JsValue> {
    [Get(body, "title"), Get(body, "description"), Get(body, "eligibility"), Get(body, "how_to_apply"),
     Get(body, "last_date"), Get(body, "benefits"), Get(user, "userId"), Get(body, "category"), Get(body, "state")]
  }

  /** `createScheme`; `insert` is the outcome of the INSERT. */
  function CreateScheme(body: JsValue, user: JsValue, insert: DbOutcome): Handled {
    if !HasRequiredFields(body) then Handled(ErrorReply(400, CreateRequired), [Release])
    else
      var trace := [Insert("schemes", CreateValues(body, user)), Release];
      match insert
      case DbFault(_, _) => Handled(ErrorReply(500, "Failed to create scheme"), trace)
      case Rows(rows) => Handled(MessageDataReply(201, "Scheme created successfully", FirstRow(rows)), trace)
  }

  /**
   * A scheme lacking any of title, description, eligibility or how_to_apply is
   * refused with 400 before the database is touched; otherwise exactly one
   * INSERT is made, recording the acting user as uploader.
   */
  lemma CreateGuard(body: JsValue, user: JsValue, insert: DbOutcome)
    ensures var h := CreateScheme(body, user, insert);
      (h.reply.status == 400 <==> !HasRequiredFields(body)) &&
      (!HasRequiredFields(body) ==> h == Handled(ErrorReply(400, CreateRequired), [Release])) &&
      (HasRequiredFields(body) ==> h.trace == [Insert("schemes", CreateValues(body, user)), Release] &&
                                   h.trace[0].values[6] == Get(user, "userId")) &&
      (h.reply.status == 201 <==> HasRequiredFields(body) && insert.Rows?)
  {
  }

  // ---- getSchemes ----

  const ListBase: string := "SELECT * FROM schemes WHERE 1=1"
  const ListOrder: string := "created_at DESC"
  const CountBase: string := "SELECT COUNT(*) FROM schemes WHERE 1=1"

  /** The active filters, in the order category, state, is_active; is_active binds `is_active === 'true'`. */
  function SchemeFilters(category: JsValue, state: JsValue, isActive: JsValue): seq<Filter> {
    CategoryFilter(category) + StateFilter(state) + ActiveFilter(isActive)
  }

  function CategoryFilter(category: JsValue): seq<Filter> {
    if Truthy(category) then [Filter("category", Val(category))] else []
  }

  function StateFilter(state: JsValue): seq<Filter> {
    if Truthy(state) then [Filter("state", Val(state))] else []
  }

  function ActiveFilter(isActive: JsValue): seq<Filter> {
    if isActive != Undefined then [Filter("is_active", Val(Bool(StrictEquals(isActive, Str("true")))))] else []
  }

  /**
   * The query builder of `getSchemes`: each active filter increments
   * `paramCount` and appends its clause and value; LIMIT and OFFSET follow.
   */
  method SchemePage(category: JsValue, state: JsValue, isActive: JsValue, limit: JsValue, offset: Number)
    returns (query: string, params: seq<Param>)
    ensures query == PageSql(ListBase, 0, SchemeFilters(category, state, isActive), ListOrder)
    ensures params == PageParams([], SchemeFilters(category, state, isActive), Val(limit), Numeric(offset))
  {
    var paramCount;
    query, params, paramCount := SchemeClauses(ListBase, category, state, isActive);
    query, params := AddTail(ListBase, SchemeFilters(category, state, isActive), query, params, paramCount,
      ListOrder, Val(limit), Numeric(offset));
  }

  /** The three optional filters of `getSchemes`, appended in order to `base`. */
  method SchemeClauses(base: string, category: JsValue, state: JsValue, isActive: JsValue)
    returns (query: string, params: seq<Param>, paramCount: nat)
    ensures Built(base, SchemeFilters(category, state, isActive), query, params, paramCount)
  {
    query, params, paramCount := base, [], 0;
    ConcatEmpty(base);
    ghost var c, st := CategoryFilter(category), StateFilter(state);
    query, params, paramCount := AddFilterIf(base, [], query, params, paramCount, Truthy(category), Filter("category", Val(category)));
    assert [] + c == c;
    query, params, paramCount := AddFilterIf(base, c, query, params, paramCount, Truthy(state), Filter("state", Val(state)));
    query, params, paramCount := AddFilterIf(base, c + st, query, params, paramCount, isActive != Undefined,
      Filter("is_active", Val(Bool(StrictEquals(isActive, Str("true"))))));
  }

  lemma ListBasePlain()
    ensures Placeholders(ListBase) == []
  {
    assert NoMarker(ListBase);
    PlaceholdersNone(ListBase);
  }

  lemma SchemeColumnsPlain(category: JsValue, state: JsValue, isActive: JsValue)
    ensures ColumnsPlain(SchemeFilters(category, state, isActive))
  {
    assert NoMarker("category") && NoMarker("state") && NoMarker("is_active");
  }

  /** The count query interpolates the same filters into its text. */
  function SchemeCountSql(category: JsValue, state: JsValue, isActive: JsValue): string {
    CountBase + LiteralClauses(SchemeFilters(category, state, isActive))
  }

  /** `getSchemes`: page 1 and limit 10 by default. */
  method GetSchemes(query: JsValue, pageRows: DbOutcome, countRows: DbOutcome) returns (h: Handled)
    ensures var page := DefaultTo(Get(query, "page"), Num(1));
      var limit := DefaultTo(Get(query, "limit"), Num(10));
      var fs := SchemeFilters(Get(query, "category"), Get(query, "state"), Get(query, "is_active"));
      h == PageList("schemes",
        Query(PageSql(ListBase, 0, fs, ListOrder), PageParams([], fs, Val(limit), Numeric(Offset(page, limit)))),
        Query(CountBase + LiteralClauses(fs), []), pageRows, countRows, page, limit, "Failed to fetch schemes")
  {
    var page := DefaultTo(Get(query, "page"), Num(1));
    var limit := DefaultTo(Get(query, "limit"), Num(10));
    var offset := Offset(page, limit);
    var sql, params := SchemePage(Get(query, "category"), Get(query, "state"), Get(query, "is_active"), limit, offset);
    var count := SchemeCountSql(Get(query, "category"), Get(query, "state"), Get(query, "is_active"));
    h := PageList("schemes", Query(sql, params), Query(count, []), pageRows, countRows, page, limit, "Failed to fetch schemes");
  }

  /** The page query's base and order carry no marker of their own. */
  lemma ListOrderPlain()
    ensures NoMarker(ListOrder)
  {
  }

  /**
   * With k active filters the page query's markers are $1..$(k+2) in order,
   * and its k+2 parameters are the filter values followed by limit and offset.
   */
  lemma SchemePlaceholders(category: JsValue, state: JsValue, isActive: JsValue, limit: JsValue, offset: Number)
    ensures var fs := SchemeFilters(category, state, isActive);
      var ps := PageParams([], fs, Val(limit), Numeric(offset));
      |fs| <= 3 &&
      Placeholders(PageSql(ListBase, 0, fs, ListOrder)) == Range(1, |fs| + 3) &&
      |ps| == |fs| + 2 && ps[|fs|] == Val(limit) && ps[|fs| + 1] == Numeric(offset) &&
      forall i :: 0 <= i < |fs| ==> ps[i] == fs[i].value
  {
    ListBasePlain();
    ListOrderPlain();
    SchemeColumnsPlain(category, state, isActive);
    PlainPage(ListBase, SchemeFilters(category, state, isActive), ListOrder, Val(limit), Numeric(offset));
  }

  /**
   * Each filter is active under its own condition, binds the request's value,
   * and is_active binds the boolean `is_active === 'true'`, so any other text
   * filters for inactive schemes.
   */
  lemma SchemeFilterValues(category: JsValue, state: JsValue, isActive: JsValue)
    ensures var fs := SchemeFilters(category, state, isActive);
      |fs| == (if Truthy(category) then 1 else 0) + (if Truthy(state) then 1 else 0) + (if isActive != Undefined then 1 else 0) &&
      (Truthy(category) ==> fs[0] == Filter("category", Val(category))) &&
      (isActive != Undefined ==> fs[|fs| - 1] == Filter("is_active", Val(Bool(isActive == Str("true"))))) &&
      (isActive.Str? && isActive.s != "true" ==> fs[|fs| - 1].value == Val(Bool(false)))
  {
  }

  /** With no filter the count query is the plain count and the page query binds only limit and offset. */
  lemma NoFilters(limit: JsValue, offset: Number)
    ensures SchemeFilters(Undefined, Undefined, Undefined) == []
    ensures SchemeCountSql(Undefined, Undefined, Undefined) == CountBase
    ensures PageParams([], SchemeFilters(Undefined, Undefined, Undefined), Val(limit), Numeric(offset)) == [Val(limit), Numeric(offset)]
  {
  }

  // ---- getSchemeById, updateScheme, deleteScheme ----

  const ByIdSql: string := "SELECT * FROM schemes WHERE id = $1"

  /** A lookup by key: 404 when no row comes back, else the row. */
  function GetSchemeById(id: JsValue, result: DbOutcome): (h: Handled)
    ensures h.trace == [Query(ByIdSql, [Val(id)]), Release]
    ensures h.reply.status == 404 <==> result == Rows([])
  {
    var trace := [Query(ByIdSql, [Val(id)]), Release];
    match result
    case DbFault(_, _) => Handled(ErrorReply(500, "Failed to fetch scheme"), trace)
    case Rows(rows) =>
      if rows == [] then Handled(ErrorReply(404, "Scheme not found"), trace)
      else Handled(DataReply(200, rows[0]), trace)
  }

  /** The columns the update may change, in the order of its placeholders $1..$9. */
  const UpdateColumns: seq<string> :=
    ["title", "description", "eligibility", "how_to_apply", "last_date", "benefits", "category", "state", "is_active"]

  const UpdateSql: string :=
    "UPDATE schemes SET title = COALESCE($1, title), description = COALESCE($2, description), " +
    "eligibility = COALESCE($3, eligibility), how_to_apply = COALESCE($4, how_to_apply), " +
    "last_date = COALESCE($5, last_date), benefits = COALESCE($6, benefits), category = COALESCE($7, category), " +
    "state = COALESCE($8, state), is_active = COALESCE($9, is_active), updated_at = CURRENT_TIMESTAMP " +
    "WHERE id = $10 RETURNING *"

  function UpdateValues(body: JsValue): (vs: seq<JsValue>)
    ensures |vs| == |UpdateColumns|
    ensures forall i :: 0 <= i < |vs| ==> vs[i] == Get(body, UpdateColumns[i])
  {
    seq(|UpdateColumns|, i requires 0 <= i < |UpdateColumns| => Get(body, UpdateColumns[i]))
  }

  /** `updateScheme`: the body's nine fields, then the id. */
  function UpdateScheme(id: JsValue, body: JsValue, result: DbOutcome): (h: Handled)
    ensures h.trace == [Query(UpdateSql, ValsOf(UpdateValues(body) + [id])), Release]
    ensures h.reply.status == 404 <==> result == Rows([])
  {
    var trace := [Query(UpdateSql, ValsOf(UpdateValues(body) + [id])), Release];
    match result
    case DbFault(_, _) => Handled(ErrorReply(500, "Failed to update scheme"), trace)
    case Rows(rows) =>
      if rows == [] then Handled(ErrorReply(404, "Scheme not found"), trace)
      else Handled(MessageDataReply(200, "Scheme updated successfully", rows[0]), trace)
  }

  /** The stored row after the update matched it; `now` is the database's `CURRENT_TIMESTAMP`. */
  function UpdatedScheme(row: map<string, JsValue>, body: JsValue, now: JsValue): map<string, JsValue> {
    CoalesceRow(row, UpdateColumns, UpdateValues(body))[StampColumn := now]
  }

  /**
   * The update replaces a column exactly when the body gives it a non-null
   * value, stamps `updated_at` with the current time, and leaves every other
   * column, such as the uploader, unchanged.
   */
  lemma UpdateReplacesGivenFields(row: map<string, JsValue>, body: JsValue, now: JsValue, i: nat, other: string)
    requires i < |UpdateColumns| && UpdateColumns[i] in row
    requires other in row && other !in UpdateColumns
    ensures UpdatedScheme(row, body, now)[UpdateColumns[i]] ==
      if IsNullish(Get(body, UpdateColumns[i])) then row[UpdateColumns[i]] else Get(body, UpdateColumns[i])
    ensures UpdatedScheme(row, body, now)[StampColumn] == now
    ensures other != StampColumn ==> UpdatedScheme(row, body, now)[other] == row[other]
  {
    assert Distinct(UpdateColumns);
    assert StampColumn !in UpdateColumns;
    CoalesceRowValue(row, UpdateColumns, UpdateValues(body), i);
    CoalesceRowKeeps(row, UpdateColumns, UpdateValues(body), other);
  }

  const DeleteSql: string := "DELETE FROM schemes WHERE id = $1 RETURNING id"

  function DeleteScheme(id: JsValue, result: DbOutcome): (h: Handled)
    ensures h.trace == [Query(DeleteSql, [Val(id)]), Release]
    ensures h.reply.status == 404 <==> result == Rows([])
    ensures h.reply.status == 200 <==> result.Rows? && result.rows != []
  {
    var trace := [Query(DeleteSql, [Val(id)]), Release];
    match result
    case DbFault(_, _) => Handled(ErrorReply(500, "Failed to delete scheme"), trace)
    case Rows(rows) =>
      if rows == [] then Handled(ErrorReply(404, "Scheme not found"), trace)
      else Handled(MessageReply(200, "Scheme deleted successfully"), trace)
  }

  // ---- searchSchemes ----

  const SearchHead: string := "SELECT * FROM schemes"
  const ActiveOnly: string := " WHERE is_active = true"
  const TitleTest: string := " AND ( title ILIKE "
  const DescriptionTest: string := " OR description ILIKE "
  const CategoryTest: string := " OR category ILIKE "
  const StateTest: string := " OR state ILIKE "
  const SearchOrder: string := " ) ORDER BY created_at DESC"

  const SearchSql: string :=
    SearchHead + ActiveOnly + TitleTest + "$1" + DescriptionTest + "$1" + CategoryTest + "$1" + StateTest + "$1" + SearchOrder

  /** `%${query}%`: the search text anywhere in the column. */
  function SearchPattern(q: JsValue): string {
    "%" + ToJsString(q) + "%"
  }

  function SearchSchemes(query: JsValue, result: DbOutcome): Handled {
    var q := Get(query, "query");
    if !Truthy(q) then Handled(ErrorReply(400, "Search query is required"), [Release])
    else
      var trace := [Query(SearchSql, [Val(Str(SearchPattern(q)))]), Release];
      match result
      case DbFault(_, _) => Handled(ErrorReply(500, "Failed to search schemes"), trace)
      case Rows(rows) => Handled(DataReply(200, Arr(rows)), trace)
  }

  /** A text followed by `$1`. */
  lemma FirstMarker(t: string)
    requires NoMarker(t)
    ensures Placeholders(t + "$1") == [1]
  {
    assert NatToString(1) == "1";
    assert t + "$1" == t + "$" + NatToString(1);
    TextThenMarker(t, 1);
  }

  /** A search needs a query, and its one parameter is `%query%`. */
  lemma SearchGuard(query: JsValue, result: DbOutcome)
    ensures !Truthy(Get(query, "query")) <==> SearchSchemes(query, result) == Handled(ErrorReply(400, "Search query is required"), [Release])
    ensures Truthy(Get(query, "query")) ==> SearchSchemes(query, result).trace[0] == Query(SearchSql, [Val(Str(SearchPattern(Get(query, "query"))))])
  {
  }

  /** Four `$1` markers between texts without markers: four references to the first parameter. */
  lemma {:induction false} FourMarkers(a: string, b: string, c: string, d: string, e: string)
    requires NoMarker(a) && NoMarker(b) && NoMarker(c) && NoMarker(d) && NoMarker(e)
    requires b != [] && b[0] == ' ' && c != [] && c[0] == ' ' && d != [] && d[0] == ' ' && e != [] && e[0] == ' '
    ensures Placeholders(a + "$1" + b + "$1" + c + "$1" + d + "$1" + e) == [1, 1, 1, 1]
  {
    var p1, p2, p3, p4 := a + "$1", b + "$1", c + "$1", d + "$1";
    FirstMarker(a);
    FirstMarker(b);
    FirstMarker(c);
    FirstMarker(d);
    PlaceholdersNone(e);
    ConcatAssoc(p1, b, "$1");
    PlaceholdersConcat(p1, p2);
    ConcatAssoc(p1 + p2, c, "$1");
    PlaceholdersConcat(p1 + p2, p3);
    ConcatAssoc(p1 + p2 + p3, d, "$1");
    PlaceholdersConcat(p1 + p2 + p3, p4);
    PlaceholdersConcat(p1 + p2 + p3 + p4, e);
  }

  lemma SearchLeadPlain()
    ensures NoMarker(SearchHead + ActiveOnly + TitleTest)
  {
    assert NoMarker(SearchHead) && NoMarker(ActiveOnly) && NoMarker(TitleTest);
  }

  lemma SearchTestsPlain()
    ensures NoMarker(DescriptionTest) && DescriptionTest != [] && DescriptionTest[0] == ' '
    ensures NoMarker(CategoryTest) && CategoryTest != [] && CategoryTest[0] == ' '
    ensures NoMarker(StateTest) && StateTest != [] && StateTest[0] == ' '
    ensures NoMarker(SearchOrder) && SearchOrder != [] && SearchOrder[0] == ' '
  {
  }

  /** All four markers of the search refer to the one parameter, tested against title, description, category and state. */
  lemma SearchPlaceholders()
    ensures Placeholders(SearchSql) == [1, 1, 1, 1]
  {
    SearchLeadPlain();
    SearchTestsPlain();
    FourMarkers(SearchHead + ActiveOnly + TitleTest, DescriptionTest, CategoryTest, StateTest, SearchOrder);
  }

  /** Only active schemes are searched. */
  lemma SearchActiveOnly()
    ensures Contains(SearchSql, ActiveOnly)
  {
    var s := SearchHead + ActiveOnly;
    ContainsInfix(SearchHead, ActiveOnly, []);
    ConcatEmpty(s);
    ContainsAppend(s, TitleTest, ActiveOnly);
    s := s + TitleTest;
    ContainsAppend(s, "$1", ActiveOnly);
    s := s + "$1";
    ContainsAppend(s, DescriptionTest, ActiveOnly);
    s := s + DescriptionTest;
    ContainsAppend(s, "$1", ActiveOnly);
    s := s + "$1";
    ContainsAppend(s, CategoryTest, ActiveOnly);
    s := s + CategoryTest;
    ContainsAppend(s, "$1", ActiveOnly);
    s := s + "$1";
    ContainsAppend(s, StateTest, ActiveOnly);
    s := s + StateTest;
    ContainsAppend(s, "$1", ActiveOnly);
    s := s + "$1";
    ContainsAppend(s, SearchOrder, ActiveOnly);
  }
}
