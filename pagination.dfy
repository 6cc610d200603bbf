/**
 * The page arithmetic every list handler performs on its `page` and `limit`
 * query parameters: `offset = (page - 1) * limit`, `totalPages =
 * Math.ceil(total / limit)` and the `parseInt` echo of both parameters.
 * Missing parameters take the handler's numeric default (`JsValues.DefaultTo`).
 */
module Pagination {
  import opened Wrappers
  import opened Strings
  import opened JsValues
  import opened JsNumbers
  import opened Http

  /** `(page - 1) * limit` under JavaScript's numeric coercion. */
  function Offset(page: JsValue, limit: JsValue): Number {
    Mul(Sub(ToNumber(page), Fin(1.0)), ToNumber(limit))
  }

  /** `Math.ceil(total / limit)`, a total that did not parse being NaN. */
  function TotalPages(total: Option<int>, limit: JsValue): Number {
    var t := match total case Some(n) => Fin(n as real) case None => NaN;
    Ceil(Div(t, ToNumber(limit)))
  }

  /** The `pagination` object of a list reply; `None` is NaN, which JSON renders as null. */
  datatype PageInfo = PageInfo(total: Option<int>, page: Option<int>, limit: Option<int>, totalPages: Number)

  function Info(total: Option<int>, page: JsValue, limit: JsValue): PageInfo {
    PageInfo(total, ParseInt(ToJsString(page)), ParseInt(ToJsString(limit)), TotalPages(total, limit))
  }

  /** An integer, or NaN as JSON's null. */
  function IntJson(n: Option<int>): JsValue {
    match n
    case Some(k) => Num(k)
    case None => Null
  }

  /** A page count as JSON: NaN and the infinities become null; a ceiling is always a whole number. */
  function NumberJson(n: Number): JsValue {
    match n
    case Fin(r) => if r.Floor as real == r then Num(r.Floor) else Null
    case _ => Null
  }

  function InfoJson(info: PageInfo): JsValue {
    Obj([Field("total", IntJson(info.total)), Field("page", IntJson(info.page)),
         Field("limit", IntJson(info.limit)), Field("totalPages", NumberJson(info.totalPages))])
  }

  /** `parseInt(countResult.rows[0].count)`; reading a missing first row throws. */
  function Total(rows: seq<JsValue>): Result<Option<int>, string> {
    if rows == [] then Failure(ReadError(Undefined, "count"))
    else
      match Member(rows[0], "count")
      case Success(count) => Success(ParseInt(ToJsString(count)))
      case Failure(e) => Failure(e)
  }

  /**
   * The common tail of every paginated handler: the page query, then the count
   * query, then `{ success, data: { <key>: rows, pagination } }`. A failing query
   * or an unreadable count ends in the handler's 500 reply; the client is
   * released on every path.
   */
  function PageList(key: string, pageQuery: Effect, countQuery: Effect, pageRows: DbOutcome, countRows: DbOutcome,
                    page: JsValue, limit: JsValue, failure: string): (h: Handled)
    ensures |h.trace| >= 2 && h.trace[|h.trace| - 1] == Release && h.trace[0] == pageQuery
    ensures h.reply.status == 200 || h.reply == ErrorReply(500, failure)
    ensures h.reply.status == 200 <==> pageRows.Rows? && countRows.Rows? && Total(countRows.rows).Success?
    ensures pageRows.DbFault? ==> h.trace == [pageQuery, Release]
    ensures pageRows.Rows? ==> h.trace == [pageQuery, countQuery, Release]
  {
    match pageRows
    case DbFault(_, _) => Handled(ErrorReply(500, failure), [pageQuery, Release])
    case Rows(rows) =>
      var trace := [pageQuery, countQuery, Release];
      match countRows
      case DbFault(_, _) => Handled(ErrorReply(500, failure), trace)
      case Rows(counted) =>
        match Total(counted)
        case Failure(_) => Handled(ErrorReply(500, failure), trace)
        case Success(total) =>
          Handled(DataReply(200, Obj([Field(key, Arr(rows)), Field("pagination", InfoJson(Info(total, page, limit)))])), trace)
  }

  /** A successful list reply carries the page's rows under its key and the pagination of the count. */
  lemma PageListData(key: string, pageQuery: Effect, countQuery: Effect, rows: seq<JsValue>, counted: seq<JsValue>,
                     page: JsValue, limit: JsValue, failure: string)
    requires key != "pagination" && Total(counted).Success?
    ensures var h := PageList(key, pageQuery, countQuery, Rows(rows), Rows(counted), page, limit, failure);
      SuccessFlag(h.reply) == Bool(true) &&
      Get(Data(h.reply), key) == Arr(rows) &&
      Get(Data(h.reply), "pagination") == InfoJson(Info(Total(counted).value, page, limit))
  {
    var pj := InfoJson(Info(Total(counted).value, page, limit));
    PageListSucceeds(key, pageQuery, countQuery, rows, counted, page, limit, failure);
    DataReplyFields(200, Obj([Field(key, Arr(rows)), Field("pagination", pj)]));
    TwoFields(key, Arr(rows), "pagination", pj);
  }

  lemma PageListSucceeds(key: string, pageQuery: Effect, countQuery: Effect, rows: seq<JsValue>, counted: seq<JsValue>,
                         page: JsValue, limit: JsValue, failure: string)
    requires Total(counted).Success?
    ensures PageList(key, pageQuery, countQuery, Rows(rows), Rows(counted), page, limit, failure).reply ==
      DataReply(200, Obj([Field(key, Arr(rows)), Field("pagination", InfoJson(Info(Total(counted).value, page, limit)))]))
  {
  }

  /** The page query runs first and, once it succeeds, the count query second. */
  lemma PageListQueries(key: string, pageQuery: Effect, countQuery: Effect, pageRows: DbOutcome, countRows: DbOutcome,
                        page: JsValue, limit: JsValue, failure: string)
    ensures var h := PageList(key, pageQuery, countQuery, pageRows, countRows, page, limit, failure);
      h.trace[0] == pageQuery && (pageRows.Rows? ==> h.trace[1] == countQuery)
  {
  }

  /** The number a request parameter denotes when it is absent or written in decimal. */
  predicate Denotes(v: JsValue, n: nat) {
    v == Num(n) || v == Str(NatToString(n))
  }

  lemma DenotesNumber(v: JsValue, n: nat)
    requires Denotes(v, n)
    ensures ToNumber(v) == Fin(n as real)
    ensures ParseInt(ToJsString(v)) == Some(n)
  {
    DenotesToNumber(v, n);
    ParseIntOfIntToString(n);
  }

  lemma DenotesToNumber(v: JsValue, n: nat)
    requires Denotes(v, n)
    ensures ToNumber(v) == Fin(n as real)
  {
    StringToNumberOfNat(n);
  }

  /** For a page p and limit l given in decimal, the offset skips exactly the rows of the p-1 earlier pages. */
  lemma OffsetSkipsEarlierPages(page: JsValue, limit: JsValue, p: nat, l: nat)
    requires Denotes(page, p) && Denotes(limit, l)
    ensures Offset(page, limit) == Fin((p as real - 1.0) * l as real)
  {
    DenotedPair(page, limit, p, l);
    OffsetOfNumbers(page, limit, p, l);
  }

  lemma DenotedPair(page: JsValue, limit: JsValue, p: nat, l: nat)
    requires Denotes(page, p) && Denotes(limit, l)
    ensures ToNumber(page) == Fin(p as real) && ToNumber(limit) == Fin(l as real)
  {
    DenotesToNumber(page, p);
    DenotesToNumber(limit, l);
  }

  lemma OffsetOfNumbers(page: JsValue, limit: JsValue, p: nat, l: nat)
    requires ToNumber(page) == Fin(p as real) && ToNumber(limit) == Fin(l as real)
    ensures Offset(page, limit) == Fin((p as real - 1.0) * l as real)
  {
    MulSubFin(ToNumber(page), ToNumber(limit), p as real, l as real);
  }

  lemma MulSubFin(a: Number, b: Number, x: real, y: real)
    requires a == Fin(x) && b == Fin(y)
    ensures Mul(Sub(a, Fin(1.0)), b) == Fin((x - 1.0) * y)
  {
  }

  /**
   * With a positive limit, totalPages is the least page count whose pages hold
   * every row: (tp - 1) * l < total <= tp * l, and tp is 0 exactly when there is
   * no row.
   */
  lemma TotalPagesCoversRows(total: nat, limit: JsValue, l: nat) returns (tp: nat)
    requires Denotes(limit, l) && l >= 1
    ensures TotalPages(Some(total), limit) == Fin(tp as real)
    ensures (tp - 1) * l < total <= tp * l
    ensures tp == 0 <==> total == 0
  {
    DenotesToNumber(limit, l);
    var q := total as real / l as real;
    var c := CeilReal(q);
    TotalPagesOf(total, limit, l);
    CeilDivBounds(total, l, q, c);
    tp := c;
  }

  lemma TotalPagesOf(total: nat, limit: JsValue, l: nat)
    requires ToNumber(limit) == Fin(l as real) && l >= 1
    ensures TotalPages(Some(total), limit) == Fin(CeilReal(total as real / l as real) as real)
  {
    assert Div(Fin(total as real), Fin(l as real)) == Fin(total as real / l as real);
  }

  lemma CeilDivBounds(total: nat, l: nat, q: real, c: int)
    requires l >= 1 && q == total as real / l as real
    requires c as real >= q && (c - 1) as real < q
    ensures c >= 0
    ensures (c - 1) * l < total <= c * l
    ensures c == 0 <==> total == 0
  {
    var L := l as real;
    assert q * L == total as real;
    MulMonoLe(q, c as real, L);
    MulMonoLt((c - 1) as real, q, L);
    IntMulReal(c, l);
    IntMulReal(c - 1, l);
  }

  lemma MulMonoLe(a: real, b: real, k: real)
    requires a <= b && k >= 0.0
    ensures a * k <= b * k
  {
  }

  lemma MulMonoLt(a: real, b: real, k: real)
    requires a < b && k > 0.0
    ensures a * k < b * k
  {
  }

  lemma IntMulReal(a: int, b: int)
    ensures (a * b) as real == a as real * b as real
  {
  }

  /** A zero limit divides by zero: Infinity pages when there are rows, NaN when there are none. */
  lemma TotalPagesZeroLimit(total: nat, limit: JsValue)
    requires Denotes(limit, 0)
    ensures total > 0 ==> TotalPages(Some(total), limit) == Inf(true)
    ensures total == 0 ==> TotalPages(Some(total), limit) == NaN
  {
    DenotesNumber(limit, 0);
    DivideByZero(total);
  }

  lemma DivideByZero(total: nat)
    ensures total > 0 ==> Ceil(Div(Fin(total as real), Fin(0.0))) == Inf(true)
    ensures total == 0 ==> Ceil(Div(Fin(total as real), Fin(0.0))) == NaN
  {
  }

  /** A non-numeric limit makes both the offset and the page count NaN. */
  lemma NonNumericLimit(total: Option<int>, page: JsValue, limit: JsValue)
    requires ToNumber(limit) == NaN
    ensures Offset(page, limit) == NaN
    ensures TotalPages(total, limit) == NaN
  {
  }
}
