/**
 * The history handlers: a user's chat history, optionally narrowed to one
 * session, and the four per-feature histories (disease detections, soil data,
 * weather queries, resource estimations). Every query is scoped to the
 * signed-in user through `$1`; all five are paginated with page 1 and limit 20
 * by default. Query texts are modelled with their whitespace runs collapsed.
 */
module HistoryController {
  import opened Wrappers
  import opened Strings
  import opened JsValues
  import opened JsNumbers
  import opened Http
  import opened Sql
  import opened Pagination

  const SelectFrom: string := "SELECT * FROM "
  const CountFrom: string := "SELECT COUNT(*) FROM "
  const UserIs: string := " WHERE user_id = "

  /** `SELECT * FROM <table> WHERE user_id = $1` */
  function Scoped(table: string): string {
    SelectFrom + table + UserIs + "$1"
  }

  /** `SELECT COUNT(*) FROM <table> WHERE user_id = $1` */
  function CountScoped(table: string): string {
    CountFrom + table + UserIs + "$1"
  }

  /** ` AND session_id = $2` */
  const SessionClause: string := " AND session_id = $2"

  lemma SessionClauseIs(session: JsValue)
    requires Truthy(session)
    ensures Clauses(OneFilter("session_id", session), 2) == SessionClause
  {
    assert OneFilter("session_id", session) == [Filter("session_id", Val(session))];
    assert NatToString(2) == "2";
    OneClause(Filter("session_id", Val(session)), 2);
  }

  const ChatOrder: string := "created_at DESC"

  /**
   * The query builder of `getChatHistory`: the user is `$1`, an optional
   * session `$2`, then LIMIT and OFFSET numbered after the parameters so far.
   */
  method ChatPage(userId: JsValue, session: JsValue, limit: JsValue, offset: Number)
    returns (query: string, params: seq<Param>)
    ensures query == PageSql(Scoped("chat_history"), 1, OneFilter("session_id", session), ChatOrder)
    ensures params == PageParams([Val(userId)], OneFilter("session_id", session), Val(limit), Numeric(offset))
  {
    query := Scoped("chat_history");
    params := [Val(userId)];
    ghost var fs: seq<Filter> := [];
    ConcatEmpty(query);
    if Truthy(session) {
      query := query + SessionClause;
      params := params + [Val(session)];
      fs := [Filter("session_id", Val(session))];
      SessionClauseIs(session);
    }
    assert fs == OneFilter("session_id", session);
    assert query == Scoped("chat_history") + Clauses(fs, 2);
    assert params == [Val(userId)] + Values(fs);
    query := query + Tail(ChatOrder, |params|);
    params := params + [Val(limit), Numeric(offset)];
  }

  /** The count of `getChatHistory`: the same user and session filter with the same parameters. */
  function ChatCount(userId: JsValue, session: JsValue): (q: Effect)
    ensures q.Query?
  {
    if Truthy(session) then Query(CountScoped("chat_history") + SessionClause, [Val(userId), Val(session)])
    else Query(CountScoped("chat_history"), [Val(userId)])
  }

  /** `getChatHistory`. */
  method GetChatHistory(query: JsValue, user: JsValue, pageRows: DbOutcome, countRows: DbOutcome) returns (h: Handled)
    ensures var page := DefaultTo(Get(query, "page"), Num(1));
      var limit := DefaultTo(Get(query, "limit"), Num(20));
      var session := Get(query, "session_id");
      var fs := OneFilter("session_id", session);
      h == PageList("history",
        Query(PageSql(Scoped("chat_history"), 1, fs, ChatOrder),
              PageParams([Val(Get(user, "userId"))], fs, Val(limit), Numeric(Offset(page, limit)))),
        ChatCount(Get(user, "userId"), session), pageRows, countRows, page, limit, "Failed to fetch chat history")
  {
    var page := DefaultTo(Get(query, "page"), Num(1));
    var limit := DefaultTo(Get(query, "limit"), Num(20));
    var session := Get(query, "session_id");
    var sql, params := ChatPage(Get(user, "userId"), session, limit, Offset(page, limit));
    var count := ChatCount(Get(user, "userId"), session);
    h := PageList("history", Query(sql, params), count, pageRows, countRows, page, limit, "Failed to fetch chat history");
  }

  /** A table name without markers leaves the user as the only marker of the scoped texts. */
  lemma ScopedPlaceholders(table: string)
    requires NoMarker(table)
    ensures Placeholders(Scoped(table)) == [1] && Placeholders(CountScoped(table)) == [1]
  {
    assert NoMarker(SelectFrom) && NoMarker(UserIs) && NoMarker(CountFrom);
    NoMarkerConcat(SelectFrom, table);
    NoMarkerConcat(SelectFrom + table, UserIs);
    NoMarkerConcat(CountFrom, table);
    NoMarkerConcat(CountFrom + table, UserIs);
    DigitMarker(SelectFrom + table + UserIs, 1, "$1");
    DigitMarker(CountFrom + table + UserIs, 1, "$1");
  }

  lemma SessionClausePlaceholders()
    ensures Placeholders(SessionClause) == [2] && SessionClause[0] == ' '
  {
    var lead := " AND session_id = ";
    assert NoMarker(lead);
    DigitMarker(lead, 2, "$2");
    assert lead + "$2" == SessionClause;
  }

  /**
   * With a session the user is `$1`, the session `$2`, LIMIT `$3` and OFFSET
   * `$4`; without one LIMIT is `$2` and OFFSET `$3`. The count query and its
   * parameters apply exactly the user and session filter of the page query.
   */
  lemma ChatPlaceholders(userId: JsValue, session: JsValue, limit: JsValue, offset: Number)
    ensures var fs := OneFilter("session_id", session);
      var ps := PageParams([Val(userId)], fs, Val(limit), Numeric(offset));
      var count := ChatCount(userId, session);
      Placeholders(PageSql(Scoped("chat_history"), 1, fs, ChatOrder)) == (if Truthy(session) then [1, 2, 3, 4] else [1, 2, 3]) &&
      count.sql == CountScoped("chat_history") + Clauses(fs, 2) &&
      Placeholders(count.sql) == (if Truthy(session) then [1, 2] else [1]) &&
      |ps| == |count.params| + 2 && count.params == ps[..|ps| - 2] && ps[0] == Val(userId)
  {
    var fs := OneFilter("session_id", session);
    ChatPagePlaceholders(session);
    if Truthy(session) {
      SessionClauseIs(session);
      SessionClausePlaceholders();
      assert NoMarker("chat_history");
      ScopedPlaceholders("chat_history");
      PlaceholdersConcat(CountScoped("chat_history"), SessionClause);
    } else {
      assert NoMarker("chat_history");
      ScopedPlaceholders("chat_history");
      ConcatEmpty(CountScoped("chat_history"));
    }
  }

  lemma ChatPagePlaceholders(session: JsValue)
    ensures Placeholders(PageSql(Scoped("chat_history"), 1, OneFilter("session_id", session), ChatOrder)) ==
      if Truthy(session) then [1, 2, 3, 4] else [1, 2, 3]
  {
    var fs := OneFilter("session_id", session);
    var base := Scoped("chat_history");
    SmallRanges();
    assert Placeholders(base) == Range(1, 2) by {
      assert NoMarker("chat_history");
      ScopedPlaceholders("chat_history");
    }
    assert ColumnsPlain(fs) by {
      assert NoMarker("session_id");
    }
    assert NoMarker(ChatOrder);
    PageSqlPlaceholders(base, 1, fs, ChatOrder);
  }

  // ---- the four per-feature histories ----

  /**
   * A history of one table, ordered by the given column: the user is `$1`,
   * LIMIT `$2` and OFFSET `$3`; the count is scoped to the same user.
   */
  function TableHistory(table: string, order: string, query: JsValue, user: JsValue,
                        pageRows: DbOutcome, countRows: DbOutcome, failure: string): Handled
  {
    var page := DefaultTo(Get(query, "page"), Num(1));
    var limit := DefaultTo(Get(query, "limit"), Num(20));
    var userId := Get(user, "userId");
    PageList("history",
      Query(PageSql(Scoped(table), 1, [], order), [Val(userId), Val(limit), Numeric(Offset(page, limit))]),
      Query(CountScoped(table), [Val(userId)]), pageRows, countRows, page, limit, failure)
  }

  /** `getDiseaseHistory` */
  function GetDiseaseHistory(query: JsValue, user: JsValue, pageRows: DbOutcome, countRows: DbOutcome): Handled {
    TableHistory("disease_detections", "created_at DESC", query, user, pageRows, countRows,
                 "Failed to fetch disease detection history")
  }

  /** `getSoilHistory`: soil readings are ordered by when they were recorded. */
  function GetSoilHistory(query: JsValue, user: JsValue, pageRows: DbOutcome, countRows: DbOutcome): Handled {
    TableHistory("soil_data", "recorded_at DESC", query, user, pageRows, countRows, "Failed to fetch soil data history")
  }

  /** `getWeatherHistory` */
  function GetWeatherHistory(query: JsValue, user: JsValue, pageRows: DbOutcome, countRows: DbOutcome): Handled {
    TableHistory("weather_queries", "created_at DESC", query, user, pageRows, countRows, "Failed to fetch weather query history")
  }

  /** `getResourceHistory` */
  function GetResourceHistory(query: JsValue, user: JsValue, pageRows: DbOutcome, countRows: DbOutcome): Handled {
    TableHistory("resource_estimations", "created_at DESC", query, user, pageRows, countRows,
                 "Failed to fetch resource estimation history")
  }

  /**
   * Each per-feature history issues its page query with the user as `$1` and
   * LIMIT/OFFSET as `$2`/`$3`, and then a count scoped to the same user; its
   * only failure reply is the handler's own 500.
   */
  lemma TableHistoryScoped(table: string, order: string, query: JsValue, user: JsValue,
                           pageRows: DbOutcome, countRows: DbOutcome, failure: string)
    requires NoMarker(table) && NoMarker(order)
    ensures var h := TableHistory(table, order, query, user, pageRows, countRows, failure);
      var q := h.trace[0];
      q.Query? && Placeholders(q.sql) == [1, 2, 3] && |q.params| == 3 && q.params[0] == Val(Get(user, "userId")) &&
      (pageRows.Rows? ==> h.trace[1] == Query(CountScoped(table), [Val(Get(user, "userId"))])) &&
      Placeholders(CountScoped(table)) == [1] &&
      (h.reply.status == 200 || h.reply == ErrorReply(500, failure))
  {
    TableHistoryTrace(table, order, query, user, pageRows, countRows, failure);
    FixedPagePlaceholders(table, order);
    ScopedPlaceholders(table);
  }

  lemma TableHistoryTrace(table: string, order: string, query: JsValue, user: JsValue,
                          pageRows: DbOutcome, countRows: DbOutcome, failure: string)
    ensures var h := TableHistory(table, order, query, user, pageRows, countRows, failure);
      var q := h.trace[0];
      q.Query? && q.sql == PageSql(Scoped(table), 1, [], order) && |q.params| == 3 && q.params[0] == Val(Get(user, "userId")) &&
      (pageRows.Rows? ==> h.trace[1] == Query(CountScoped(table), [Val(Get(user, "userId"))])) &&
      (h.reply.status == 200 || h.reply == ErrorReply(500, failure))
  {
    var page := DefaultTo(Get(query, "page"), Num(1));
    var limit := DefaultTo(Get(query, "limit"), Num(20));
    var userId := Get(user, "userId");
    var pq := Query(PageSql(Scoped(table), 1, [], order), [Val(userId), Val(limit), Numeric(Offset(page, limit))]);
    var cq := Query(CountScoped(table), [Val(userId)]);
    PageListQueries("history", pq, cq, pageRows, countRows, page, limit, failure);
  }

  /** A per-feature page query: the user `$1`, then LIMIT `$2` and OFFSET `$3`. */
  lemma FixedPagePlaceholders(table: string, order: string)
    requires NoMarker(table) && NoMarker(order)
    ensures Placeholders(PageSql(Scoped(table), 1, [], order)) == [1, 2, 3]
  {
    ScopedPlaceholders(table);
    assert Range(1, 2) == [1];
    PageSqlPlaceholders(Scoped(table), 1, [], order);
    assert Range(1, 4) == [1, 2, 3];
  }

  /** The four handlers' tables, orders and messages. */
  lemma FeatureHistories(query: JsValue, user: JsValue, pageRows: DbOutcome, countRows: DbOutcome)
    ensures GetSoilHistory(query, user, pageRows, countRows).trace[0].sql ==
      PageSql(Scoped("soil_data"), 1, [], "recorded_at DESC")
    ensures pageRows.DbFault? ==>
      GetDiseaseHistory(query, user, pageRows, countRows).reply == ErrorReply(500, "Failed to fetch disease detection history") &&
      GetSoilHistory(query, user, pageRows, countRows).reply == ErrorReply(500, "Failed to fetch soil data history") &&
      GetWeatherHistory(query, user, pageRows, countRows).reply == ErrorReply(500, "Failed to fetch weather query history") &&
      GetResourceHistory(query, user, pageRows, countRows).reply == ErrorReply(500, "Failed to fetch resource estimation history")
  {
  }
}
