/**
 * The shape of the parameterised list queries the controllers assemble: a base
 * SELECT, one ` AND <column> = $n` clause per active filter, numbered
 * consecutively, and a tail ` ORDER BY .. LIMIT $(k+1) OFFSET $(k+2)`, with a
 * parameter list holding the filter values followed by limit and offset.
 *
 * `Placeholders` reads the `$n` markers out of a query text, which lets the
 * numbering be stated about the text itself.
 */
module Sql {
  import opened Strings
  import opened JsValues
  import opened JsNumbers
  import opened Http

  /** An active filter: the column it tests and the value bound to its placeholder. */
  datatype Filter = Filter(column: string, value: Param)

  /** ` AND <column> = $<n>` */
  function Clause(column: string, n: nat): (r: string)
    ensures |r| > 0 && r[0] == ' '
  {
    " AND " + column + " = $" + NatToString(n)
  }

  /** The clauses of the filters, the first of which uses placeholder `first`. */
  function Clauses(fs: seq<Filter>, first: nat): (r: string)
    ensures r == [] || r[0] == ' '
  {
    if fs == [] then "" else Clause(fs[0].column, first) + Clauses(fs[1..], first + 1)
  }

  /** ` ORDER BY <order> LIMIT $(k+1) OFFSET $(k+2)` after k bound parameters. */
  function Tail(order: string, k: nat): (r: string)
    ensures |r| > 0 && r[0] == ' '
  {
    " ORDER BY " + order + " LIMIT $" + NatToString(k + 1) + " OFFSET $" + NatToString(k + 2)
  }

  /** The page query: `bound` placeholders already in the base text, then the filters, then the tail. */
  function PageSql(base: string, bound: nat, fs: seq<Filter>, order: string): string {
    base + Clauses(fs, bound + 1) + Tail(order, bound + |fs|)
  }

  function Values(fs: seq<Filter>): (r: seq<Param>)
    ensures |r| == |fs|
    ensures forall i :: 0 <= i < |fs| ==> r[i] == fs[i].value
  {
    if fs == [] then [] else [fs[0].value] + Values(fs[1..])
  }

  function PageParams(bound: seq<Param>, fs: seq<Filter>, limit: Param, offset: Param): seq<Param> {
    bound + Values(fs) + [limit, offset]
  }

  predicate NoMarker(s: string) {
    '$' !in s
  }

  lemma NoMarkerConcat(a: string, b: string)
    requires NoMarker(a) && NoMarker(b)
    ensures NoMarker(a + b)
  {
  }

  predicate ColumnsPlain(fs: seq<Filter>) {
    forall i :: 0 <= i < |fs| ==> NoMarker(fs[i].column)
  }

  /** The numbers of the `$n` markers of a query text, in order of appearance. */
  function Placeholders(s: string): seq<nat>
    decreases |s|
  {
    if s == [] then []
    else if s[0] == '$' then
      var n := DigitRun(s[1..]);
      (if n == 0 then [] else [DigitsValue(s[1..][..n])]) + Placeholders(s[1 + n..])
    else Placeholders(s[1..])
  }

  /** [lo, lo+1, .., hi-1] */
  function Range(lo: nat, hi: nat): (r: seq<nat>)
    ensures |r| == if lo <= hi then hi - lo else 0
    ensures forall i :: 0 <= i < |r| ==> r[i] == lo + i
    decreases hi - lo
  {
    if lo >= hi then [] else [lo] + Range(lo + 1, hi)
  }

  lemma {:induction false} DigitRunConcat(x: string, b: string)
    requires b == [] || !IsDigit(b[0])
    ensures DigitRun(x + b) == DigitRun(x)
  {
    if x == [] {
      assert x + b == b;
    } else if IsDigit(x[0]) {
      assert (x + b)[1..] == x[1..] + b;
      DigitRunConcat(x[1..], b);
    }
  }

  /** Markers are read independently on both sides of a cut that is not followed by a digit. */
  lemma {:induction false} PlaceholdersConcat(a: string, b: string)
    requires b == [] || !IsDigit(b[0])
    ensures Placeholders(a + b) == Placeholders(a) + Placeholders(b)
    decreases |a|
  {
    if a == [] {
      assert a + b == b;
    } else if a[0] == '$' {
      var n := DigitRun(a[1..]);
      PlaceholdersConcat(a[1 + n..], b);
      MarkerThenConcat(a, b);
    } else {
      assert (a + b)[1..] == a[1..] + b;
      PlaceholdersConcat(a[1..], b);
    }
  }

  /** The step of `PlaceholdersConcat` at a `$`, given the cut holds for the text after the marker. */
  lemma MarkerThenConcat(a: string, b: string)
    requires a != [] && a[0] == '$' && (b == [] || !IsDigit(b[0]))
    requires var n := DigitRun(a[1..]);
      Placeholders(a[1 + n..] + b) == Placeholders(a[1 + n..]) + Placeholders(b)
    ensures Placeholders(a + b) == Placeholders(a) + Placeholders(b)
  {
    var x := a[1..];
    SliceConcat(a, b, 1);
    DigitRunConcat(x, b);
    var n := DigitRun(x);
    var head: seq<nat> := if n == 0 then [] else [DigitsValue(x[..n])];
    SliceConcat(x, b, n);
    SliceConcat(a, b, 1 + n);
    calc {
      Placeholders(a + b);
      head + Placeholders(a[1 + n..] + b);
      head + (Placeholders(a[1 + n..]) + Placeholders(b));
      { ConcatAssoc(head, Placeholders(a[1 + n..]), Placeholders(b)); }
      head + Placeholders(a[1 + n..]) + Placeholders(b);
      Placeholders(a) + Placeholders(b);
    }
  }

  lemma {:induction false} PlaceholdersNone(s: string)
    requires NoMarker(s)
    ensures Placeholders(s) == []
    decreases |s|
  {
    if s != [] {
      PlaceholdersNone(s[1..]);
    }
  }

  lemma Marker(n: nat)
    ensures Placeholders("$" + NatToString(n)) == [n]
  {
    var d := NatToString(n);
    var s := "$" + d;
    assert s[1..] == d;
    DigitRunAll(d);
    assert d[..|d|] == d;
    NatToStringValue(n);
    assert s[1 + |d|..] == [];
  }

  /** A marker-free text followed by `$n`. */
  lemma TextThenMarker(t: string, n: nat)
    requires NoMarker(t)
    ensures Placeholders(t + "$" + NatToString(n)) == [n]
  {
    PlaceholdersConcat(t, "$" + NatToString(n));
    assert t + "$" + NatToString(n) == t + ("$" + NatToString(n));
    PlaceholdersNone(t);
    Marker(n);
  }

  /** A text followed by a one-digit marker written out, such as `$2`. */
  lemma DigitMarker(t: string, n: nat, marker: string)
    requires NoMarker(t) && 1 <= n <= 9 && marker == ['$', DigitChar(n)]
    ensures Placeholders(t + marker) == [n]
  {
    assert NatToString(n) == [DigitChar(n)];
    assert t + marker == t + "$" + NatToString(n);
    TextThenMarker(t, n);
  }

  lemma ClausePlaceholders(column: string, n: nat)
    requires NoMarker(column)
    ensures Placeholders(Clause(column, n)) == [n]
  {
    var t := " AND " + column + " = ";
    assert Clause(column, n) == t + "$" + NatToString(n);
    TextThenMarker(t, n);
  }

  /** The filter clauses use the consecutive placeholders first, first+1, .., first+|fs|-1. */
  lemma {:induction false} ClausesPlaceholders(fs: seq<Filter>, first: nat)
    requires ColumnsPlain(fs)
    ensures Placeholders(Clauses(fs, first)) == Range(first, first + |fs|)
  {
    if fs != [] {
      ClausePlaceholders(fs[0].column, first);
      ClausesPlaceholders(fs[1..], first + 1);
      PlaceholdersConcat(Clause(fs[0].column, first), Clauses(fs[1..], first + 1));
    }
  }

  lemma TailPlaceholders(order: string, k: nat)
    requires NoMarker(order)
    ensures Placeholders(Tail(order, k)) == [k + 1, k + 2]
  {
    var t1 := " ORDER BY " + order + " LIMIT ";
    var t2 := " OFFSET ";
    var p1 := t1 + "$" + NatToString(k + 1);
    var p2 := t2 + "$" + NatToString(k + 2);
    assert Tail(order, k) == p1 + p2;
    TextThenMarker(t1, k + 1);
    TextThenMarker(t2, k + 2);
    PlaceholdersConcat(p1, p2);
  }

  /**
   * The page query's markers are exactly $1, $2, .., $(bound + k + 2), in that
   * order: the filters take the numbers after those of the base text, then
   * LIMIT and OFFSET follow.
   */
  lemma PageSqlPlaceholders(base: string, bound: nat, fs: seq<Filter>, order: string)
    requires Placeholders(base) == Range(1, bound + 1)
    requires ColumnsPlain(fs) && NoMarker(order)
    ensures Placeholders(PageSql(base, bound, fs, order)) == Range(1, bound + |fs| + 3)
  {
    var c := Clauses(fs, bound + 1);
    var t := Tail(order, bound + |fs|);
    PageSqlSplit(base, bound, fs, order);
    ClausesPlaceholders(fs, bound + 1);
    TailPlaceholders(order, bound + |fs|);
    RangeSteps(Placeholders(base), Placeholders(c), Placeholders(t), bound, |fs|);
  }

  /** The page query's markers are those of the base, then of the clauses, then of the tail. */
  lemma PageSqlSplit(base: string, bound: nat, fs: seq<Filter>, order: string)
    ensures Placeholders(PageSql(base, bound, fs, order)) ==
      Placeholders(base) + (Placeholders(Clauses(fs, bound + 1)) + Placeholders(Tail(order, bound + |fs|)))
  {
    var c := Clauses(fs, bound + 1);
    var t := Tail(order, bound + |fs|);
    calc {
      Placeholders(PageSql(base, bound, fs, order));
      { assert PageSql(base, bound, fs, order) == base + (c + t); }
      Placeholders(base + (c + t));
      { PlaceholdersConcat(base, c + t); }
      Placeholders(base) + Placeholders(c + t);
      { PlaceholdersConcat(c, t); }
      Placeholders(base) + (Placeholders(c) + Placeholders(t));
    }
  }

  lemma RangeSteps(x: seq<nat>, y: seq<nat>, z: seq<nat>, b: nat, f: nat)
    requires x == Range(1, b + 1) && y == Range(b + 1, b + f + 1) && z == [b + f + 1, b + f + 2]
    ensures x + (y + z) == Range(1, b + f + 3)
  {
    var r := x + (y + z);
    assert |r| == b + f + 2;
    forall i | 0 <= i < |r| ensures r[i] == 1 + i {
    }
  }

  /**
   * A page query over a base text without markers: $1..$(k+2) for k filters,
   * bound to the filter values followed by limit and offset.
   */
  lemma PlainPage(base: string, fs: seq<Filter>, order: string, limit: Param, offset: Param)
    requires Placeholders(base) == [] && ColumnsPlain(fs) && NoMarker(order)
    ensures var ps := PageParams([], fs, limit, offset);
      Placeholders(PageSql(base, 0, fs, order)) == Range(1, |fs| + 3) &&
      |ps| == |fs| + 2 && ps[|fs|] == limit && ps[|fs| + 1] == offset &&
      forall i :: 0 <= i < |fs| ==> ps[i] == fs[i].value
  {
    assert Range(1, 1) == [];
    PageSqlPlaceholders(base, 0, fs, order);
    UnboundParams(fs, limit, offset);
  }

  lemma UnboundParams(fs: seq<Filter>, limit: Param, offset: Param)
    ensures var ps := PageParams([], fs, limit, offset);
      |ps| == |fs| + 2 && ps[|fs|] == limit && ps[|fs| + 1] == offset &&
      forall i :: 0 <= i < |fs| ==> ps[i] == fs[i].value
  {
    var ps := PageParams([], fs, limit, offset);
    assert ps == Values(fs) + [limit, offset];
  }

  /** Appending one filter appends one clause, numbered after the earlier ones. */
  lemma {:induction false} ClausesSnoc(fs: seq<Filter>, f: Filter, first: nat)
    ensures Clauses(fs + [f], first) == Clauses(fs, first) + Clause(f.column, first + |fs|)
    ensures Values(fs + [f]) == Values(fs) + [f.value]
  {
    ClauseAppended(fs, f, first);
    var v := Values(fs + [f]);
    assert v == Values(fs) + [f.value] by {
      assert forall i :: 0 <= i < |fs| ==> v[i] == (fs + [f])[i].value == fs[i].value;
    }
  }

  lemma {:induction false} ClauseAppended(fs: seq<Filter>, f: Filter, first: nat)
    ensures Clauses(fs + [f], first) == Clauses(fs, first) + Clause(f.column, first + |fs|)
  {
    var g := fs + [f];
    if fs == [] {
      calc {
        Clauses(g, first);
        { assert g == [f] && g[1..] == []; }
        Clause(f.column, first) + "";
        { ConcatEmpty(Clause(f.column, first)); }
        Clause(f.column, first);
      }
    } else {
      var head := Clause(fs[0].column, first);
      calc {
        Clauses(g, first);
        { assert g[0] == fs[0] && g[1..] == fs[1..] + [f]; }
        head + Clauses(fs[1..] + [f], first + 1);
        { ClauseAppended(fs[1..], f, first + 1); }
        head + (Clauses(fs[1..], first + 1) + Clause(f.column, first + |fs|));
        { ConcatAssoc(head, Clauses(fs[1..], first + 1), Clause(f.column, first + |fs|)); }
        Clauses(fs, first) + Clause(f.column, first + |fs|);
      }
    }
  }

  /** The state of a builder once the filters fs have been appended. */
  predicate Built(base: string, fs: seq<Filter>, query: string, params: seq<Param>, paramCount: nat) {
    query == base + Clauses(fs, 1) && params == Values(fs) && paramCount == |fs|
  }

  /**
   * One active filter: `paramCount++`, `query += \` AND <column> = $${paramCount}\``,
   * `params.push(value)`.
   */
  method AddFilter(base: string, ghost fs: seq<Filter>, query: string, params: seq<Param>, paramCount: nat, f: Filter)
    returns (query': string, params': seq<Param>, paramCount': nat)
    requires Built(base, fs, query, params, paramCount)
    ensures Built(base, fs + [f], query', params', paramCount')
  {
    paramCount' := paramCount + 1;
    query' := query + Clause(f.column, paramCount');
    params' := params + [f.value];
    ClausesSnoc(fs, f, 1);
    ConcatAssoc(base, Clauses(fs, 1), Clause(f.column, |fs| + 1));
  }

  /** A filter that is appended only when its condition holds. */
  method AddFilterIf(base: string, ghost fs: seq<Filter>, query: string, params: seq<Param>, paramCount: nat,
                     active: bool, f: Filter)
    returns (query': string, params': seq<Param>, paramCount': nat)
    requires Built(base, fs, query, params, paramCount)
    ensures Built(base, fs + (if active then [f] else []), query', params', paramCount')
  {
    if active {
      query', params', paramCount' := AddFilter(base, fs, query, params, paramCount, f);
    } else {
      query', params', paramCount' := query, params, paramCount;
      assert fs + [] == fs;
    }
  }

  /** A single filter's clause list is its one clause. */
  lemma OneClause(f: Filter, first: nat)
    ensures Clauses([f], first) == Clause(f.column, first)
  {
    assert [f][1..] == [];
    ConcatEmpty(Clause(f.column, first));
  }

  /** The builder's final step: the ORDER BY, LIMIT and OFFSET tail and its two parameters. */
  method AddTail(base: string, ghost fs: seq<Filter>, query: string, params: seq<Param>, paramCount: nat,
                 order: string, limit: Param, offset: Param)
    returns (query': string, params': seq<Param>)
    requires Built(base, fs, query, params, paramCount)
    ensures query' == PageSql(base, 0, fs, order)
    ensures params' == PageParams([], fs, limit, offset)
  {
    query' := query + Tail(order, paramCount);
    params' := params + [limit, offset];
    ConcatEmpty(Values(fs));
  }

  /**
   * The builder the single-filter list handlers share: `paramCount` counts
   * the bound filters, the filter's clause takes `$1` when its value is truthy,
   * and the tail numbers LIMIT and OFFSET after it.
   */
  method OneFilterPage(base: string, column: string, value: JsValue, order: string, limit: JsValue, offset: Number)
    returns (query: string, params: seq<Param>)
    ensures query == PageSql(base, 0, OneFilter(column, value), order)
    ensures params == PageParams([], OneFilter(column, value), Val(limit), Numeric(offset))
  {
    query := base;
    params := [];
    var paramCount := 0;
    ghost var fs: seq<Filter> := [];
    ConcatEmpty(base);
    if Truthy(value) {
      query, params, paramCount := AddFilter(base, fs, query, params, paramCount, Filter(column, Val(value)));
      fs := fs + [Filter(column, Val(value))];
    }
    assert fs == OneFilter(column, value);
    query, params := AddTail(base, fs, query, params, paramCount, order, Val(limit), Numeric(offset));
  }

  /** The filter list of a single optional filter, active when its value is truthy. */
  function OneFilter(column: string, value: JsValue): (fs: seq<Filter>)
    ensures |fs| <= 1
    ensures fs != [] <==> Truthy(value)
    ensures fs != [] ==> fs[0] == Filter(column, Val(value))
  {
    if Truthy(value) then [Filter(column, Val(value))] else []
  }
  /**
   * A page query with one optional filter: `$1` for the filter when its value
   * is truthy, then LIMIT and OFFSET numbered right after it.
   */
  lemma OnePagePlaceholders(base: string, column: string, value: JsValue, order: string)
    requires NoMarker(base) && NoMarker(column) && NoMarker(order)
    ensures Placeholders(PageSql(base, 0, OneFilter(column, value), order)) == if Truthy(value) then [1, 2, 3] else [1, 2]
  {
    var fs := OneFilter(column, value);
    SmallRanges();
    PlaceholdersNone(base);
    PageSqlPlaceholders(base, 0, fs, order);
  }

  lemma SmallRanges()
    ensures Range(1, 1) == [] && Range(1, 2) == [1] && Range(1, 3) == [1, 2]
    ensures Range(1, 4) == [1, 2, 3] && Range(1, 5) == [1, 2, 3, 4]
  {
  }

  /**
   * The count query of a list with one optional filter: the value is
   * interpolated into the text, quoted, instead of being bound.
   */
  function OneFilterCount(table: string, column: string, value: JsValue): string {
    if Truthy(value) then "SELECT COUNT(*) FROM " + table + " WHERE " + column + " = '" + ToJsString(value) + "'"
    else "SELECT COUNT(*) FROM " + table
  }

  /** The parameters of a page with one optional filter: its value when present, then limit and offset. */
  lemma OneFilterParams(column: string, value: JsValue, limit: Param, offset: Param)
    ensures PageParams([], OneFilter(column, value), limit, offset) ==
      if Truthy(value) then [Val(value), limit, offset] else [limit, offset]
  {
  }

  lemma OneFilterCountAgrees(table: string, column: string, countColumn: string, value: JsValue)
    ensures var fs := OneFilter(column, value);
      (fs == [] <==> OneFilterCount(table, countColumn, value) == "SELECT COUNT(*) FROM " + table) &&
      (fs != [] ==>
         OneFilterCount(table, countColumn, value) ==
         "SELECT COUNT(*) FROM " + table + " WHERE " + countColumn + " = '" + ToJsString(fs[0].value.v) + "'")
  {
    var whole := "SELECT COUNT(*) FROM " + table;
    if Truthy(value) {
      var suffix := " WHERE " + countColumn + " = '" + ToJsString(value) + "'";
      assert |whole + suffix| > |whole|;
    }
  }


  /** How a value is interpolated into a count query: booleans bare, anything else quoted. */
  function Literal(p: Param): string {
    match p
    case Val(Bool(b)) => if b then "true" else "false"
    case Val(v) => "'" + ToJsString(v) + "'"
    case Numeric(_) => ""
  }

  /** ` AND <column> = <literal>` for each filter, as the count queries interpolate them. */
  function LiteralClauses(fs: seq<Filter>): (r: string)
    ensures r == [] <==> fs == []
  {
    if fs == [] then "" else " AND " + fs[0].column + " = " + Literal(fs[0].value) + LiteralClauses(fs[1..])
  }

  /**
   * What `SET column = COALESCE($i, column)` does to a stored row: each listed
   * column takes its bound value unless that is null (an `undefined` binds as
   * null), and every other column keeps its value.
   */
  function CoalesceRow(row: map<string, JsValue>, columns: seq<string>, values: seq<JsValue>): (r: map<string, JsValue>)
    requires |columns| == |values|
    ensures r.Keys == row.Keys
    decreases |columns|
  {
    if columns == [] then row
    else
      var rest := CoalesceRow(row, columns[1..], values[1..]);
      if columns[0] in rest && !IsNullish(values[0]) then rest[columns[0] := values[0]] else rest
  }

  /** The column every UPDATE of a stored row also sets, to `CURRENT_TIMESTAMP`. */
  const StampColumn: string := "updated_at"

  predicate Distinct(columns: seq<string>) {
    forall i, j :: 0 <= i < j < |columns| ==> columns[i] != columns[j]
  }

  /** A listed column of the row takes its bound value when that is not null, and keeps its old value otherwise. */
  lemma {:induction false} CoalesceRowValue(row: map<string, JsValue>, columns: seq<string>, values: seq<JsValue>, i: nat)
    requires |columns| == |values| && Distinct(columns) && i < |columns| && columns[i] in row
    ensures CoalesceRow(row, columns, values)[columns[i]] == if IsNullish(values[i]) then row[columns[i]] else values[i]
    decreases |columns|
  {
    if i == 0 {
      CoalesceRowKeeps(row, columns[1..], values[1..], columns[0]);
    } else {
      CoalesceRowValue(row, columns[1..], values[1..], i - 1);
    }
  }

  /** A column the update does not list keeps its value. */
  lemma {:induction false} CoalesceRowKeeps(row: map<string, JsValue>, columns: seq<string>, values: seq<JsValue>, c: string)
    requires |columns| == |values| && c in row && c !in columns
    ensures CoalesceRow(row, columns, values)[c] == row[c]
    decreases |columns|
  {
    if columns != [] {
      assert columns[0] != c;
      CoalesceRowKeeps(row, columns[1..], values[1..], c);
    }
  }
}
