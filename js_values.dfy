/**
 * The JavaScript values that travel through request bodies, service replies and
 * stored rows, together with the parts of JavaScript's semantics the application
 * logic depends on: truthiness, `||`, `??`, property access with and without
 * optional chaining, strict equality, `String(v)`, `JSON.stringify` and `parseInt`.
 *
 * Numbers carried in values are integers; objects keep their keys in insertion
 * order, as JavaScript iterates them for non-index keys.
 */
module JsValues {
  import opened Wrappers
  import opened Strings

  datatype JsValue =
    | Undefined
    | Null
    | Bool(b: bool)
    | Num(n: int)
    | Str(s: string)
    | Arr(items: seq<JsValue>)
    | Obj(fields: seq<Field>)

  datatype Field = Field(key: string, value: JsValue)

  /** JavaScript's ToBoolean. */
  predicate Truthy(v: JsValue) {
    match v
    case Undefined => false
    case Null => false
    case Bool(b) => b
    case Num(n) => n != 0
    case Str(s) => s != ""
    case Arr(_) => true
    case Obj(_) => true
  }

  predicate IsNullish(v: JsValue) {
    v == Undefined || v == Null
  }

  /** `a || b` */
  function Or(a: JsValue, b: JsValue): (r: JsValue)
    ensures Truthy(a) ==> r == a
    ensures !Truthy(a) ==> r == b
  {
    if Truthy(a) then a else b
  }

  /** `a ?? b` */
  function Coalesce(a: JsValue, b: JsValue): (r: JsValue)
    ensures !IsNullish(a) ==> r == a
    ensures IsNullish(a) ==> r == b
  {
    if IsNullish(a) then b else a
  }

  /** `a || b` for two strings, the form almost every default in the application takes. */
  function OrStr(a: JsValue, dflt: string): (r: JsValue)
    ensures Truthy(a) ==> r == a
    ensures !Truthy(a) ==> r == Str(dflt)
  {
    Or(a, Str(dflt))
  }

  /** The value of the first field named `key`. */
  function Lookup(fields: seq<Field>, key: string): (r: Option<JsValue>)
    ensures r.Some? <==> exists i :: 0 <= i < |fields| && fields[i].key == key
  {
    if fields == [] then None
    else if fields[0].key == key then Some(fields[0].value)
    else Lookup(fields[1..], key)
  }

  /**
   * `v?.key`: the property of an object, and `undefined` for a missing property,
   * for `null`/`undefined` and for the other primitives (whose prototype
   * properties are not part of this model).
   */
  function Get(v: JsValue, key: string): (r: JsValue)
    ensures !v.Obj? ==> r == Undefined
  {
    match v
    case Obj(fs) => Lookup(fs, key).GetOr(Undefined)
    case _ => Undefined
  }

  /** A property is read from the first field carrying its key. */
  lemma {:induction false} LookupAt(fields: seq<Field>, i: nat, key: string)
    requires i < |fields| && fields[i].key == key
    requires forall j :: 0 <= j < i ==> fields[j].key != key
    ensures Lookup(fields, key) == Some(fields[i].value)
    ensures Get(Obj(fields), key) == fields[i].value
  {
    if i > 0 {
      LookupAt(fields[1..], i - 1, key);
    }
  }

  /** The two properties of a two-field object with distinct keys. */
  lemma TwoFields(k1: string, v1: JsValue, k2: string, v2: JsValue)
    requires k1 != k2
    ensures Get(Obj([Field(k1, v1), Field(k2, v2)]), k1) == v1
    ensures Get(Obj([Field(k1, v1), Field(k2, v2)]), k2) == v2
  {
    LookupAt([Field(k1, v1), Field(k2, v2)], 0, k1);
    LookupAt([Field(k1, v1), Field(k2, v2)], 1, k2);
  }

  /** The fields after `obj.key = x`: the first field named `key` takes the value, or a field is appended. */
  function SetFields(fields: seq<Field>, key: string, x: JsValue): (r: seq<Field>)
    ensures Lookup(r, key) == Some(x)
    ensures forall k :: k != key ==> Lookup(r, k) == Lookup(fields, k)
  {
    if fields == [] then [Field(key, x)]
    else if fields[0].key == key then [Field(key, x)] + fields[1..]
    else [fields[0]] + SetFields(fields[1..], key, x)
  }

  /**
   * `v.key = x` on a row object: the property reads back as `x` and every
   * other property is unchanged. Assigning to a non-object leaves it as it is.
   */
  function SetProperty(v: JsValue, key: string, x: JsValue): (r: JsValue)
    ensures v.Obj? ==> r.Obj? && Get(r, key) == x
    ensures forall k :: k != key ==> Get(r, k) == Get(v, k)
    ensures !v.Obj? ==> r == v
  {
    match v
    case Obj(fs) => Obj(SetFields(fs, key, x))
    case _ => v
  }

  /** The TypeError message V8 raises for `v.key` when `v` is `null` or `undefined`. */
  function ReadError(v: JsValue, key: string): string {
    "Cannot read properties of " + (if v == Null then "null" else "undefined") + " (reading '" + key + "')"
  }

  /** A destructuring default: taken when the property is `undefined`. */
  function DefaultTo(v: JsValue, dflt: JsValue): (r: JsValue)
    ensures v == Undefined ==> r == dflt
    ensures v != Undefined ==> r == v
  {
    if v == Undefined then dflt else v
  }

  /** `v.key` without optional chaining: throws on `null` and `undefined`. */
  function Member(v: JsValue, key: string): (r: Result<JsValue, string>)
    ensures r.Failure? <==> IsNullish(v)
    ensures r.Success? ==> r.value == Get(v, key)
  {
    if IsNullish(v) then Failure(ReadError(v, key)) else Success(Get(v, key))
  }

  /** Builds an object literal from its fields. */
  function Object(fields: seq<Field>): JsValue {
    Obj(fields)
  }

  /** `a === b`: by value for primitives; two objects from separate parses are never identical. */
  predicate StrictEquals(a: JsValue, b: JsValue) {
    match a
    case Arr(_) => false
    case Obj(_) => false
    case _ => a == b
  }

  /** `String(v)`, which is also what a template literal interpolates. */
  function ToJsString(v: JsValue): string {
    match v
    case Undefined => "undefined"
    case Null => "null"
    case Bool(b) => if b then "true" else "false"
    case Num(n) => IntToString(n)
    case Str(s) => s
    case Arr(items) => JoinItems(items)
    case Obj(_) => "[object Object]"
  }

  /** `Array.prototype.join(",")`, which renders `null` and `undefined` elements as "". */
  function JoinItems(items: seq<JsValue>): string
    decreases items, 0
  {
    if items == [] then ""
    else
      var head := if IsNullish(items[0]) then "" else ToJsString(items[0]);
      if |items| == 1 then head else head + "," + JoinItems(items[1..])
  }

  function HexDigit(d: nat): char
    requires d < 16
  {
    if d < 10 then DigitChar(d) else ('a' as int + d - 10) as char
  }

  /** JSON.stringify's escaping of one character inside a string literal. */
  function EscapeChar(c: char): string {
    if c == '"' then "\\\""
    else if c == '\\' then "\\\\"
    else if c == '\n' then "\\n"
    else if c == '\r' then "\\r"
    else if c == '\t' then "\\t"
    else if c == '\U{0008}' then "\\b"
    else if c == '\U{000C}' then "\\f"
    else if c < ' ' then "\\u00" + [HexDigit(c as int / 16), HexDigit(c as int % 16)]
    else [c]
  }

  function Quote(s: string): string {
    "\"" + EscapeBody(s) + "\""
  }

  function EscapeBody(s: string): string {
    if s == [] then "" else EscapeChar(s[0]) + EscapeBody(s[1..])
  }

  /**
   * `JSON.stringify(v)`: `None` where JavaScript returns `undefined` (for `undefined`
   * itself); object fields whose value is `undefined` are omitted and array
   * elements that are `undefined` become `null`.
   */
  function Stringify(v: JsValue): (r: Option<string>)
    ensures r.None? <==> v == Undefined
  {
    match v
    case Undefined => None
    case Null => Some("null")
    case Bool(b) => Some(if b then "true" else "false")
    case Num(n) => Some(IntToString(n))
    case Str(s) => Some(Quote(s))
    case Arr(items) => Some("[" + StringifyItems(items) + "]")
    case Obj(fields) => Some("{" + StringifyFields(fields) + "}")
  }

  /** The value `JSON.stringify(v)` evaluates to: a string, or `undefined` for `undefined`. */
  function StringifyValue(v: JsValue): (r: JsValue)
    ensures v == Undefined <==> r == Undefined
    ensures v != Undefined ==> r == Str(Stringify(v).value)
  {
    match Stringify(v)
    case Some(text) => Str(text)
    case None => Undefined
  }

  function StringifyItems(items: seq<JsValue>): string
    decreases items, 0
  {
    if items == [] then ""
    else
      var head := Stringify(items[0]).GetOr("null");
      if |items| == 1 then head else head + "," + StringifyItems(items[1..])
  }

  /** The members of an object literal, skipping those whose value is `undefined`. */
  function StringifyFields(fields: seq<Field>): string
    decreases fields, 0
  {
    if fields == [] then ""
    else
      var rest := StringifyFields(fields[1..]);
      match Stringify(fields[0].value)
      case None => rest
      case Some(text) =>
        var member := Quote(fields[0].key) + ":" + text;
        if rest == "" then member else member + "," + rest
  }

  /** An object all of whose fields are `undefined` stringifies to "{}". */
  lemma {:induction false} StringifyAllUndefined(fields: seq<Field>)
    requires forall i :: 0 <= i < |fields| ==> fields[i].value == Undefined
    ensures Stringify(Obj(fields)) == Some("{}")
  {
    StringifyFieldsAllUndefined(fields);
    assert "{" + "" + "}" == "{}";
  }

  lemma {:induction false} StringifyFieldsAllUndefined(fields: seq<Field>)
    requires forall i :: 0 <= i < |fields| ==> fields[i].value == Undefined
    ensures StringifyFields(fields) == ""
  {
    if fields != [] {
      StringifyFieldsAllUndefined(fields[1..]);
    }
  }

  predicate IsDecimalDigit(c: char) {
    '0' <= c <= '9'
  }

  function HexValue(c: char): Option<nat> {
    if '0' <= c <= '9' then Some(c as int - '0' as int)
    else if 'a' <= c <= 'f' then Some(c as int - 'a' as int + 10)
    else if 'A' <= c <= 'F' then Some(c as int - 'A' as int + 10)
    else None
  }

  function DigitValue(c: char, radix: nat): Option<nat> {
    match HexValue(c)
    case Some(d) => if d < radix then Some(d) else None
    case None => None
  }

  /** The length of the longest prefix of `s` made of digits of the given radix. */
  function DigitPrefix(s: string, radix: nat): (n: nat)
    ensures n <= |s|
    ensures forall i :: 0 <= i < n ==> DigitValue(s[i], radix).Some?
    ensures n < |s| ==> DigitValue(s[n], radix).None?
  {
    if s == [] || DigitValue(s[0], radix).None? then 0 else 1 + DigitPrefix(s[1..], radix)
  }

  /** The value of a sequence of digits of the given radix, most significant first. */
  function RadixValue(s: string, radix: nat): nat
    requires forall i :: 0 <= i < |s| ==> DigitValue(s[i], radix).Some?
  {
    if s == [] then 0
    else
      var high := RadixValue(s[..|s| - 1], radix);
      NatProduct(high, radix);
      high * radix + DigitValue(s[|s| - 1], radix).value
  }

  lemma NatProduct(a: nat, b: nat)
    ensures a * b >= 0
  {
  }

  /**
   * `parseInt(text)` with no radix: leading whitespace is skipped, one sign is
   * accepted, a `0x`/`0X` prefix selects base 16, and the longest digit prefix is
   * read; `None` stands for NaN (no digit at all).
   */
  function ParseInt(text: string): (r: Option<int>)
  {
    var t := TrimStart(text);
    if t != [] && t[0] == '-' then
      match ParseUnsigned(t[1..])
      case Some(m) => Some(-m)
      case None => None
    else if t != [] && t[0] == '+' then ParseUnsigned(t[1..])
    else ParseUnsigned(t)
  }

  /** The digits after the sign: hexadecimal after `0x`/`0X`, decimal otherwise. */
  function ParseUnsigned(u: string): (r: Option<int>)
    ensures r.Some? ==> r.value >= 0
  {
    var hex := |u| >= 2 && u[0] == '0' && (u[1] == 'x' || u[1] == 'X');
    var radix := if hex then 16 else 10;
    var body := if hex then u[2..] else u;
    var n := DigitPrefix(body, radix);
    if n == 0 then None else Some(RadixValue(body[..n], radix))
  }

  /** Decimal digits read by RadixValue agree with Strings.DigitsValue. */
  lemma {:induction false} DecimalRadixValue(s: string)
    requires forall i :: 0 <= i < |s| ==> IsDecimalDigit(s[i])
    ensures forall i :: 0 <= i < |s| ==> DigitValue(s[i], 10).Some?
    ensures RadixValue(s, 10) == DigitsValue(s)
  {
    if s != [] {
      DecimalRadixValue(s[..|s| - 1]);
    }
  }

  lemma ParseUnsignedDecimal(s: string)
    requires s != [] && forall i :: 0 <= i < |s| ==> '0' <= s[i] <= '9'
    ensures ParseUnsigned(s) == Some(DigitsValue(s))
  {
    DecimalRadixValue(s);
    DigitPrefixAll(s, 10);
    assert s[..|s|] == s;
  }

  /** parseInt reads back the decimal rendering of every integer. */
  lemma ParseIntOfNatToString(n: nat)
    ensures ParseInt(NatToString(n)) == Some(n)
  {
    ParseIntOfIntToString(n);
    assert IntToString(n) == NatToString(n);
  }

  lemma ParseIntOfIntToString(n: int)
    ensures ParseInt(IntToString(n)) == Some(n)
  {
    var m: nat := if n < 0 then -n else n;
    var s := NatToString(m);
    NatToStringValue(m);
    ParseUnsignedDecimal(s);
    if n < 0 {
      ParseIntNegative(s);
    } else {
      ParseIntDigitFirst(s);
    }
  }

  lemma ParseIntDigitFirst(u: string)
    requires u != [] && '0' <= u[0] <= '9'
    ensures ParseInt(u) == ParseUnsigned(u)
  {
    assert !IsJsSpace(u[0]);
    assert TrimStart(u) == u;
  }

  lemma ParseIntNegative(u: string)
    requires u != [] && '0' <= u[0] <= '9' && ParseUnsigned(u).Some?
    ensures ParseInt("-" + u) == Some(-ParseUnsigned(u).value)
  {
    MinusSign(u);
  }

  lemma MinusSign(u: string)
    ensures ParseUnsigned(u).Some? ==> ParseInt("-" + u) == Some(-ParseUnsigned(u).value)
  {
    var t := "-" + u;
    assert !IsJsSpace(t[0]);
    assert TrimStart(t) == t;
    assert t[1..] == u;
  }

  lemma {:induction false} DigitPrefixAll(s: string, radix: nat)
    requires forall i :: 0 <= i < |s| ==> DigitValue(s[i], radix).Some?
    ensures DigitPrefix(s, radix) == |s|
  {
    if s != [] {
      DigitPrefixAll(s[1..], radix);
    }
  }
}
