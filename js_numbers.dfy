/**
 * JavaScript's IEEE numbers as far as the pagination arithmetic needs them:
 * finite values are exact reals (no rounding), plus NaN and the two infinities.
 * `ToNumber` is the coercion `-`, `*` and `/` apply to query-string operands.
 */
module JsNumbers {
  import opened Wrappers
  import opened Strings
  import opened JsValues

  datatype Number = NaN | Fin(r: real) | Inf(positive: bool)

  function Neg(a: Number): Number {
    match a
    case NaN => NaN
    case Fin(r) => Fin(-r)
    case Inf(p) => Inf(!p)
  }

  function Add(a: Number, b: Number): Number {
    match (a, b)
    case (Fin(x), Fin(y)) => Fin(x + y)
    case (Inf(p), Fin(_)) => Inf(p)
    case (Fin(_), Inf(q)) => Inf(q)
    case (Inf(p), Inf(q)) => if p == q then Inf(p) else NaN
    case _ => NaN
  }

  function Sub(a: Number, b: Number): Number {
    Add(a, Neg(b))
  }

  function Mul(a: Number, b: Number): Number {
    match (a, b)
    case (Fin(x), Fin(y)) => Fin(x * y)
    case (Inf(p), Fin(y)) => if y == 0.0 then NaN else Inf(p == (y > 0.0))
    case (Fin(x), Inf(q)) => if x == 0.0 then NaN else Inf(q == (x > 0.0))
    case (Inf(p), Inf(q)) => Inf(p == q)
    case _ => NaN
  }

  function Div(a: Number, b: Number): Number {
    match (a, b)
    case (Fin(x), Fin(y)) =>
      if y != 0.0 then Fin(x / y)
      else if x == 0.0 then NaN
      else Inf(x > 0.0)
    case (Fin(_), Inf(_)) => Fin(0.0)
    case (Inf(p), Fin(y)) => Inf(p == (y >= 0.0))
    case _ => NaN
  }

  /** `a < b`: false whenever either side is NaN. */
  predicate Less(a: Number, b: Number) {
    match (a, b)
    case (Fin(x), Fin(y)) => x < y
    case (Inf(p), Fin(_)) => !p
    case (Fin(_), Inf(q)) => q
    case (Inf(p), Inf(q)) => !p && q
    case _ => false
  }

  /** The least integer not below r. */
  function CeilReal(r: real): (c: int)
    ensures c as real >= r && (c - 1) as real < r
  {
    var f := r.Floor;
    if f as real == r then f else f + 1
  }

  /** `Math.ceil`. */
  function Ceil(a: Number): Number {
    match a
    case Fin(r) => Fin(CeilReal(r) as real)
    case _ => a
  }

  predicate IsDigit(c: char) {
    '0' <= c <= '9'
  }

  predicate AllDigits(s: string) {
    forall i :: 0 <= i < |s| ==> IsDigit(s[i])
  }

  /** 10^k */
  function Pow10(k: nat): (p: nat)
    ensures p >= 1
  {
    if k == 0 then 1 else 10 * Pow10(k - 1)
  }

  /** An unsigned decimal literal: digits, optionally a `.` and more digits, at least one digit. */
  function UnsignedDecimal(s: string): (r: Option<real>)
    ensures r.Some? ==> r.value >= 0.0
  {
    var n := DigitRun(s);
    var whole := s[..n];
    if n == |s| then
      if n == 0 then None else Some(DigitsValue(whole) as real)
    else if s[n] != '.' then None
    else
      var frac := s[n + 1..];
      if !AllDigits(frac) || (n == 0 && frac == []) then None
      else Some(DigitsValue(whole) as real + DigitsValue(frac) as real / Pow10(|frac|) as real)
  }

  /** The length of the longest prefix of decimal digits. */
  function DigitRun(s: string): (n: nat)
    ensures n <= |s| && AllDigits(s[..n])
    ensures n < |s| ==> !IsDigit(s[n])
  {
    if s == [] || !IsDigit(s[0]) then 0
    else
      var k := DigitRun(s[1..]);
      assert s[..1 + k] == [s[0]] + s[1..][..k];
      1 + k
  }

  /**
   * StringToNumber on a query-string value: surrounding whitespace is ignored,
   * the empty text is 0, a signed decimal literal or `Infinity` is read exactly,
   * and anything else is NaN.
   */
  function StringToNumber(s: string): (r: Number)
  {
    SignedNumber(Trim(s))
  }

  /** A trimmed numeric text: empty, or an optional sign followed by `Infinity` or a decimal literal. */
  function SignedNumber(t: string): (r: Number)
  {
    if t == [] then Fin(0.0)
    else if t[0] == '-' then Neg(UnsignedNumber(t[1..]))
    else if t[0] == '+' then UnsignedNumber(t[1..])
    else UnsignedNumber(t)
  }

  function UnsignedNumber(u: string): (r: Number)
  {
    if u == "Infinity" then Inf(true)
    else
      match UnsignedDecimal(u)
      case Some(v) => Fin(v)
      case None => NaN
  }

  /**
   * JavaScript's ToNumber for the values a query string or JSON body carries.
   * An array goes through its string form (`[]` is 0, `[9]` is 9, `[1, 2]` is
   * NaN); a plain object's string form is "[object Object]", which is NaN.
   */
  function ToNumber(v: JsValue): Number {
    match v
    case Undefined => NaN
    case Null => Fin(0.0)
    case Bool(b) => Fin(if b then 1.0 else 0.0)
    case Num(n) => Fin(n as real)
    case Str(s) => StringToNumber(s)
    case Arr(_) => StringToNumber(ToJsString(v))
    case Obj(_) => NaN
  }

  lemma {:induction false} DigitRunAll(s: string)
    requires AllDigits(s)
    ensures DigitRun(s) == |s|
  {
    if s != [] {
      DigitRunAll(s[1..]);
    }
  }

  lemma UnsignedDecimalOfDigits(s: string)
    requires s != [] && AllDigits(s)
    ensures UnsignedDecimal(s) == Some(DigitsValue(s) as real)
  {
    DigitRunAll(s);
    assert s[..|s|] == s;
  }

  lemma StringToNumberOfDigits(s: string)
    requires s != [] && AllDigits(s)
    ensures StringToNumber(s) == Fin(DigitsValue(s) as real)
  {
    TrimDigits(s);
    assert s != "Infinity" by { assert IsDigit(s[0]); }
    UnsignedDecimalOfDigits(s);
    assert SignedNumber(s) == UnsignedNumber(s) by { assert IsDigit(s[0]); }
  }

  lemma TrimDigits(s: string)
    requires s != [] && AllDigits(s)
    ensures Trim(s) == s
  {
    assert IsDigit(s[0]) && IsDigit(s[|s| - 1]);
    assert !IsJsSpace(s[0]) && !IsJsSpace(s[|s| - 1]);
    TrimPadded([], s, []);
    assert [] + s + [] == s;
  }

  /** The decimal text of a natural number reads back as that number. */
  lemma StringToNumberOfNat(n: nat)
    ensures StringToNumber(NatToString(n)) == Fin(n as real)
  {
    NatToStringValue(n);
    StringToNumberOfDigits(NatToString(n));
  }

  /** `[n]` coerces to n through its text. */
  lemma SingletonArrayNumber(n: nat)
    ensures ToNumber(Arr([Num(n)])) == Fin(n as real)
  {
    assert JoinItems([Num(n)]) == ToJsString(Num(n)) == IntToString(n) == NatToString(n);
    StringToNumberOfNat(n);
  }

  /** `[]` coerces to 0 through the empty text. */
  lemma EmptyArrayNumber()
    ensures ToNumber(Arr([])) == Fin(0.0)
  {
    assert ToJsString(Arr([])) == "";
    assert Trim("") == "";
  }
}
