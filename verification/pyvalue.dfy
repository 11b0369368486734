/** The untyped Python values that flow through the JSON-shaped configuration
    (`dict`, `list`, `str`, numbers, `None`), the exceptions the configuration
    code can raise, and Python's `float()` on strings. */
module PyValue {
  import opened Wrappers
  import opened Text

  /** A Python value as it appears in a deserialised document. `VNaN` is a float
      NaN; `VMethod` is a bound method object stored where data was expected. */
  datatype Value =
    | VNone
    | VBool(b: bool)
    | VInt(i: int)
    | VFloat(f: real)
    | VNaN
    | VStr(s: string)
    | VList(items: seq<Value>)
    | VDict(entries: map<string, Value>)
    | VMethod(name: string)

  datatype PyError =
    | KeyError(key: string)
    | TypeError(what: string)
    | ValueError(message: string)
    | IndexError
    | AttributeError(name: string)
    | Unsupported(given: Value)  // a plain `Exception` rejecting the given value
    | AxisError
    | ZeroDivisionError  // a plain Python float divided by zero

  /** Python truthiness (`bool(v)`); a method object and NaN are true. */
  predicate Truthy(v: Value) {
    match v
    case VNone => false
    case VBool(b) => b
    case VInt(i) => i != 0
    case VFloat(f) => f != 0.0
    case VNaN => true
    case VStr(s) => |s| > 0
    case VList(items) => |items| > 0
    case VDict(entries) => |entries| > 0
    case VMethod(_) => true
  }

  /** The number a value compares as with `==` (`True == 1`, `2.0 == 2`);
      `None` for values that equal no number. */
  function AsNumber(v: Value): Option<real> {
    match v
    case VBool(b) => Some(if b then 1.0 else 0.0)
    case VInt(i) => Some(i as real)
    case VFloat(f) => Some(f)
    case _ => None
  }

  /** Python's `v == n` for an integer literal `n`. */
  predicate NumEq(v: Value, n: int) {
    AsNumber(v) == Some(n as real)
  }

  /** `v[key]` with a string key: only a dict can be subscripted by a string;
      a missing key is a `KeyError`, anything else a `TypeError`. */
  function Index(v: Value, key: string): (r: Result<Value, PyError>)
    ensures r.Success? <==> v.VDict? && key in v.entries
    ensures r.Success? ==> r.value == v.entries[key]
    ensures v.VDict? && key !in v.entries ==> r == Failure(KeyError(key))
    ensures !v.VDict? ==> r.Failure? && r.error.TypeError?
  {
    match v
    case VDict(entries) => if key in entries then Success(entries[key]) else Failure(KeyError(key))
    case _ => Failure(TypeError("object is not subscriptable by a string"))
  }

  function Pow10(k: nat): (p: nat)
    ensures p >= 1
  {
    if k == 0 then 1 else 10 * Pow10(k - 1)
  }

  /** The value of the decimal numeral `<whole>.<frac>`. */
  function DecimalValue(whole: string, frac: string): (x: real)
    requires AllDigits(whole) && AllDigits(frac)
    ensures x >= 0.0
  {
    DigitsValue(whole) as real + (DigitsValue(frac) as real) / (Pow10(|frac|) as real)
  }

  /** An unsigned decimal: digits, optionally a point and more digits, with at
      least one digit in total. */
  function ParseUnsigned(body: string): (r: Option<real>)
    ensures r.Some? ==> r.value >= 0.0
  {
    if '.' in body then
      var k := IndexOf(body, '.');
      var whole := body[..k];
      var frac := body[k + 1..];
      if AllDigits(whole) && AllDigits(frac) && |whole| + |frac| > 0 then
        Some(DecimalValue(whole, frac))
      else None
    else if AllDigits(body) && |body| > 0 then Some(DigitsValue(body) as real)
    else None
  }

  /** `float(s)` for the plain decimal notation: surrounding whitespace, an
      optional sign, digits with an optional fractional part. */
  function ParseFloat(s: string): Option<real> {
    var t := Trim(s);
    if |t| > 0 && (t[0] == '-' || t[0] == '+') then
      match ParseUnsigned(t[1..])
      case None => None
      case Some(x) => Some(if t[0] == '-' then -x else x)
    else ParseUnsigned(t)
  }

  /** The coercion `dictor` applies after every step: a string that `float()`
      accepts becomes that float; every other value is kept. */
  function Coerce(v: Value): (r: Value)
    ensures !v.VStr? ==> r == v
    ensures v.VStr? ==> (r.VFloat? <==> ParseFloat(v.s).Some?)
    ensures r.VFloat? && v.VStr? ==> r.f == ParseFloat(v.s).value
    ensures r.VStr? ==> r == v && ParseFloat(r.s).None?
  {
    if v.VStr? then
      match ParseFloat(v.s)
      case Some(x) => VFloat(x)
      case None => v
    else v
  }

  /** Coercion is idempotent: a coerced value is never coerced again. */
  lemma CoerceIdempotent(v: Value)
    ensures Coerce(Coerce(v)) == Coerce(v)
  {
  }

  lemma DigitsHaveNoPoint(d: string)
    requires AllDigits(d)
    ensures '.' !in d
  {
    assert forall i :: 0 <= i < |d| ==> d[i] != '.';
  }

  /** `float(str(n)) == n` for every natural number. */
  lemma ParseFloatNat(n: nat)
    ensures ParseFloat(NatDigits(n)) == Some(n as real)
  {
    var d := NatDigits(n);
    TrimOf([], d, []);
    assert [] + d + [] == d;
    DigitsHaveNoPoint(d);
    assert IsDigit(d[0]);
  }

  /** The point after a digit string is the first one. */
  lemma PointAfterDigits(whole: string, frac: string)
    requires AllDigits(whole)
    ensures var s := whole + "." + frac;
      '.' in s && IndexOf(s, '.') == |whole| && s[..|whole|] == whole && s[|whole| + 1..] == frac
  {
    var s := whole + "." + frac;
    assert forall i :: 0 <= i < |whole| ==> s[i] == whole[i];
    assert s[|whole|] == '.';
    var k := IndexOf(s, '.');
    assert forall i :: 0 <= i < |whole| ==> s[i] != '.';
    assert k == |whole|;
    assert s[..k] == whole;
    assert s[k + 1..] == frac;
  }

  /** `float("<whole>.<frac>")` is the decimal value of the two digit strings. */
  lemma ParseUnsignedDecimal(whole: string, frac: string)
    requires AllDigits(whole) && AllDigits(frac) && |whole| + |frac| > 0
    ensures ParseUnsigned(whole + "." + frac) == Some(DecimalValue(whole, frac))
  {
    var s := whole + "." + frac;
    PointAfterDigits(whole, frac);
    var k := IndexOf(s, '.');
    assert s[..k] == whole && s[k + 1..] == frac;
  }

  lemma NoDigitsUnsigned(body: string)
    requires NoDigits(body)
    ensures ParseUnsigned(body) == None
  {
    if '.' in body {
      var k := IndexOf(body, '.');
      assert |body[..k]| > 0 ==> body[..k][0] == body[0];
      assert |body[k + 1..]| > 0 ==> body[k + 1..][0] == body[k + 1];
    } else {
      assert |body| > 0 ==> !IsDigit(body[0]);
    }
  }

  /** A string without any digit is never accepted by `float()` in this model,
      so `dictor` keeps such strings (" Meter", "unknown") as strings. */
  lemma ParseFloatNoDigits(s: string)
    requires NoDigits(s)
    ensures ParseFloat(s) == None
  {
    var t := Trim(s);
    assert NoDigits(t);
    if |t| > 0 && (t[0] == '-' || t[0] == '+') {
      NoDigitsUnsigned(t[1..]);
    } else {
      NoDigitsUnsigned(t);
    }
  }
}
