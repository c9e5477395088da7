/**
 * Loosely typed values as the cost engine receives them in dictionaries,
 * and the Python conversions applied to them: truthiness, `int(v)`, the
 * engine's `_to_decimal(v)` and `Decimal.quantize(Decimal("0.01"))`.
 */
module Values {
  import opened Wrappers
  import opened Text

  /**
   * A dictionary value: `None`, a bool, an int, a `Decimal` (or any number
   * whose text is a plain decimal numeral), a string, or anything else.
   */
  datatype RawValue = VNone | VBool(b: bool) | VInt(i: int) | VDec(d: real) | VStr(s: string) | VOther

  /** Python truthiness. */
  predicate Truthy(v: RawValue) {
    match v
    case VNone => false
    case VBool(b) => b
    case VInt(i) => i != 0
    case VDec(d) => d != 0.0
    case VStr(s) => s != []
    case VOther => true
  }

  /** `int(x)` truncates a real toward zero. */
  function TruncToward0(d: real): (n: int)
    ensures -1.0 < d - n as real < 1.0
    ensures d >= 0.0 ==> 0 <= n && n as real <= d
    ensures d < 0.0 ==> n <= 0 && n as real >= d
  {
    if d >= 0.0 then d.Floor else -((-d).Floor)
  }

  /** `int(v)`, or `None` where it raises. */
  function IntOf(v: RawValue): (r: Option<int>)
    ensures v.VInt? ==> r == Some(v.i)
    ensures v.VNone? || v.VOther? ==> r == None
  {
    match v
    case VNone => None
    case VBool(b) => Some(if b then 1 else 0)
    case VInt(i) => Some(i)
    case VDec(d) => Some(TruncToward0(d))
    case VStr(s) => ParseInt(s)
    case VOther => None
  }

  /**
   * `_to_decimal(v)`: `None` and anything `Decimal(str(v))` rejects give 0;
   * numbers and decimal numerals give their value.
   */
  function ToDecimal(v: RawValue): (r: real)
    ensures v.VInt? ==> r == v.i as real
    ensures v.VDec? ==> r == v.d
    ensures v.VStr? ==> r == ParseDecimal(v.s).GetOr(0.0)
    ensures v.VNone? || v.VBool? || v.VOther? ==> r == 0.0
  {
    match v
    case VNone => 0.0
    case VBool(_) => 0.0
    case VInt(i) => i as real
    case VDec(d) => d
    case VStr(s) => ParseDecimal(s).GetOr(0.0)
    case VOther => 0.0
  }

  /** Converting an already converted value changes nothing. */
  lemma ToDecimalIdempotent(v: RawValue)
    ensures ToDecimal(VDec(ToDecimal(v))) == ToDecimal(v)
  {
  }

  /** `d.get(key)`: the stored value, `None` when the key is missing. */
  function Get(m: map<string, RawValue>, key: string): RawValue {
    if key in m then m[key] else VNone
  }

  /** `d.get(key, default)`. */
  function GetOrDefault(m: map<string, RawValue>, key: string, default: RawValue): RawValue {
    if key in m then m[key] else default
  }

  /** `value or default` for a text field: a non-empty string is kept, anything else gives `default`. */
  function TextOr(v: RawValue, default: string): (r: string)
    ensures v.VStr? && v.s != [] ==> r == v.s
    ensures !(v.VStr? && v.s != []) ==> r == default
  {
    if v.VStr? && v.s != [] then v.s else default
  }

  /** `x.quantize(Decimal("0.01"))`: round to cents, ties to the even cent. */
  function Quantize2(x: real): (r: real)
    ensures (r * 100.0).Floor as real == r * 100.0
    ensures -0.005 <= r - x <= 0.005
  {
    var y := x * 100.0;
    var f := y.Floor;
    var frac := y - f as real;
    var n := if frac > 0.5 then f + 1 else if frac < 0.5 then f else if f % 2 == 0 then f else f + 1;
    n as real / 100.0
  }

  /** A value already in whole cents is left unchanged. */
  lemma QuantizeWholeCents(n: int)
    ensures Quantize2(n as real / 100.0) == n as real / 100.0
  {
    var y := (n as real / 100.0) * 100.0;
    assert y == n as real;
    assert y.Floor == n;
  }

  /** Quantizing twice is quantizing once. */
  lemma QuantizeIdempotent(x: real)
    ensures Quantize2(Quantize2(x)) == Quantize2(x)
  {
    var r := Quantize2(x);
    var n := (r * 100.0).Floor;
    assert r == n as real / 100.0;
    QuantizeWholeCents(n);
  }

  /** The sum of a sequence of amounts, left to right. */
  function RealSum(xs: seq<real>): real {
    if xs == [] then 0.0 else RealSum(xs[..|xs| - 1]) + xs[|xs| - 1]
  }

  lemma {:induction false} PositiveSum(xs: seq<real>)
    requires forall k :: 0 <= k < |xs| ==> xs[k] > 0.0
    ensures xs != [] ==> RealSum(xs) > 0.0
    ensures RealSum(xs) >= 0.0
  {
    if xs != [] {
      PositiveSum(xs[..|xs| - 1]);
    }
  }

  /** A positive total shared over a positive count. */
  function MeanOfPositive(total: real, count: real): (r: real)
    requires total > 0.0 && count > 0.0
    ensures r * count == total && r > 0.0
  {
    total / count
  }

  /** A total shared over a positive count. */
  function Mean(total: real, count: real): (r: real)
    requires count > 0.0
    ensures r * count == total
  {
    total / count
  }

  lemma {:induction false} NonNegativeSum(xs: seq<real>)
    requires forall k :: 0 <= k < |xs| ==> xs[k] >= 0.0
    ensures RealSum(xs) >= 0.0
  {
    if xs != [] {
      NonNegativeSum(xs[..|xs| - 1]);
    }
  }
}
