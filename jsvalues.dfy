/**
 * The small part of JavaScript's value semantics that the application's
 * configuration handling depends on: truthiness, property access on plain
 * objects, conversion to string and the "does parseInt give an integer" test.
 *
 * Numbers are modelled as integers only (the configuration values involved
 * are feature counts and flags); arrays and functions are not modelled.
 */
module JsValues {

  datatype JsValue =
    | Undefined
    | Null
    | Bool(b: bool)
    | Num(n: int)
    | Str(s: string)
    | Obj(props: map<string, JsValue>)

  /** JavaScript's ToBoolean: what `if (v)` and `v ? a : b` test. */
  predicate Truthy(v: JsValue)
  {
    match v
    case Undefined => false
    case Null => false
    case Bool(b) => b
    case Num(n) => n != 0
    case Str(s) => s != ""
    case Obj(_) => true
  }

  /** `o[k]` on a plain object: a missing own property reads as undefined. */
  function Get(o: map<string, JsValue>, k: string): (r: JsValue)
    ensures k !in o ==> r == Undefined
    ensures k in o ==> r == o[k]
  {
    if k in o then o[k] else Undefined
  }

  /**
   * `v.k` for any value: on an object its own property, on anything else
   * undefined (true for the property names this application reads, none of
   * which is a member of the primitive wrappers' prototypes).
   */
  function PropOf(v: JsValue, k: string): (r: JsValue)
    ensures !v.Obj? ==> r == Undefined
  {
    if v.Obj? then Get(v.props, k) else Undefined
  }

  /** Decimal digits of a natural number, most significant first. */
  function NatToDecimal(n: nat): (r: string)
    ensures r != []
    ensures forall i :: 0 <= i < |r| ==> '0' <= r[i] <= '9'
    ensures n < 10 <==> |r| == 1
    decreases n
  {
    var d := ['0' + (n % 10) as char];
    if n < 10 then d else NatToDecimal(n / 10) + d
  }

  /** Value of a decimal digit string: the partner of NatToDecimal. */
  function DecimalValue(s: string): nat
    requires forall i :: 0 <= i < |s| ==> '0' <= s[i] <= '9'
  {
    if s == [] then 0 else 10 * DecimalValue(s[..|s| - 1]) + (s[|s| - 1] - '0') as nat
  }

  lemma {:induction false} DecimalRoundTrip(n: nat)
    ensures DecimalValue(NatToDecimal(n)) == n
    decreases n
  {
    var r := NatToDecimal(n);
    if n >= 10 {
      DecimalRoundTrip(n / 10);
      assert r[..|r| - 1] == NatToDecimal(n / 10);
    }
  }

  /** JavaScript's ToString, for the values of this model. */
  function ToJsString(v: JsValue): (r: string)
    ensures v.Str? ==> r == v.s
    ensures v.Num? && v.n >= 0 ==> r == NatToDecimal(v.n)
    ensures v.Num? && v.n < 0 ==> r == "-" + NatToDecimal(-v.n)
  {
    match v
    case Undefined => "undefined"
    case Null => "null"
    case Bool(b) => if b then "true" else "false"
    case Num(n) => if n < 0 then "-" + NatToDecimal(-n) else NatToDecimal(n)
    case Str(s) => s
    case Obj(_) => "[object Object]"
  }

  /** The characters parseInt skips before the number (WhiteSpace and LineTerminator). */
  predicate IsJsWhitespace(c: char)
  {
    || c == '\t' || c == '\n' || c == '\U{000B}' || c == '\U{000C}' || c == '\r'
    || c == ' ' || c == '\U{00A0}' || c == '\U{1680}'
    || ('\U{2000}' <= c <= '\U{200A}')
    || c == '\U{2028}' || c == '\U{2029}' || c == '\U{202F}' || c == '\U{205F}'
    || c == '\U{3000}' || c == '\U{FEFF}'
  }

  function TrimStart(s: string): (r: string)
    ensures |r| <= |s| && r == s[|s| - |r|..]
    ensures r == [] || !IsJsWhitespace(r[0])
    ensures forall i :: 0 <= i < |s| - |r| ==> IsJsWhitespace(s[i])
  {
    if s != [] && IsJsWhitespace(s[0]) then TrimStart(s[1..]) else s
  }

  predicate IsDecimalDigit(c: char) { '0' <= c <= '9' }

  predicate IsHexDigit(c: char)
  {
    IsDecimalDigit(c) || 'a' <= c <= 'f' || 'A' <= c <= 'F'
  }

  /**
   * Whether parseInt(s) (radix left out) reads at least one digit, i.e. does
   * not give NaN: after white space and an optional sign, a "0x"/"0X" prefix
   * switches to hexadecimal and needs a hex digit after it; otherwise a
   * decimal digit must come first.
   */
  predicate ParsesToInteger(s: string)
  {
    var t := TrimStart(s);
    var u := if t != [] && (t[0] == '+' || t[0] == '-') then t[1..] else t;
    if |u| >= 2 && u[0] == '0' && (u[1] == 'x' || u[1] == 'X') then
      |u| >= 3 && IsHexDigit(u[2])
    else
      u != [] && IsDecimalDigit(u[0])
  }

  /** `Number.isInteger(parseInt(v))`: parseInt first converts its argument to a string. */
  predicate ParseIntIsInteger(v: JsValue)
  {
    ParsesToInteger(ToJsString(v))
  }

  /** parseInt accepts every number (integers here) and none of the non-numeric literals. */
  lemma ParseIntIsIntegerCases(v: JsValue)
    ensures v.Num? ==> ParseIntIsInteger(v)
    ensures v.Undefined? || v.Null? || v.Bool? || v.Obj? || v == Str("") ==> !ParseIntIsInteger(v)
  {
    if v.Num? {
      NumParses(v.n);
    } else if !v.Str? {
      var r := ToJsString(v);
      assert r[0] == 'u' || r[0] == 'n' || r[0] == 't' || r[0] == 'f' || r[0] == '[';
      NoNumberAhead(r);
    } else if v.s == "" {
      NoNumberAhead("");
    }
  }

  /** A string that starts with neither white space, a sign nor a digit does not parse. */
  lemma NoNumberAhead(s: string)
    requires s == [] || (!IsJsWhitespace(s[0]) && s[0] != '+' && s[0] != '-' && !IsDecimalDigit(s[0]))
    ensures !ParsesToInteger(s)
  {
    assert TrimStart(s) == s;
  }

  lemma NumParses(n: int)
    ensures ParseIntIsInteger(Num(n))
  {
    var r := ToJsString(Num(n));
    var d := NatToDecimal(if n < 0 then -n else n);
    assert IsDecimalDigit(d[0]);
    assert r[0] == '-' || r[0] == d[0];
    assert !IsJsWhitespace(r[0]);
    assert TrimStart(r) == r;
    var u := if r[0] == '-' then r[1..] else r;
    assert u == d;
    assert |u| >= 2 ==> IsDecimalDigit(u[1]);
  }
}
