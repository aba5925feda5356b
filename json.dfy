/** JSON values as Python's json module decodes them, together with the two
    Python behaviours the request handlers depend on: truthiness (`if not x`,
    `all([...])`) and `str()` (f-string interpolation). */
module Json {

  /** dict, list, str, int, float, bool and None. An object is a Python dict
      from strings to values; a Dafny map keeps no key order. */
  datatype Value =
    | Null
    | Bool(b: bool)
    | Int(i: int)
    | Float(r: real)
    | Str(s: string)
    | Array(items: seq<Value>)
    | Object(fields: map<string, Value>)

  /** Python truthiness: None, False, 0, 0.0, "", [] and {} are false. */
  predicate Truthy(v: Value) {
    match v
    case Null => false
    case Bool(b) => b
    case Int(i) => i != 0
    case Float(r) => r != 0.0
    case Str(s) => s != ""
    case Array(items) => items != []
    case Object(fields) => fields != map[]
  }

  /** The values whose `str()` this model renders exactly. */
  predicate Printable(v: Value) {
    v.Null? || v.Bool? || v.Int? || v.Str?
  }

  /** Python's `str(v)`, which an f-string applies to each interpolated value. */
  function Text(v: Value): (s: string)
    requires Printable(v)
  {
    match v
    case Null => "None"
    case Bool(b) => if b then "True" else "False"
    case Int(i) => IntText(i)
    case Str(s) => s
  }

  predicate IsDigit(c: char) {
    '0' <= c <= '9'
  }

  predicate AllDigits(s: string) {
    forall k :: 0 <= k < |s| ==> IsDigit(s[k])
  }

  function Digit(d: nat): (c: char)
    requires d < 10
    ensures IsDigit(c)
  {
    ('0' as int + d) as char
  }

  function DigitValue(c: char): (d: nat)
    requires IsDigit(c)
    ensures d < 10 && Digit(d) == c
  {
    c as int - '0' as int
  }

  /** Decimal notation of a natural number, most significant digit first,
      without leading zeros. */
  function NatText(n: nat): (s: string)
    ensures |s| > 0 && AllDigits(s)
    ensures s[0] == '0' ==> n == 0
  {
    if n < 10 then [Digit(n)] else NatText(n / 10) + [Digit(n % 10)]
  }

  /** Python's `str(i)` for an int: an optional minus sign, then the digits. */
  function IntText(i: int): (s: string)
  {
    if i < 0 then "-" + NatText(-i) else NatText(i)
  }

  /** Reads a non-empty run of decimal digits back as a number. */
  function ParseNat(s: string): (n: nat)
    requires |s| > 0 && AllDigits(s)
  {
    if |s| == 1 then DigitValue(s[0])
    else 10 * ParseNat(s[..|s| - 1]) + DigitValue(s[|s| - 1])
  }

  /** Reading the decimal text of a number gives the number back. */
  lemma {:induction false} ParseNatText(n: nat)
    ensures ParseNat(NatText(n)) == n
  {
    if n >= 10 {
      var s := NatText(n);
      assert s[..|s| - 1] == NatText(n / 10);
      ParseNatText(n / 10);
    }
  }

  /** Distinct numbers have distinct decimal texts. */
  lemma NatTextInjective(m: nat, n: nat)
    requires NatText(m) == NatText(n)
    ensures m == n
  {
    ParseNatText(m);
    ParseNatText(n);
  }
}
