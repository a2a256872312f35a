/** Field values of the loosely typed customer records, Python truthiness, and how a value is
    rendered when it is interpolated into an f-string. */
module Values {

  /** What a record key can hold: None, a Python int, a Python float (kept as an exact real
      together with the text Python prints for it), or a str. */
  datatype Value = Null | Int(i: int) | Num(x: real, text: string) | Str(s: string)

  /** Python truthiness of a value: None, 0, 0.0 and "" are falsy, everything else is truthy. */
  predicate Truthy(v: Value) {
    match v
    case Null => false
    case Int(i) => i != 0
    case Num(x, _) => x != 0.0
    case Str(s) => s != ""
  }

  /** Values that Python can compare with a float literal without raising TypeError. */
  predicate IsNumber(v: Value) {
    v.Int? || v.Num?
  }

  /** The numeric meaning of an int or float value. */
  function AsReal(v: Value): real
    requires IsNumber(v)
  {
    if v.Int? then v.i as real else v.x
  }

  function DigitChar(d: nat): (c: char)
    requires d < 10
    ensures '0' <= c <= '9'
  {
    (48 + d) as char
  }

  function DigitOf(c: char): nat
    requires '0' <= c <= '9'
  {
    c as int - 48
  }

  /** Decimal digits of a natural number, most significant first, as `str(n)` prints them. */
  function NatToString(n: nat): (r: string)
    ensures |r| >= 1
    ensures forall k :: 0 <= k < |r| ==> '0' <= r[k] <= '9'
    ensures r[0] == '0' <==> n == 0
  {
    if n < 10 then [DigitChar(n)] else NatToString(n / 10) + [DigitChar(n % 10)]
  }

  /** `str(i)` for a Python int: a minus sign for negatives, then the digits. */
  function IntToString(i: int): (r: string)
    ensures |r| >= 1
    ensures r[0] == '-' <==> i < 0
    ensures forall k :: (if r[0] == '-' then 1 else 0) <= k < |r| ==> '0' <= r[k] <= '9'
  {
    if i < 0 then "-" + NatToString(-i) else NatToString(i)
  }

  /** The number a string of decimal digits denotes. */
  function DecimalValue(s: string): nat
    requires forall k :: 0 <= k < |s| ==> '0' <= s[k] <= '9'
  {
    if s == [] then 0 else 10 * DecimalValue(s[..|s| - 1]) + DigitOf(s[|s| - 1])
  }

  /** Reads back what `IntToString` writes: an optional minus sign, then decimal digits. */
  function ParseInt(s: string): int
    requires |s| >= 1
    requires forall k :: (if s[0] == '-' then 1 else 0) <= k < |s| ==> '0' <= s[k] <= '9'
  {
    if s[0] == '-' then -(DecimalValue(s[1..]) as int) else DecimalValue(s)
  }

  lemma {:induction false} NatToStringRoundTrip(n: nat)
    ensures DecimalValue(NatToString(n)) == n
  {
    if n >= 10 {
      var r := NatToString(n);
      var front := NatToString(n / 10);
      assert r[..|r| - 1] == front;
      NatToStringRoundTrip(n / 10);
    }
  }

  /** Rendering an int and reading it back gives the same int: the rendering loses nothing. */
  lemma IntToStringRoundTrip(i: int)
    ensures ParseInt(IntToString(i)) == i
  {
    var r := IntToString(i);
    if i < 0 {
      assert r[1..] == NatToString(-i);
      NatToStringRoundTrip(-i);
    } else {
      NatToStringRoundTrip(i);
    }
  }

  /** What `f"{v}"` prints for a value. */
  function Render(v: Value): string {
    match v
    case Null => "None"
    case Int(i) => IntToString(i)
    case Num(_, text) => text
    case Str(s) => s
  }
}
