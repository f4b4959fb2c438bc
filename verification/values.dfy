/** Field values as the record builders box them, and their text form.

    The Swift code keeps field values as `Any?`: integers, booleans, strings and one
    floating-point number (a transmit rate). `String(describing:)` turns a present value
    into text; here that is `Describe`.
 */
module Values {

  datatype Option<+T> = None | Some(value: T)

  /** The description of a `Double`, which this model does not compute. What it relies on
      is what every such description is: a non-empty text that is not the placeholder
      "N/A" and holds no tab and no line break. */
  type DoubleText = s: string | |s| > 0 && s != "N/A" && '\t' !in s && '\n' !in s witness "0.0"

  /** A boxed field value. A floating-point number is kept opaque: it is carried by the text
      its description prints. */
  datatype Value =
    | VInt(i: int)
    | VBool(b: bool)
    | VStr(s: string)
    | VDouble(text: DoubleText)

  /** A field mapping: field name to a value that may be absent (`[String: Any?]`). */
  type Record = map<string, Option<Value>>

  /** Subscript of a field mapping flattened with `?? nil`: a missing key and a key present
      with an absent value both give `None`. */
  function Lookup(r: Record, key: string): Option<Value>
  {
    if key in r then r[key] else None
  }

  predicate IsDigit(c: char)
  {
    '0' <= c <= '9'
  }

  function DigitChar(d: nat): (c: char)
    requires d < 10
    ensures IsDigit(c)
  {
    (48 + d) as char
  }

  function DigitValue(c: char): nat
    requires IsDigit(c)
  {
    c as int - 48
  }

  /** Decimal numeral of a natural number, most significant digit first. */
  function NatToString(n: nat): string
  {
    if n < 10 then [DigitChar(n)] else NatToString(n / 10) + [DigitChar(n % 10)]
  }

  /** Value of a string of decimal digits (the reading direction of `NatToString`). */
  function ParseNat(s: string): nat
    requires forall k :: 0 <= k < |s| ==> IsDigit(s[k])
  {
    if |s| == 0 then 0 else ParseNat(s[..|s| - 1]) * 10 + DigitValue(s[|s| - 1])
  }

  lemma {:induction false} NatToStringDigits(n: nat)
    ensures |NatToString(n)| > 0
    ensures forall k :: 0 <= k < |NatToString(n)| ==> IsDigit(NatToString(n)[k])
  {
    if n >= 10 {
      NatToStringDigits(n / 10);
    }
  }

  /** The numeral printed for a natural number reads back as that number. */
  lemma {:induction false} NatToStringRoundTrip(n: nat)
    ensures forall k :: 0 <= k < |NatToString(n)| ==> IsDigit(NatToString(n)[k])
    ensures ParseNat(NatToString(n)) == n
  {
    NatToStringDigits(n);
    if n >= 10 {
      var s := NatToString(n);
      NatToStringRoundTrip(n / 10);
      assert s[..|s| - 1] == NatToString(n / 10);
    }
  }

  /** Integer description: a non-negative integer is its decimal numeral, a negative one a
      minus sign followed by the numeral of its magnitude; either way the digits read back
      as the integer. */
  function IntToString(i: int): (r: string)
    ensures |r| > 0
    ensures i >= 0 ==> (forall k :: 0 <= k < |r| ==> IsDigit(r[k])) && ParseNat(r) == i
    ensures i < 0 ==> |r| > 1 && r[0] == '-'
    ensures i < 0 ==> (forall k :: 1 <= k < |r| ==> IsDigit(r[k])) && ParseNat(r[1..]) == -i
  {
    if i < 0 then
      NatToStringDigits(-i);
      NatToStringRoundTrip(-i);
      assert ("-" + NatToString(-i))[1..] == NatToString(-i);
      "-" + NatToString(-i)
    else
      NatToStringDigits(i);
      NatToStringRoundTrip(i);
      NatToString(i)
  }

  /** `String(describing:)` of a present value. */
  function Describe(v: Value): string
  {
    match v
    case VInt(i) => IntToString(i)
    case VBool(b) => if b then "true" else "false"
    case VStr(s) => s
    case VDouble(text) => text
  }

  /** An integer or boolean never describes itself with the placeholder text: its first
      character is a digit, a minus sign, or the `t`/`f` of a boolean. */
  lemma DescribeFirstChar(v: Value)
    requires v.VInt? || v.VBool?
    ensures |Describe(v)| > 0
    ensures v.VInt? ==> IsDigit(Describe(v)[0]) || Describe(v)[0] == '-'
    ensures v.VBool? ==> Describe(v)[0] == 't' || Describe(v)[0] == 'f'
  {
  }
}
