/** Candidate values a matcher assigns to an attribute, and how they are
    rendered in failure messages: strings in single quotes, integers in
    plain decimal. */
module Values {

  /** A value handed to `.when(...)`: Ruby's `nil`, a string or an integer. */
  datatype Value = Nil | Str(s: string) | Int(i: int)

  predicate IsDigit(c: char) {
    '0' <= c <= '9'
  }

  predicate AllDigits(s: string) {
    forall k :: 0 <= k < |s| ==> IsDigit(s[k])
  }

  function DigitChar(d: nat): (c: char)
    requires d < 10
    ensures IsDigit(c) && c as int - '0' as int == d
  {
    ('0' as int + d) as char
  }

  /** Canonical decimal form of a natural number, as Ruby's `Integer#to_s`
      writes it: at least one digit, and no leading zero unless the number
      is zero. */
  function NatToDecimal(n: nat): (r: string)
    ensures |r| > 0 && AllDigits(r)
    ensures (r[0] == '0') <==> (n == 0)
    ensures r[0] == '0' ==> r == "0"
    decreases n
  {
    if n < 10 then [DigitChar(n)] else NatToDecimal(n / 10) + [DigitChar(n % 10)]
  }

  /** Reads a string of digits back as a number (most significant first). */
  function DecimalValue(s: string): nat
    requires AllDigits(s)
  {
    if s == [] then 0
    else 10 * DecimalValue(s[..|s| - 1]) + (s[|s| - 1] as int - '0' as int)
  }

  /** `Integer#to_s`: a minus sign before the magnitude of a negative number. */
  function IntToDecimal(i: int): string {
    if i < 0 then "-" + NatToDecimal(-i) else NatToDecimal(i)
  }

  /** Reads back what IntToDecimal writes. */
  function ParseInt(s: string): int {
    if |s| > 0 && s[0] == '-' && AllDigits(s[1..]) then -(DecimalValue(s[1..]) as int)
    else if AllDigits(s) then DecimalValue(s)
    else 0
  }

  /** How the deciding value appears in a failure message: a string in single
      quotes (without escaping), anything else by its plain `to_s` form, which
      for `nil` is the empty string. */
  function Render(v: Value): (r: string)
    ensures v.Str? ==> r == "'" + v.s + "'"
    ensures v.Int? ==> |r| > 0 && ParseInt(r) == v.i
    ensures v.Int? && v.i >= 0 ==> AllDigits(r)
    ensures v.Int? && v.i >= 0 && r[0] == '0' ==> r == "0"
    ensures v.Int? && v.i < 0 ==> |r| > 1 && r[0] == '-' && r[1] != '0' && AllDigits(r[1..])
  {
    match v
    case Nil => ""
    case Str(s) => "'" + s + "'"
    case Int(i) => IntRoundTrip(i); IntToDecimal(i)
  }

  lemma {:induction false} DecimalRoundTrip(n: nat)
    ensures DecimalValue(NatToDecimal(n)) == n
    decreases n
  {
    if n >= 10 {
      var r := NatToDecimal(n);
      assert r[..|r| - 1] == NatToDecimal(n / 10);
      DecimalRoundTrip(n / 10);
    }
  }

  lemma IntRoundTrip(i: int)
    ensures ParseInt(IntToDecimal(i)) == i
  {
    if i < 0 {
      var d := NatToDecimal(-i);
      assert ("-" + d)[1..] == d;
      DecimalRoundTrip(-i);
    } else {
      DecimalRoundTrip(i);
    }
  }

  /** Only strings are rendered quoted: an integer never starts with a quote. */
  lemma RenderQuotesExactlyStrings(v: Value)
    ensures (|Render(v)| > 0 && Render(v)[0] == '\'') <==> v.Str?
  {
  }

  /** Different values never render alike, so a failure message names the
      deciding value unambiguously. */
  lemma RenderInjective(v: Value, w: Value)
    requires Render(v) == Render(w)
    ensures v == w
  {
    RenderQuotesExactlyStrings(v);
    RenderQuotesExactlyStrings(w);
    match v
    case Nil =>
      assert w.Nil?;
    case Str(s) =>
      var r := Render(v);
      assert s == r[1..|r| - 1];
      assert w.s == r[1..|r| - 1];
    case Int(i) =>
      IntRoundTrip(i);
      IntRoundTrip(w.i);
  }
}
