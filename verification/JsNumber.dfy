/** `Number(text)`: how JavaScript reads a string as a number. `None` is NaN or an infinity, and no value is
    rounded to a double. */
module JsNumber {
  import opened Wrappers
  import Text

  predicate IsSpace(c: char) {
    var n := c as int;
    || 0x09 <= n <= 0x0D || n == 0x20 || n == 0xA0 || n == 0x1680 || 0x2000 <= n <= 0x200A
    || n == 0x2028 || n == 0x2029 || n == 0x202F || n == 0x205F || n == 0x3000 || n == 0xFEFF
  }

  function TrimStart(s: string): string {
    if s != "" && IsSpace(s[0]) then TrimStart(s[1..]) else s
  }

  function TrimEnd(s: string): string {
    if s != "" && IsSpace(s[|s| - 1]) then TrimEnd(s[..|s| - 1]) else s
  }

  function DigitValue(c: char): nat {
    if '0' <= c <= '9' then c as int - '0' as int
    else if 'a' <= c <= 'z' then c as int - 'a' as int + 10
    else if 'A' <= c <= 'Z' then c as int - 'A' as int + 10
    else 36
  }

  /** The digits after `0x`, `0o` or `0b`. */
  function Radix(digits: string, radix: nat): Option<nat>
    requires digits != ""
  {
    var last := DigitValue(digits[|digits| - 1]);
    if last >= radix then None
    else if |digits| == 1 then Some(last)
    else
      var rest := Radix(digits[..|digits| - 1], radix);
      if rest.None? then None else Some(rest.value * radix + last)
  }

  predicate AllDigits(s: string) {
    forall k :: 0 <= k < |s| ==> '0' <= s[k] <= '9'
  }

  /** The index of the first of the two characters, or the length. */
  function Find(s: string, c: char, d: char): (i: nat)
    ensures i <= |s|
    ensures i == |s| <==> forall k :: 0 <= k < |s| ==> s[k] != c && s[k] != d
  {
    if s == "" || s[0] == c || s[0] == d then 0 else 1 + Find(s[1..], c, d)
  }

  function Pow10(n: nat): (r: real)
    ensures r > 0.0
  {
    if n == 0 then 1.0 else 10.0 * Pow10(n - 1)
  }

  function Sum(whole: string, fraction: string): real
    requires AllDigits(whole) && AllDigits(fraction)
  {
    Text.Value(whole) as real + Text.Value(fraction) as real / Pow10(|fraction|)
  }

  function Mantissa(s: string): Option<real> {
    var dot := Find(s, '.', '.');
    var whole, fraction := s[..dot], if dot < |s| then s[dot + 1..] else "";
    if !AllDigits(whole) || !AllDigits(fraction) || whole + fraction == "" then None
    else Some(Sum(whole, fraction))
  }

  function Scaled(mantissa: real, exponent: string): Option<real> {
    var signed := exponent != "" && (exponent[0] == '+' || exponent[0] == '-');
    var digits := if signed then exponent[1..] else exponent;
    if digits == "" || !AllDigits(digits) then None
    else if signed && exponent[0] == '-' then Some(mantissa / Pow10(Text.Value(digits)))
    else Some(mantissa * Pow10(Text.Value(digits)))
  }

  function Unsigned(s: string): Option<real> {
    var e := Find(s, 'e', 'E');
    var mantissa := Mantissa(s[..e]);
    if mantissa.None? || e == |s| then mantissa else Scaled(mantissa.value, s[e + 1..])
  }

  function RadixOf(marker: char): nat {
    if marker == 'x' || marker == 'X' then 16
    else if marker == 'o' || marker == 'O' then 8
    else if marker == 'b' || marker == 'B' then 2
    else 0
  }

  function Literal(s: string): Option<real> {
    if s == "" then Some(0.0)
    else if |s| > 2 && s[0] == '0' && RadixOf(s[1]) > 0 then
      var value := Radix(s[2..], RadixOf(s[1]));
      if value.None? then None else Some(value.value as real)
    else if s[0] == '+' then Unsigned(s[1..])
    else if s[0] == '-' then
      var value := Unsigned(s[1..]);
      if value.None? then None else Some(-value.value)
    else Unsigned(s)
  }

  function Number(s: string): Option<real> {
    Literal(TrimEnd(TrimStart(s)))
  }

  lemma DigitsStay(s: string)
    requires s != "" && AllDigits(s)
    ensures TrimEnd(TrimStart(s)) == s
  {
    assert !IsSpace(s[0]) && !IsSpace(s[|s| - 1]);
  }

  lemma NotAmongDigits(s: string, c: char, d: char)
    requires AllDigits(s) && !('0' <= c <= '9') && !('0' <= d <= '9')
    ensures Find(s, c, d) == |s|
  {
  }

  lemma SumOfWhole(whole: string)
    requires AllDigits(whole)
    ensures Sum(whole, "") == Text.Value(whole) as real
  {
    assert Text.Value("") == 0 && Pow10(0) == 1.0;
  }

  lemma DigitsAreAMantissa(s: string)
    requires s != "" && AllDigits(s)
    ensures Mantissa(s) == Some(Text.Value(s) as real)
  {
    NotAmongDigits(s, '.', '.');
    SumOfWhole(s);
    Whole(s);
  }

  lemma Whole(s: string)
    ensures s[..|s|] == s && s + "" == s
  {
  }

  lemma DigitsAreALiteral(s: string)
    requires s != "" && AllDigits(s)
    ensures Literal(s) == Some(Text.Value(s) as real)
  {
    NotAmongDigits(s, 'e', 'E');
    Whole(s);
    DigitsAreAMantissa(s);
    if |s| > 2 {
      assert RadixOf(s[1]) == 0;
    }
  }

  const MAX_EXACT := 9007199254740992

  /** A number that a double holds, written in decimal, is read as itself. */
  lemma NumberOfDecimal(n: nat)
    requires n <= MAX_EXACT
    ensures Number(Text.Decimal(n)) == Some(n as real)
  {
    Text.DecimalReadsBack(n);
    DigitsStay(Text.Decimal(n));
    DigitsAreALiteral(Text.Decimal(n));
  }

  lemma TwoDigits(radix: nat)
    requires radix >= 2
    ensures Radix("10", radix) == Some(radix)
  {
    assert "10"[..1] == "1" && DigitValue('1') == 1 && DigitValue('0') == 0;
    assert Radix("1", radix) == Some(1);
  }

  lemma MarkedLiteral(s: string, radix: nat)
    requires |s| == 4 && s[0] == '0' && RadixOf(s[1]) == radix >= 2 && s[2..] == "10"
    ensures Number(s) == Some(radix as real)
  {
    TwoDigits(radix);
    assert !IsSpace(s[0]) && s[3] == s[2..][1] && !IsSpace(s[3]);
    assert TrimStart(s) == s && TrimEnd(s) == s;
  }

  /** The markers `0x`, `0o` and `0b` give the base. */
  lemma MarkersGiveTheBase()
    ensures Number("0x10") == Number("0X10") == Some(16.0)
    ensures Number("0o10") == Number("0O10") == Some(8.0)
    ensures Number("0b10") == Number("0B10") == Some(2.0)
  {
    MarkedLiteral("0x10", 16);
    MarkedLiteral("0X10", 16);
    MarkedLiteral("0o10", 8);
    MarkedLiteral("0O10", 8);
    MarkedLiteral("0b10", 2);
    MarkedLiteral("0B10", 2);
  }
}
