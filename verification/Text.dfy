/** String operations of the standard libraries that several components use. */
module Text {
  /** The characters with the Unicode White_Space property, which `str::trim` removes. */
  predicate IsWhitespace(c: char) {
    var n := c as int;
    || 0x09 <= n <= 0x0D || n == 0x20 || n == 0x85 || n == 0xA0 || n == 0x1680 || 0x2000 <= n <= 0x200A
    || n == 0x2028 || n == 0x2029 || n == 0x202F || n == 0x205F || n == 0x3000
  }

  function TrimStart(s: string): string {
    if s != "" && IsWhitespace(s[0]) then TrimStart(s[1..]) else s
  }

  function TrimEnd(s: string): string {
    if s != "" && IsWhitespace(s[|s| - 1]) then TrimEnd(s[..|s| - 1]) else s
  }

  function Trim(s: string): string {
    TrimEnd(TrimStart(s))
  }

  ghost predicate AllWhitespace(s: string) {
    forall k :: 0 <= k < |s| ==> IsWhitespace(s[k])
  }

  /** Nothing at either end could still be removed. */
  predicate IsTrimmed(s: string) {
    s != "" ==> !IsWhitespace(s[0]) && !IsWhitespace(s[|s| - 1])
  }

  /** The string is this with whitespace around it. */
  ghost predicate Surrounds(s: string, inner: string) {
    exists before, after :: AllWhitespace(before) && AllWhitespace(after) && s == before + (inner + after)
  }

  lemma {:induction false} TrimStartDrops(blank: string, rest: string)
    requires AllWhitespace(blank) && (rest != "" ==> !IsWhitespace(rest[0]))
    ensures TrimStart(blank + rest) == rest
  {
    if blank == "" {
      assert blank + rest == rest;
    } else {
      assert (blank + rest)[1..] == blank[1..] + rest;
      TrimStartDrops(blank[1..], rest);
    }
  }

  lemma {:induction false} TrimEndDrops(rest: string, blank: string)
    requires AllWhitespace(blank) && (rest != "" ==> !IsWhitespace(rest[|rest| - 1]))
    ensures TrimEnd(rest + blank) == rest
  {
    if blank == "" {
      assert rest + blank == rest;
    } else {
      var shorter := blank[..|blank| - 1];
      assert (rest + blank)[..|rest + blank| - 1] == rest + shorter;
      TrimEndDrops(rest, shorter);
    }
  }

  lemma {:induction false} TrimStartSplits(s: string) returns (blank: string)
    ensures AllWhitespace(blank) && s == blank + TrimStart(s)
    ensures TrimStart(s) != "" ==> !IsWhitespace(TrimStart(s)[0])
  {
    blank := "";
    if s != "" && IsWhitespace(s[0]) {
      var rest := TrimStartSplits(s[1..]);
      blank := [s[0]] + rest;
      assert s == [s[0]] + s[1..];
    }
  }

  lemma {:induction false} TrimEndSplits(s: string) returns (blank: string)
    ensures AllWhitespace(blank) && s == TrimEnd(s) + blank
    ensures TrimEnd(s) != "" ==> !IsWhitespace(TrimEnd(s)[|TrimEnd(s)| - 1]) && TrimEnd(s)[0] == s[0]
  {
    blank := "";
    if s != "" && IsWhitespace(s[|s| - 1]) {
      var rest := TrimEndSplits(s[..|s| - 1]);
      blank := rest + [s[|s| - 1]];
      assert s == s[..|s| - 1] + [s[|s| - 1]];
    }
  }

  /** Trimming gives the one part of the string that has no whitespace at its ends and only whitespace around it. */
  lemma TrimExactlyWhen(s: string, t: string)
    ensures Trim(s) == t <==> IsTrimmed(t) && Surrounds(s, t)
  {
    var before := TrimStartSplits(s);
    var after := TrimEndSplits(TrimStart(s));
    assert s == before + (Trim(s) + after);
    if before, after :| AllWhitespace(before) && AllWhitespace(after) && s == before + (t + after) && IsTrimmed(t) {
      if t == "" {
        assert before + (t + after) == (before + after) + "";
        TrimStartDrops(before + after, "");
      } else {
        TrimStartDrops(before, t + after);
        TrimEndDrops(t, after);
      }
    }
  }

  function Digit(n: nat): char
    requires n < 10
  {
    (n + 48) as char
  }

  /** A number in decimal, as `to_string` and the formatting macros write it. */
  function Decimal(n: nat): string {
    if n < 10 then [Digit(n)] else Decimal(n / 10) + [Digit(n % 10)]
  }

  lemma {:induction false} DecimalIsCanonical(n: nat)
    ensures |Decimal(n)| > 0 && (|Decimal(n)| > 1 ==> Decimal(n)[0] != '0')
    ensures n > 0 ==> Decimal(n)[0] != '0'
  {
    if n >= 10 { DecimalIsCanonical(n / 10); }
  }

  function Value(digits: string): nat
    requires forall k :: 0 <= k < |digits| ==> '0' <= digits[k] <= '9'
  {
    if digits == "" then 0 else Value(digits[..|digits| - 1]) * 10 + (digits[|digits| - 1] as int - 48)
  }

  lemma {:induction false} DecimalReadsBack(n: nat)
    ensures forall k :: 0 <= k < |Decimal(n)| ==> '0' <= Decimal(n)[k] <= '9'
    ensures Value(Decimal(n)) == n
  {
    if n >= 10 {
      DecimalReadsBack(n / 10);
      var digits := Decimal(n);
      assert digits[..|digits| - 1] == Decimal(n / 10);
    } else {
      assert Value([Digit(n)]) == Value("") * 10 + n by {
        assert [Digit(n)][..0] == "";
      }
    }
  }
}
