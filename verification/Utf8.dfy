/** UTF-8 as TextEncoder writes it and as TextDecoder reads it (sections 3 and 4 of RFC 3629). Dafny
    characters are Unicode scalar values, so a `string` is a well-formed JavaScript string. */
module Utf8 {
  import opened Wrappers

  const REPLACEMENT: char := '\U{FFFD}'
  const BOM: char := '\U{FEFF}'

  function EncodeChar(c: char): (bytes: seq<Byte>)
    ensures 1 <= |bytes| <= 4
  {
    var n := c as int;
    if n < 0x80 then [n]
    else if n < 0x800 then [0xC0 + n / 64, 0x80 + n % 64]
    else if n < 0x10000 then [0xE0 + n / 4096, 0x80 + n / 64 % 64, 0x80 + n % 64]
    else [0xF0 + n / 262144, 0x80 + n / 4096 % 64, 0x80 + n / 64 % 64, 0x80 + n % 64]
  }

  function Encode(s: string): seq<Byte> {
    if s == "" then [] else EncodeChar(s[0]) + Encode(s[1..])
  }

  predicate Continues(b: Byte) {
    0x80 <= b < 0xC0
  }

  function Payload(b: Byte): int {
    b as int - 0x80
  }

  /** The second bytes a lead byte admits: no overlong form, no surrogate, nothing above U+10FFFF. */
  predicate Admits(lead: Byte, second: Byte) {
    if lead == 0xE0 then 0xA0 <= second < 0xC0
    else if lead == 0xED then 0x80 <= second < 0xA0
    else if lead == 0xF0 then 0x90 <= second < 0xC0
    else if lead == 0xF4 then 0x80 <= second < 0x90
    else Continues(second)
  }

  /** The next character and how many bytes it takes. An ill-formed sequence gives one replacement
      character for its longest valid beginning. */
  function Next(bytes: seq<Byte>): (r: (char, nat))
    requires bytes != []
    ensures 1 <= r.1 <= |bytes|
  {
    var b: int := bytes[0];
    if b < 0x80 then (b as char, 1)
    else if 0xC2 <= b < 0xE0 then
      if |bytes| > 1 && Continues(bytes[1]) then (((b - 0xC0) * 64 + Payload(bytes[1])) as char, 2)
      else (REPLACEMENT, 1)
    else if 0xE0 <= b < 0xF0 then
      if |bytes| < 2 || !Admits(b, bytes[1]) then (REPLACEMENT, 1)
      else if |bytes| < 3 || !Continues(bytes[2]) then (REPLACEMENT, 2)
      else (((b - 0xE0) * 4096 + Payload(bytes[1]) * 64 + Payload(bytes[2])) as char, 3)
    else if 0xF0 <= b < 0xF5 then
      if |bytes| < 2 || !Admits(b, bytes[1]) then (REPLACEMENT, 1)
      else if |bytes| < 3 || !Continues(bytes[2]) then (REPLACEMENT, 2)
      else if |bytes| < 4 || !Continues(bytes[3]) then (REPLACEMENT, 3)
      else (((b - 0xF0) * 262144 + Payload(bytes[1]) * 4096 + Payload(bytes[2]) * 64 + Payload(bytes[3])) as char, 4)
    else (REPLACEMENT, 1)
  }

  function DecodeAll(bytes: seq<Byte>): string
    decreases |bytes|
  {
    if bytes == [] then "" else [Next(bytes).0] + DecodeAll(bytes[Next(bytes).1..])
  }

  predicate StartsWithBom(bytes: seq<Byte>) {
    |bytes| >= 3 && bytes[0] == 0xEF && bytes[1] == 0xBB && bytes[2] == 0xBF
  }

  /** `new TextDecoder().decode(bytes)`: not fatal, and a leading byte order mark is dropped. */
  function Decode(bytes: seq<Byte>): string {
    DecodeAll(if StartsWithBom(bytes) then bytes[3..] else bytes)
  }

  // ---------- decoding what was encoded ----------

  /** A character as base-64 digits, with the leading pairs that would be overlong, a surrogate or too big ruled out. */
  lemma ThreeDigits(n: int)
    requires 0x800 <= n < 0x10000 && !(0xD800 <= n < 0xE000)
    ensures var a, b, c := n / 4096, n / 64 % 64, n % 64;
            a * 4096 + b * 64 + c == n && a < 16 && (a == 0 ==> b >= 32) && (a == 13 ==> b < 32)
  {
    assert n / 64 / 64 == n / 4096;
  }

  lemma FourDigits(n: int)
    requires 0x10000 <= n < 0x110000
    ensures var a, b, c, d := n / 262144, n / 4096 % 64, n / 64 % 64, n % 64;
            a * 262144 + b * 4096 + c * 64 + d == n && a <= 4 && (a == 0 ==> b >= 16) && (a == 4 ==> b < 16)
  {
    assert n / 64 / 64 == n / 4096 && n / 4096 / 64 == n / 262144;
  }

  lemma NextEncoded(c: char, rest: seq<Byte>)
    ensures Next(EncodeChar(c) + rest) == (c, |EncodeChar(c)|)
  {
    var n := c as int;
    if n < 0x80 {
    } else if n < 0x800 {
      NextTwo(c, rest);
    } else if n < 0x10000 {
      NextThree(c, rest);
    } else {
      NextFour(c, rest);
    }
  }

  lemma NextTwo(c: char, rest: seq<Byte>)
    requires 0x80 <= c as int < 0x800
    ensures Next(EncodeChar(c) + rest) == (c, 2)
  {
  }

  lemma NextThree(c: char, rest: seq<Byte>)
    requires 0x800 <= c as int < 0x10000
    ensures Next(EncodeChar(c) + rest) == (c, 3)
  {
    ThreeDigits(c as int);
    var bytes := EncodeChar(c) + rest;
    assert bytes[0] == EncodeChar(c)[0] && bytes[1] == EncodeChar(c)[1] && bytes[2] == EncodeChar(c)[2];
  }

  lemma NextFour(c: char, rest: seq<Byte>)
    requires 0x10000 <= c as int
    ensures Next(EncodeChar(c) + rest) == (c, 4)
  {
    FourDigits(c as int);
    var bytes, e := EncodeChar(c) + rest, EncodeChar(c);
    assert bytes[0] == e[0] && bytes[1] == e[1] && bytes[2] == e[2] && bytes[3] == e[3];
  }

  // ---------- decoding what was not ----------

  /** Some character's encoding begins with these bytes. */
  ghost predicate Begins(prefix: seq<Byte>) {
    exists c: char :: prefix <= EncodeChar(c)
  }

  /** The lead byte of a character gives its length and what its second byte can be. */
  lemma BytesOfACharacter(c: char)
    ensures var e := EncodeChar(c);
            && (|e| == 1 ==> e[0] < 0x80)
            && (|e| == 2 ==> 0xC2 <= e[0] < 0xE0 && Continues(e[1]))
            && (|e| == 3 ==> 0xE0 <= e[0] < 0xF0 && Admits(e[0], e[1]) && Continues(e[2]))
            && (|e| == 4 ==> 0xF0 <= e[0] < 0xF5 && Admits(e[0], e[1]) && Continues(e[2]) && Continues(e[3]))
  {
    var n := c as int;
    if 0x800 <= n < 0x10000 {
      ThreeDigits(n);
    } else if n >= 0x10000 {
      FourDigits(n);
    }
  }

  function Three(a: int, b: int, c: int): int {
    (a - 0xE0) * 4096 + (b - 0x80) * 64 + (c - 0x80)
  }

  function Four(a: int, b: int, c: int, d: int): int {
    (a - 0xF0) * 262144 + (b - 0x80) * 4096 + (c - 0x80) * 64 + (d - 0x80)
  }

  lemma EncodesTwo(a: Byte, b: Byte)
    requires 0xC2 <= a < 0xE0 && Continues(b)
    ensures var n := (a - 0xC0) * 64 + (b - 0x80); 0x80 <= n < 0x800 && EncodeChar(n as char) == [a, b]
  {
  }

  lemma EncodesThree(a: Byte, b: Byte, c: Byte)
    requires 0xE0 <= a < 0xF0 && Admits(a, b) && Continues(c)
    ensures var n := Three(a, b, c);
            0x800 <= n < 0x10000 && !(0xD800 <= n < 0xE000) && EncodeChar(n as char) == [a, b, c]
  {
    var n := Three(a, b, c);
    assert n / 64 == (a - 0xE0) * 64 + (b - 0x80) && n % 64 == c - 0x80;
    assert n / 4096 == a - 0xE0;
  }

  lemma EncodesFour(a: Byte, b: Byte, c: Byte, d: Byte)
    requires 0xF0 <= a < 0xF5 && Admits(a, b) && Continues(c) && Continues(d)
    ensures var n := Four(a, b, c, d); 0x10000 <= n < 0x110000 && EncodeChar(n as char) == [a, b, c, d]
  {
    var n := Four(a, b, c, d);
    assert n / 64 == (a - 0xF0) * 4096 + (b - 0x80) * 64 + (c - 0x80) && n % 64 == d - 0x80;
    assert n / 4096 == (a - 0xF0) * 64 + (b - 0x80) && n / 262144 == a - 0xF0;
  }

  /** Either the next bytes are a character, or they are replaced. */
  lemma CharacterOrReplacement(bytes: seq<Byte>)
    requires bytes != [] && Next(bytes).0 != REPLACEMENT
    ensures EncodeChar(Next(bytes).0) <= bytes
  {
    var a := bytes[0];
    if a < 0x80 {
    } else if a < 0xE0 {
      EncodesTwo(a, bytes[1]);
    } else if a < 0xF0 {
      EncodesThree(a, bytes[1], bytes[2]);
    } else {
      EncodesFour(a, bytes[1], bytes[2], bytes[3]);
    }
  }

  /** Two bytes that begin a character of more. */
  lemma BeginsTwo(a: Byte, b: Byte)
    requires 0xE0 <= a < 0xF5 && Admits(a, b)
    ensures Begins([a, b])
  {
    if a < 0xF0 {
      EncodesThree(a, b, 0x80);
      assert [a, b] <= EncodeChar(Three(a, b, 0x80) as char);
    } else {
      EncodesFour(a, b, 0x80, 0x80);
      assert [a, b] <= EncodeChar(Four(a, b, 0x80, 0x80) as char);
    }
  }

  lemma BeginsThree(a: Byte, b: Byte, c: Byte)
    requires 0xF0 <= a < 0xF5 && Admits(a, b) && Continues(c)
    ensures Begins([a, b, c])
  {
    EncodesFour(a, b, c, 0x80);
    assert [a, b, c] <= EncodeChar(Four(a, b, c, 0x80) as char);
  }

  lemma BeginsNoFurther(bytes: seq<Byte>, n: nat, c: char)
    requires 0 < n < |bytes| && !(EncodeChar(c) <= bytes) && Next(bytes) == (REPLACEMENT, n)
    ensures !(bytes[..n + 1] <= EncodeChar(c))
  {
    BytesOfACharacter(c);
    assert forall k :: 0 <= k <= n ==> bytes[..n + 1][k] == bytes[k];
  }

  /** Bytes that begin with no character give one replacement character for the longest part that begins one, or for
      the first byte. */
  lemma ReplacesTheLongestBeginning(bytes: seq<Byte>)
    requires bytes != [] && forall c: char :: !(EncodeChar(c) <= bytes)
    ensures var (c, n) := Next(bytes);
            && c == REPLACEMENT
            && (n > 1 ==> Begins(bytes[..n]))
            && (n < |bytes| ==> !Begins(bytes[..n + 1]))
  {
    var (c, n) := Next(bytes);
    if c != REPLACEMENT { CharacterOrReplacement(bytes); }
    if n < |bytes| {
      forall c: char ensures !(bytes[..n + 1] <= EncodeChar(c)) { BeginsNoFurther(bytes, n, c); }
    }
    if n == 2 {
      ReplacementIsShort(bytes);
      BeginsTwo(bytes[0], bytes[1]);
      assert bytes[..2] == [bytes[0], bytes[1]];
    } else if n > 2 {
      ReplacementIsShort(bytes);
      BeginsThree(bytes[0], bytes[1], bytes[2]);
      assert bytes[..3] == [bytes[0], bytes[1], bytes[2]];
    }
  }

  /** U+FFFD itself is a character of three bytes. */
  lemma ReplacementIsShort(bytes: seq<Byte>)
    requires bytes != [] && Next(bytes).0 == REPLACEMENT && forall c: char :: !(EncodeChar(c) <= bytes)
    ensures Next(bytes).1 == 2 ==> 0xE0 <= bytes[0] < 0xF5 && Admits(bytes[0], bytes[1])
    ensures Next(bytes).1 >= 3 ==>
              Next(bytes).1 == 3 && 0xF0 <= bytes[0] < 0xF5 && Admits(bytes[0], bytes[1]) && Continues(bytes[2])
  {
    var a := bytes[0];
    if 0xE0 <= a < 0xF0 && |bytes| > 2 && Admits(a, bytes[1]) && Continues(bytes[2]) {
      EncodesThree(a, bytes[1], bytes[2]);
    } else if 0xF0 <= a < 0xF5 && |bytes| > 3 && Admits(a, bytes[1]) && Continues(bytes[2]) && Continues(bytes[3]) {
      EncodesFour(a, bytes[1], bytes[2], bytes[3]);
    }
  }

  /** The example of section 7 of RFC 3629, and a character of four bytes. */
  lemma Examples()
    ensures EncodeChar('A') + EncodeChar('\U{2262}') + EncodeChar('\U{391}') + EncodeChar('.')
         == [0x41, 0xE2, 0x89, 0xA2, 0xCE, 0x91, 0x2E]
    ensures EncodeChar('\U{233B4}') == [0xF0, 0xA3, 0x8E, 0xB4]
  {
  }

  // ---------- the round trip ----------

  lemma {:induction false} DecodeAllAfterEncoded(s: string, rest: seq<Byte>)
    ensures DecodeAll(Encode(s) + rest) == s + DecodeAll(rest)
  {
    if s == "" {
      assert Encode(s) + rest == rest;
    } else {
      var head, tail := EncodeChar(s[0]), Encode(s[1..]);
      assert Encode(s) + rest == head + (tail + rest);
      assert (head + (tail + rest))[|head|..] == tail + rest;
      NextEncoded(s[0], tail + rest);
      DecodeAllAfterEncoded(s[1..], rest);
    }
  }

  lemma DecodeAllEncoded(s: string)
    ensures DecodeAll(Encode(s)) == s
  {
    DecodeAllAfterEncoded(s, []);
    assert Encode(s) + [] == Encode(s) && s + DecodeAll([]) == s;
  }

  lemma EncodeInjective(s: string, t: string)
    requires Encode(s) == Encode(t)
    ensures s == t
  {
    DecodeAllEncoded(s);
    DecodeAllEncoded(t);
  }

  /** Encoded text starts with a byte order mark exactly when its first character is one. */
  lemma BomIsACharacter(s: string, rest: seq<Byte>)
    requires s != ""
    ensures StartsWithBom(Encode(s) + rest) <==> s[0] == BOM
  {
    var head, tail := EncodeChar(s[0]), Encode(s[1..]) + rest;
    assert Encode(s) + rest == head + tail;
    NextEncoded(s[0], tail);
    if StartsWithBom(head + tail) {
      NextOfBom(head + tail);
    }
    if s[0] == BOM {
      assert head == [0xEF, 0xBB, 0xBF];
    }
  }

  lemma NextOfBom(bytes: seq<Byte>)
    requires StartsWithBom(bytes)
    ensures Next(bytes) == (BOM, 3)
  {
  }

  function WithoutBom(s: string): string {
    if s != "" && s[0] == BOM then s[1..] else s
  }

  lemma DecodeAfterEncoded(s: string, rest: seq<Byte>)
    requires s != ""
    ensures Decode(Encode(s) + rest) == WithoutBom(s) + DecodeAll(rest)
  {
    BomIsACharacter(s, rest);
    DecodeAllAfterEncoded(s, rest);
    if s[0] == BOM {
      DropFirst(s, rest);
      DecodeAllAfterEncoded(s[1..], rest);
    }
  }

  lemma DropFirst(s: string, rest: seq<Byte>)
    requires s != ""
    ensures (Encode(s) + rest)[|EncodeChar(s[0])|..] == Encode(s[1..]) + rest
  {
    var head, tail := EncodeChar(s[0]), Encode(s[1..]);
    assert Encode(s) + rest == head + (tail + rest);
    DropPrefix(head, tail + rest);
  }

  lemma DropPrefix(a: seq<Byte>, b: seq<Byte>)
    ensures (a + b)[|a|..] == b
  {
  }

  /** Text survives encoding and decoding exactly when it does not start with a byte order mark. */
  lemma DecodeEncodedExactlyWhen(s: string)
    ensures Decode(Encode(s)) == s <==> s == "" || s[0] != BOM
  {
    if s != "" {
      DecodeAfterEncoded(s, []);
      assert Encode(s) + [] == Encode(s);
      assert WithoutBom(s) + DecodeAll([]) == WithoutBom(s);
    }
  }

  /** Decoding a stream piece by piece: cutting after a whole character is harmless exactly when the
      second piece does not start with what looks like a byte order mark, or the first is empty. */
  lemma PiecewiseDecodingExactlyWhen(s: string, rest: seq<Byte>)
    ensures Decode(Encode(s) + rest) == Decode(Encode(s)) + Decode(rest) <==> s == "" || !StartsWithBom(rest)
  {
    if s == "" {
      assert Encode(s) + rest == rest && Decode(Encode(s)) == "";
    } else {
      DecodeAfterEncoded(s, rest);
      DecodeAfterEncoded(s, []);
      assert Encode(s) + [] == Encode(s) && WithoutBom(s) + DecodeAll([]) == WithoutBom(s);
      if StartsWithBom(rest) {
        NextOfBom(rest);
        assert |DecodeAll(rest)| == 1 + |Decode(rest)|;
      }
    }
  }
}
