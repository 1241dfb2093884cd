/** `btoa` and `atob` (section 4 of RFC 4648), and the two encoders and the decoder of the front end. A
    binary string, whose characters are all below 256, is modelled as the sequence of its codes. */
module Base64 {
  import opened Wrappers
  import Utf8
  import Utf8Pieces

  type Sextet = x: int | 0 <= x < 64

  function SextetChar(n: Sextet): char {
    if n < 26 then (n + 65) as char
    else if n < 52 then (n + 71) as char
    else if n < 62 then (n - 4) as char
    else if n == 62 then '+'
    else '/'
  }

  function CharSextet(c: char): Option<Sextet> {
    if 'A' <= c <= 'Z' then Some(c as int - 65)
    else if 'a' <= c <= 'z' then Some(c as int - 71)
    else if '0' <= c <= '9' then Some(c as int + 4)
    else if c == '+' then Some(62)
    else if c == '/' then Some(63)
    else None
  }

  /** The four characters for three bytes. */
  function Quad(x: Byte, y: Byte, z: Byte): string {
    [SextetChar(x / 4), SextetChar(x % 4 * 16 + y / 16), SextetChar(y % 16 * 4 + z / 64), SextetChar(z % 64)]
  }

  function Btoa(bytes: seq<Byte>): string {
    if bytes == [] then ""
    else if |bytes| == 1 then Quad(bytes[0], 0, 0)[..2] + "=="
    else if |bytes| == 2 then Quad(bytes[0], bytes[1], 0)[..3] + "="
    else Quad(bytes[0], bytes[1], bytes[2]) + Btoa(bytes[3..])
  }

  /** The alphabet of table 1 in section 4 of RFC 4648, in its three rows. */
  const UPPER := "ABCDEFGHIJKLMNOPQRSTUVWXYZ"
  const LOWER := "abcdefghijklmnopqrstuvwxyz"
  const OTHERS := "0123456789+/"

  /** A sextet is written as the character at its place in the alphabet. */
  lemma SextetsAreWrittenInTheAlphabet(n: Sextet)
    ensures |UPPER| == |LOWER| == 26 && |OTHERS| == 12
    ensures SextetChar(n) == if n < 26 then UPPER[n] else if n < 52 then LOWER[n - 26] else OTHERS[n - 52]
  {
  }

  /** Three bytes and the four characters for them are the same 24 bits, the first ones first. */
  lemma QuadIsTheGroup(x: Byte, y: Byte, z: Byte)
    ensures exists a: Sextet, b: Sextet, c: Sextet, d: Sextet ::
              Quad(x, y, z) == [SextetChar(a), SextetChar(b), SextetChar(c), SextetChar(d)]
              && a * 262144 + b * 4096 + c * 64 + d == x * 65536 + y * 256 + z
  {
    var a: Sextet, b: Sextet, c: Sextet, d: Sextet := x / 4, x % 4 * 16 + y / 16, y % 16 * 4 + z / 64, z % 64;
    assert Quad(x, y, z) == [SextetChar(a), SextetChar(b), SextetChar(c), SextetChar(d)];
  }

  predicate IsSpace(c: char) {
    c in {'\t', '\n', '\U{C}', '\r', ' '}
  }

  function WithoutSpaces(s: string): string {
    if s == "" then "" else (if IsSpace(s[0]) then "" else [s[0]]) + WithoutSpaces(s[1..])
  }

  lemma {:induction false} SpacesVanish(a: string, c: char, b: string)
    requires c == '\t' || c == '\n' || c == '\U{C}' || c == '\r' || c == ' '
    ensures WithoutSpaces(a + [c] + b) == WithoutSpaces(a + b)
    decreases |a|
  {
    if a == "" {
      assert a + [c] + b == [c] + b && ([c] + b)[1..] == b && a + b == b;
    } else {
      assert (a + [c] + b)[1..] == a[1..] + [c] + b && (a + b)[1..] == a[1..] + b;
      SpacesVanish(a[1..], c, b);
    }
  }

  /** ASCII whitespace anywhere does not matter to `atob`. */
  lemma SpacesDoNotMatter(a: string, c: char, b: string)
    requires c == '\t' || c == '\n' || c == '\U{C}' || c == '\r' || c == ' '
    ensures Atob(a + [c] + b) == Atob(a + b)
  {
    SpacesVanish(a, c, b);
  }

  function WithoutPadding(s: string): string {
    if |s| % 4 != 0 || s == "" || s[|s| - 1] != '=' then s
    else if s[|s| - 2] == '=' then s[..|s| - 2]
    else s[..|s| - 1]
  }

  predicate InAlphabet(s: string) {
    forall k :: 0 <= k < |s| ==> CharSextet(s[k]).Some?
  }

  /** The bytes of a run of sextets; left-over bits are dropped. */
  function Unpack(s: string): seq<Byte>
    requires InAlphabet(s)
  {
    if |s| < 2 then []
    else
      var a, b := CharSextet(s[0]).value, CharSextet(s[1]).value;
      var first: Byte := a * 4 + b / 16;
      if |s| == 2 then [first]
      else
        var c := CharSextet(s[2]).value;
        var second: Byte := b % 16 * 16 + c / 4;
        if |s| == 3 then [first, second]
        else
          var third: Byte := c % 4 * 64 + CharSextet(s[3]).value;
          [first, second, third] + Unpack(s[4..])
  }

  /** `atob`, the forgiving decoder: `None` is the exception. */
  function Atob(s: string): Option<seq<Byte>> {
    FromSextets(WithoutPadding(WithoutSpaces(s)))
  }

  function FromSextets(data: string): Option<seq<Byte>> {
    if |data| % 4 == 1 || !InAlphabet(data) then None else Some(Unpack(data))
  }

  // ---------- atob undoes btoa ----------

  /** The encoding without its padding. */
  function Body(bytes: seq<Byte>): string {
    if bytes == [] then ""
    else if |bytes| == 1 then Quad(bytes[0], 0, 0)[..2]
    else if |bytes| == 2 then Quad(bytes[0], bytes[1], 0)[..3]
    else Quad(bytes[0], bytes[1], bytes[2]) + Body(bytes[3..])
  }

  function Padding(bytes: seq<Byte>): string {
    if bytes == [] then "" else if |bytes| == 1 then "==" else if |bytes| == 2 then "=" else Padding(bytes[3..])
  }

  function Groups(bytes: seq<Byte>): nat {
    if bytes == [] then 0 else if |bytes| < 3 then 1 else 1 + Groups(bytes[3..])
  }

  predicate IsPadding(padding: string) {
    |padding| <= 2 && forall k :: 0 <= k < |padding| ==> padding[k] == '='
  }

  lemma {:induction false} BtoaIsPadded(bytes: seq<Byte>)
    ensures Btoa(bytes) == Body(bytes) + Padding(bytes) && IsPadding(Padding(bytes))
    ensures |Body(bytes)| + |Padding(bytes)| == 4 * Groups(bytes)
  {
    if |bytes| >= 3 {
      BtoaIsPadded(bytes[3..]);
      var quad := Quad(bytes[0], bytes[1], bytes[2]);
      assert quad + (Body(bytes[3..]) + Padding(bytes)) == (quad + Body(bytes[3..])) + Padding(bytes);
    }
  }

  lemma SextetRoundTrip(n: Sextet)
    ensures CharSextet(SextetChar(n)) == Some(n)
  {
  }

  /** Three bytes, cut into four sextets and put together again. */
  lemma Regroup(x: Byte, y: Byte, z: Byte)
    ensures var b, c := x % 4 * 16 + y / 16, y % 16 * 4 + z / 64;
            x / 4 * 4 + b / 16 == x && b % 16 * 16 + c / 4 == y && c % 4 * 64 + z % 64 == z
  {
  }

  lemma QuadOfOne(x: Byte)
    ensures InAlphabet(Quad(x, 0, 0)[..2]) && Unpack(Quad(x, 0, 0)[..2]) == [x]
  {
    SextetRoundTrip(x / 4);
    SextetRoundTrip(x % 4 * 16);
    Regroup(x, 0, 0);
  }

  lemma QuadOfTwo(x: Byte, y: Byte)
    ensures InAlphabet(Quad(x, y, 0)[..3]) && Unpack(Quad(x, y, 0)[..3]) == [x, y]
  {
    SextetRoundTrip(x / 4);
    SextetRoundTrip(x % 4 * 16 + y / 16);
    SextetRoundTrip(y % 16 * 4);
    Regroup(x, y, 0);
  }

  lemma QuadOfThree(x: Byte, y: Byte, z: Byte, rest: string)
    requires InAlphabet(rest)
    ensures InAlphabet(Quad(x, y, z) + rest) && Unpack(Quad(x, y, z) + rest) == [x, y, z] + Unpack(rest)
  {
    SextetRoundTrip(x / 4);
    SextetRoundTrip(x % 4 * 16 + y / 16);
    SextetRoundTrip(y % 16 * 4 + z / 64);
    SextetRoundTrip(z % 64);
    Regroup(x, y, z);
    assert (Quad(x, y, z) + rest)[4..] == rest;
  }

  lemma {:induction false} BodyUnpacks(bytes: seq<Byte>)
    ensures InAlphabet(Body(bytes)) && Unpack(Body(bytes)) == bytes
  {
    if bytes == [] {
    } else if |bytes| == 1 {
      QuadOfOne(bytes[0]);
    } else if |bytes| == 2 {
      QuadOfTwo(bytes[0], bytes[1]);
    } else {
      BodyUnpacks(bytes[3..]);
      QuadOfThree(bytes[0], bytes[1], bytes[2], Body(bytes[3..]));
      assert bytes == [bytes[0], bytes[1], bytes[2]] + bytes[3..];
    }
  }

  lemma {:induction false} NoSpaces(s: string)
    requires forall k :: 0 <= k < |s| ==> !IsSpace(s[k])
    ensures WithoutSpaces(s) == s
  {
    if s != "" {
      NoSpaces(s[1..]);
    }
  }

  lemma AlphabetHasNoSpaces(body: string, padding: string)
    requires InAlphabet(body) && IsPadding(padding)
    ensures WithoutSpaces(body + padding) == body + padding
  {
    forall k | 0 <= k < |body + padding| ensures !IsSpace((body + padding)[k]) {
      if k < |body| {
        assert CharSextet(body[k]).Some?;
      }
    }
    NoSpaces(body + padding);
  }

  lemma PaddingIsRemoved(body: string, padding: string, groups: nat)
    requires InAlphabet(body) && IsPadding(padding) && |body| + |padding| == 4 * groups
    ensures WithoutPadding(body + padding) == body
  {
    var s := body + padding;
    assert |s| % 4 == 0;
    if body != "" {
      assert CharSextet(body[|body| - 1]).Some?;
    }
    if |padding| == 1 {
      assert s[|s| - 1] == '=' && s[|s| - 2] == body[|body| - 1];
    } else if |padding| == 2 {
      assert s[|s| - 1] == '=' && s[|s| - 2] == '=';
    }
  }

  lemma AtobOfPadded(body: string, padding: string, groups: nat)
    requires InAlphabet(body) && IsPadding(padding) && |body| + |padding| == 4 * groups
    ensures Atob(body + padding) == FromSextets(body) && |body| % 4 != 1
  {
    AlphabetHasNoSpaces(body, padding);
    PaddingIsRemoved(body, padding, groups);
    NeverOneLeft(|body|, |padding|, groups);
  }

  lemma NeverOneLeft(n: nat, p: nat, groups: nat)
    requires p <= 2 && n + p == 4 * groups
    ensures n % 4 != 1
  {
  }

  lemma UnpackedFromPadded(encoded: string, body: string, padding: string, groups: nat, bytes: seq<Byte>)
    requires encoded == body + padding && IsPadding(padding) && |body| + |padding| == 4 * groups
    requires InAlphabet(body) && Unpack(body) == bytes
    ensures Atob(encoded) == Some(bytes)
  {
    AtobOfPadded(body, padding, groups);
    assert FromSextets(body) == Some(bytes);
  }

  lemma AtobUndoesBtoa(bytes: seq<Byte>)
    ensures Atob(Btoa(bytes)) == Some(bytes)
  {
    BtoaIsPadded(bytes);
    BodyUnpacks(bytes);
    UnpackedFromPadded(Btoa(bytes), Body(bytes), Padding(bytes), Groups(bytes), bytes);
  }

  // ---------- the chunk loop ----------

  /** One character too many is refused, whatever it is. */
  lemma OneCharacterTooMany(bytes: seq<Byte>, c: char)
    requires !IsSpace(c)
    ensures Atob(Btoa(bytes) + [c]).None?
  {
    BtoaIsPadded(bytes);
    BodyUnpacks(bytes);
    PaddedHasNoSpaces(Btoa(bytes), Body(bytes), Padding(bytes), c);
    OneLeftIsRefused(Btoa(bytes) + [c], Groups(bytes));
  }

  lemma PaddedHasNoSpaces(encoded: string, body: string, padding: string, c: char)
    requires encoded == body + padding && InAlphabet(body) && IsPadding(padding) && !IsSpace(c)
    ensures WithoutSpaces(encoded + [c]) == encoded + [c]
  {
    var text := encoded + [c];
    forall k | 0 <= k < |text| ensures !IsSpace(text[k]) {
      if k < |body| { assert CharSextet(body[k]).Some?; }
    }
    NoSpaces(text);
  }

  lemma OneLeftIsRefused(text: string, groups: nat)
    requires |text| == 4 * groups + 1
    ensures FromSextets(WithoutPadding(text)).None?
  {
    assert |text| % 4 == 1;
  }

  function Minimum(a: nat, b: nat): nat {
    if a < b then a else b
  }

  /** Copying a byte array chunk by chunk copies all of it, whatever the chunk size. */
  method CopyInChunks(bytes: seq<Byte>, chunkSize: nat) returns (binary: seq<Byte>)
    requires chunkSize > 0
    ensures binary == bytes
  {
    binary := [];
    var offset := 0;
    while offset < |bytes|
      invariant binary == bytes[..Minimum(offset, |bytes|)]
    {
      binary := binary + bytes[offset..Minimum(offset + chunkSize, |bytes|)];
      offset := offset + chunkSize;
    }
  }

  const CHUNK_SIZE := 0x8000

  method EncodeUtf8Base64(value: string) returns (encoded: string)
    ensures encoded == Btoa(Utf8.Encode(value))
  {
    var bytes := Utf8.Encode(value);
    var binary := CopyInChunks(bytes, CHUNK_SIZE);
    encoded := Btoa(binary);
  }

  /** The same for the bytes of a file: the server's decoder gets every byte back. */
  method FileToBase64(bytes: seq<Byte>) returns (encoded: string)
    ensures Atob(encoded) == Some(bytes)
  {
    var binary := CopyInChunks(bytes, CHUNK_SIZE);
    encoded := Btoa(binary);
    AtobUndoesBtoa(bytes);
  }

  function DecodeBase64Utf8(value: string): Option<string> {
    var binary := Atob(value);
    if binary.None? then None else Some(Utf8.Decode(binary.value))
  }

  // ---------- the codec ----------

  /** Text survives the round trip exactly when it does not start with U+FEFF. */
  lemma RoundTripExactlyWhen(s: string)
    ensures DecodeBase64Utf8(Btoa(Utf8.Encode(s))) == Some(s) <==> s == "" || s[0] != Utf8.BOM
  {
    AtobUndoesBtoa(Utf8.Encode(s));
    Utf8.DecodeEncodedExactlyWhen(s);
  }

  function DecodedOneByOne(deltas: seq<string>): Option<string> {
    if deltas == [] then Some("")
    else
      var head, tail := DecodeBase64Utf8(deltas[0]), DecodedOneByOne(deltas[1..]);
      if head.None? || tail.None? then None else Some(head.value + tail.value)
  }

  /** The deltas that carry these pieces of a byte stream. */
  function Encoded(pieces: seq<seq<Byte>>): seq<string> {
    if pieces == [] then [] else [Btoa(pieces[0])] + Encoded(pieces[1..])
  }

  lemma {:induction false} DeltasDecodeToPieces(pieces: seq<seq<Byte>>)
    ensures DecodedOneByOne(Encoded(pieces)) == Some(Utf8Pieces.DecodedPieces(pieces))
  {
    if pieces != [] {
      AtobUndoesBtoa(pieces[0]);
      DeltasDecodeToPieces(pieces[1..]);
      assert Encoded(pieces)[1..] == Encoded(pieces[1..]);
    }
  }

  /** Text that is cut into deltas anywhere decodes, delta by delta, to itself exactly when no delta starts
      inside a character and none starts with a byte order mark. */
  lemma DeltasDecodeExactlyWhen(pieces: seq<seq<Byte>>, text: string)
    requires Utf8Pieces.Flat(pieces) == Utf8.Encode(text)
    ensures DecodedOneByOne(Encoded(pieces)) == Some(text) <==> Utf8Pieces.CleanCuts(pieces)
  {
    DeltasDecodeToPieces(pieces);
    Utf8Pieces.PiecesDecodeExactlyWhen(pieces, text);
  }

  /** Clean deltas of any byte stream decode, delta by delta, to what one delta with all of it decodes to. */
  lemma DeltasDecodeLikeTheirConcatenation(pieces: seq<seq<Byte>>)
    requires Utf8Pieces.CleanCuts(pieces)
    ensures DecodedOneByOne(Encoded(pieces)) == DecodeBase64Utf8(Btoa(Utf8Pieces.Flat(pieces)))
  {
    DeltasDecodeToPieces(pieces);
    Utf8Pieces.CleanPiecesDecodeLikeTheWhole(pieces);
    AtobUndoesBtoa(Utf8Pieces.Flat(pieces));
  }
}
