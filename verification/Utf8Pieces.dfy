/** Decoding text that arrives in pieces: where the cuts may fall. */
module Utf8Pieces {
  import opened Wrappers
  import opened Utf8

  function Flat(pieces: seq<seq<Byte>>): seq<Byte> {
    if pieces == [] then [] else pieces[0] + Flat(pieces[1..])
  }

  /** Each piece decoded on its own. */
  function DecodedPieces(pieces: seq<seq<Byte>>): string {
    if pieces == [] then "" else Decode(pieces[0]) + DecodedPieces(pieces[1..])
  }

  predicate StartsInside(piece: seq<Byte>) {
    piece != [] && Continues(piece[0])
  }

  /** No piece starts inside a character, and none starts with a byte order mark. */
  predicate CleanCuts(pieces: seq<seq<Byte>>) {
    forall k :: 0 <= k < |pieces| ==> !StartsInside(pieces[k]) && !StartsWithBom(pieces[k])
  }

  // ---------- a character is never longer than its continuation bytes ----------

  lemma NextTakesOneLead(bytes: seq<Byte>)
    requires bytes != []
    ensures forall k :: 1 <= k < Next(bytes).1 ==> Continues(bytes[k])
    ensures Continues(bytes[0]) ==> Next(bytes).1 == 1
  {
  }

  /** What follows a cut does not matter unless it continues a character. */
  lemma NextStops(a: seq<Byte>, b: seq<Byte>)
    requires a != [] && !StartsInside(b)
    ensures Next(a + b) == Next(a)
  {
    assert forall k :: 0 <= k < |a| ==> (a + b)[k] == a[k];
    if b != [] {
      assert (a + b)[|a|] == b[0];
    }
  }

  lemma {:induction false} DecodeAllSplits(a: seq<Byte>, b: seq<Byte>)
    requires !StartsInside(b)
    ensures DecodeAll(a + b) == DecodeAll(a) + DecodeAll(b)
    decreases |a|
  {
    if a == [] {
      assert a + b == b;
    } else {
      NextStops(a, b);
      var n := Next(a).1;
      assert (a + b)[n..] == a[n..] + b;
      DecodeAllSplits(a[n..], b);
    }
  }

  // ---------- counting characters ----------

  /** The bytes that do not continue a character. */
  function Leads(bytes: seq<Byte>): nat {
    if bytes == [] then 0 else (if Continues(bytes[0]) then 0 else 1) + Leads(bytes[1..])
  }

  lemma {:induction false} LeadsConcat(a: seq<Byte>, b: seq<Byte>)
    ensures Leads(a + b) == Leads(a) + Leads(b)
  {
    if a == [] {
      assert a + b == b;
    } else {
      assert (a + b)[1..] == a[1..] + b;
      LeadsConcat(a[1..], b);
    }
  }

  lemma {:induction false} NoLeads(bytes: seq<Byte>)
    requires forall k :: 0 <= k < |bytes| ==> Continues(bytes[k])
    ensures Leads(bytes) == 0
  {
    if bytes != [] {
      NoLeads(bytes[1..]);
    }
  }

  lemma LeadsOfNext(bytes: seq<Byte>)
    requires bytes != []
    ensures Leads(bytes) == (if StartsInside(bytes) then 0 else 1) + Leads(bytes[Next(bytes).1..])
  {
    var n := Next(bytes).1;
    NextTakesOneLead(bytes);
    NoLeads(bytes[1..n]);
    LeadsConcat(bytes[1..n], bytes[n..]);
    assert bytes[1..] == bytes[1..n] + bytes[n..];
  }

  /** Decoding gives a character for every lead byte, and one more for a first byte that continues nothing. */
  lemma {:induction false} AtLeastTheLeads(bytes: seq<Byte>)
    ensures |DecodeAll(bytes)| >= Leads(bytes) + if StartsInside(bytes) then 1 else 0
    decreases |bytes|
  {
    if bytes != [] {
      LeadsOfNext(bytes);
      AtLeastTheLeads(bytes[Next(bytes).1..]);
    }
  }

  lemma LeadsOfCharacter(c: char)
    ensures Leads(EncodeChar(c)) == 1
  {
    var bytes := EncodeChar(c);
    assert !Continues(bytes[0]);
    NoLeads(bytes[1..]);
  }

  lemma {:induction false} LeadsOfEncoded(s: string)
    ensures Leads(Encode(s)) == |s|
  {
    if s != "" {
      LeadsOfCharacter(s[0]);
      LeadsConcat(EncodeChar(s[0]), Encode(s[1..]));
      LeadsOfEncoded(s[1..]);
    }
  }

  // ---------- counting byte order marks ----------

  function Boms(s: string): nat {
    if s == "" then 0 else (if s[0] == BOM then 1 else 0) + Boms(s[1..])
  }

  /** The places where the three bytes of a mark stand. */
  function Marks(bytes: seq<Byte>): nat {
    if bytes == [] then 0 else (if StartsWithBom(bytes) then 1 else 0) + Marks(bytes[1..])
  }

  lemma {:induction false} BomsConcat(s: string, t: string)
    ensures Boms(s + t) == Boms(s) + Boms(t)
  {
    if s == "" {
      assert s + t == t;
    } else {
      assert (s + t)[1..] == s[1..] + t;
      BomsConcat(s[1..], t);
    }
  }

  lemma {:induction false} MarksConcat(a: seq<Byte>, b: seq<Byte>)
    ensures Marks(a + b) >= Marks(a) + Marks(b)
  {
    if a == [] {
      assert a + b == b;
    } else {
      assert (a + b)[1..] == a[1..] + b;
      assert StartsWithBom(a) ==> StartsWithBom(a + b);
      MarksConcat(a[1..], b);
    }
  }

  lemma {:induction false} NoMarksInside(bytes: seq<Byte>, n: nat)
    requires n <= |bytes| && forall k :: 0 <= k < n ==> Continues(bytes[k])
    ensures Marks(bytes) == Marks(bytes[n..])
    decreases n
  {
    if n == 0 {
      assert bytes[0..] == bytes;
    } else {
      NoMarksInside(bytes[1..], n - 1);
      assert bytes[1..][n - 1..] == bytes[n..];
    }
  }

  lemma NextIsBom(bytes: seq<Byte>)
    requires bytes != []
    ensures Next(bytes).0 == BOM <==> StartsWithBom(bytes)
  {
  }

  lemma {:induction false} BomsAreMarks(bytes: seq<Byte>)
    ensures Boms(DecodeAll(bytes)) == Marks(bytes)
    decreases |bytes|
  {
    if bytes != [] {
      var n := Next(bytes).1;
      NextIsBom(bytes);
      NextTakesOneLead(bytes);
      NoMarksInside(bytes[1..], n - 1);
      assert bytes[1..][n - 1..] == bytes[n..];
      BomsAreMarks(bytes[n..]);
    }
  }

  // ---------- pieces ----------

  /** How many pieces start with a mark, and how many inside a character. */
  function Dropped(pieces: seq<seq<Byte>>): nat {
    if pieces == [] then 0 else (if StartsWithBom(pieces[0]) then 1 else 0) + Dropped(pieces[1..])
  }

  function Torn(pieces: seq<seq<Byte>>): nat {
    if pieces == [] then 0 else (if StartsInside(pieces[0]) then 1 else 0) + Torn(pieces[1..])
  }

  lemma {:induction false} CleanExactlyWhen(pieces: seq<seq<Byte>>)
    ensures CleanCuts(pieces) <==> Dropped(pieces) == 0 && Torn(pieces) == 0
  {
    if pieces != [] {
      CleanExactlyWhen(pieces[1..]);
      assert CleanCuts(pieces) ==> CleanCuts(pieces[1..]);
      if CleanCuts(pieces[1..]) {
        assert forall k :: 1 <= k < |pieces| ==> pieces[k] == pieces[1..][k - 1];
      }
    }
  }

  /** A piece that starts with a mark loses exactly that mark. */
  lemma PieceLosesItsMark(piece: seq<Byte>)
    ensures Boms(Decode(piece)) + (if StartsWithBom(piece) then 1 else 0) == Marks(piece)
  {
    BomsAreMarks(piece);
    if StartsWithBom(piece) {
      NextOfBom(piece);
      assert DecodeAll(piece) == [BOM] + DecodeAll(piece[3..]);
      BomsConcat([BOM], DecodeAll(piece[3..]));
    }
  }

  lemma {:induction false} MarksAreLost(pieces: seq<seq<Byte>>)
    ensures Boms(DecodedPieces(pieces)) + Dropped(pieces) <= Marks(Flat(pieces))
  {
    if pieces != [] {
      PieceLosesItsMark(pieces[0]);
      MarksAreLost(pieces[1..]);
      BomsConcat(Decode(pieces[0]), DecodedPieces(pieces[1..]));
      MarksConcat(pieces[0], Flat(pieces[1..]));
    }
  }

  lemma {:induction false} TornCharactersMultiply(pieces: seq<seq<Byte>>)
    requires Dropped(pieces) == 0
    ensures |DecodedPieces(pieces)| >= Leads(Flat(pieces)) + Torn(pieces)
  {
    if pieces != [] {
      AtLeastTheLeads(pieces[0]);
      TornCharactersMultiply(pieces[1..]);
      LeadsConcat(pieces[0], Flat(pieces[1..]));
    }
  }

  lemma {:induction false} CleanFlat(pieces: seq<seq<Byte>>)
    requires CleanCuts(pieces)
    ensures !StartsInside(Flat(pieces))
  {
    if pieces != [] {
      CleanFlat(pieces[1..]);
    }
  }

  lemma {:induction false} CleanPiecesDecode(pieces: seq<seq<Byte>>)
    requires CleanCuts(pieces)
    ensures DecodedPieces(pieces) == DecodeAll(Flat(pieces))
  {
    if pieces != [] {
      assert CleanCuts(pieces[1..]);
      CleanPiecesDecode(pieces[1..]);
      CleanFlat(pieces[1..]);
      DecodeAllSplits(pieces[0], Flat(pieces[1..]));
    }
  }

  lemma {:induction false} CleanFlatHasNoMark(pieces: seq<seq<Byte>>)
    requires CleanCuts(pieces)
    ensures !StartsWithBom(Flat(pieces))
  {
    if pieces != [] {
      assert CleanCuts(pieces[1..]);
      if pieces[0] == [] {
        CleanFlatHasNoMark(pieces[1..]);
        assert Flat(pieces) == Flat(pieces[1..]);
      } else {
        CleanFlat(pieces[1..]);
        NextStops(pieces[0], Flat(pieces[1..]));
        NextIsBom(pieces[0]);
        NextIsBom(Flat(pieces));
      }
    }
  }

  /** Clean pieces of any byte stream decode to what the whole stream decodes to. */
  lemma CleanPiecesDecodeLikeTheWhole(pieces: seq<seq<Byte>>)
    requires CleanCuts(pieces)
    ensures DecodedPieces(pieces) == Decode(Flat(pieces))
  {
    CleanPiecesDecode(pieces);
    CleanFlatHasNoMark(pieces);
  }

  /** Text that is decoded piece by piece comes out whole exactly when no piece starts inside a character and
      none starts with a byte order mark. */
  lemma PiecesDecodeExactlyWhen(pieces: seq<seq<Byte>>, s: string)
    requires Flat(pieces) == Encode(s)
    ensures DecodedPieces(pieces) == s <==> CleanCuts(pieces)
  {
    DecodeAllEncoded(s);
    CleanExactlyWhen(pieces);
    if CleanCuts(pieces) {
      CleanPiecesDecode(pieces);
    } else if DecodedPieces(pieces) == s {
      MarksAreLost(pieces);
      BomsAreMarks(Encode(s));
      TornCharactersMultiply(pieces);
      LeadsOfEncoded(s);
      assert false;
    }
  }

  // ---------- one cut ----------

  /** The bytes at which a piece may start are exactly the ends of characters. */
  lemma {:induction false} BoundaryExactlyWhen(s: string, k: nat)
    requires k <= |Encode(s)|
    ensures !StartsInside(Encode(s)[k..]) <==> exists n :: 0 <= n <= |s| && |Encode(s[..n])| == k
    decreases |s|
  {
    if s == "" || k == 0 {
      if s != "" {
        assert !Continues(EncodeChar(s[0])[0]) && Encode(s)[0] == EncodeChar(s[0])[0];
      }
      assert |Encode(s[..0])| == 0;
    } else {
      var head, tail := EncodeChar(s[0]), Encode(s[1..]);
      var m := |head|;
      if k < m {
        assert Encode(s)[k] == head[k] && Continues(head[k]);
        forall n | 0 <= n <= |s| ensures |Encode(s[..n])| != k {
          if n > 0 {
            PrefixEncodes(s, n);
          }
        }
      } else {
        assert Encode(s)[k..] == tail[k - m..];
        BoundaryExactlyWhen(s[1..], k - m);
        if n :| 0 <= n <= |s[1..]| && |Encode(s[1..][..n])| == k - m {
          PrefixEncodes(s, n + 1);
          assert s[1..][..n] == s[1..n + 1];
        }
        if n :| 0 <= n <= |s| && |Encode(s[..n])| == k {
          PrefixEncodes(s, n);
          assert s[1..][..n - 1] == s[1..n];
        }
      }
    }
  }

  lemma PrefixEncodes(s: string, n: nat)
    requires 0 < n <= |s|
    ensures |Encode(s[..n])| == |EncodeChar(s[0])| + |Encode(s[1..n])|
  {
    assert s[..n][0] == s[0] && s[..n][1..] == s[1..n];
  }

  lemma OnePiece(b: seq<Byte>)
    ensures Flat([b]) == b && DecodedPieces([b]) == Decode(b)
  {
    assert b + [] == b && Decode(b) + "" == Decode(b);
  }

  lemma TwoPieces(a: seq<Byte>, b: seq<Byte>)
    ensures Flat([a, b]) == a + b && DecodedPieces([a, b]) == Decode(a) + Decode(b)
    ensures CleanCuts([a, b]) <==> !StartsInside(a) && !StartsWithBom(a) && !StartsInside(b) && !StartsWithBom(b)
  {
    OnePiece(b);
    assert [a, b][1..] == [b];
    assert [a, b][0] == a && [a, b][1] == b;
  }

  lemma TextStartsOutside(s: string, k: nat)
    requires k <= |Encode(s)|
    ensures !StartsInside(Encode(s)[..k])
  {
    if s != "" {
      assert Encode(s)[0] == EncodeChar(s[0])[0] && !Continues(EncodeChar(s[0])[0]);
    }
  }

  /** Cutting encoded text in two is harmless exactly when the cut is not inside a character and neither part
      starts with a byte order mark. */
  lemma CutIsHarmlessExactlyWhen(s: string, k: nat)
    requires k <= |Encode(s)|
    ensures var (a, b) := (Encode(s)[..k], Encode(s)[k..]);
            Decode(a) + Decode(b) == s <==> !StartsInside(b) && !StartsWithBom(a) && !StartsWithBom(b)
  {
    var a, b := Encode(s)[..k], Encode(s)[k..];
    TwoPieces(a, b);
    assert a + b == Encode(s);
    PiecesDecodeExactlyWhen([a, b], s);
    TextStartsOutside(s, k);
  }

  /** For instance, cutting the two bytes of one letter leaves two replacement characters. */
  lemma CutInsideACharacter()
    ensures Decode(Encode("é")[..1]) + Decode(Encode("é")[1..]) != "é"
  {
    assert Encode("é") == EncodeChar('é') + Encode("");
    assert Encode("é")[1..] == [0xA9];
    CutIsHarmlessExactlyWhen("é", 1);
  }
}
