/** The gateway token on both sides: how the front end puts it in a WebSocket subprotocol, and how the gateway
    finds it in the request headers. */
module TokenAuth {
  import opened Wrappers
  import Text
  import Utf8

  const TOKEN_PROTOCOL_PREFIX := "pocket-agent-token."

  // ---------- hexadecimal ----------

  type Nibble = x: int | 0 <= x < 16

  function HexDigit(n: Nibble): char {
    if n < 10 then (n + 48) as char else (n + 87) as char
  }

  /** `n.toString(16)` */
  function ToString16(n: nat): string {
    if n < 16 then [HexDigit(n)] else ToString16(n / 16) + [HexDigit(n % 16)]
  }

  function PadStart(s: string, length: nat, fill: char): string
    decreases length - |s|
  {
    if |s| >= length then s else PadStart([fill] + s, length, fill)
  }

  /** The front end's encoder. */
  function EncodeHex(bytes: seq<Byte>): string {
    if bytes == [] then "" else PadStart(ToString16(bytes[0]), 2, '0') + EncodeHex(bytes[1..])
  }

  function GatewayTokenProtocol(token: string): string {
    TOKEN_PROTOCOL_PREFIX + EncodeHex(Utf8.Encode(token))
  }

  lemma TwoDigits(b: Byte)
    ensures PadStart(ToString16(b), 2, '0') == [HexDigit(b / 16), HexDigit(b % 16)]
  {
    if b < 16 {
      assert ToString16(b) == [HexDigit(b)];
      assert PadStart([HexDigit(b)], 2, '0') == PadStart(['0', HexDigit(b)], 2, '0') == ['0', HexDigit(b)];
    }
  }

  lemma {:induction false} EncodeHexConcat(a: seq<Byte>, b: seq<Byte>)
    ensures EncodeHex(a + b) == EncodeHex(a) + EncodeHex(b)
  {
    if a == [] {
      assert a + b == b;
    } else {
      assert (a + b)[1..] == a[1..] + b;
      EncodeHexConcat(a[1..], b);
    }
  }

  const HEX := "0123456789abcdef"

  lemma HexTable(n: Nibble)
    ensures HEX[n] == HexDigit(n)
  {
  }

  /** The gateway's encoder agrees with the front end's on every byte string. */
  method Hex(bytes: seq<Byte>) returns (encoded: string)
    ensures encoded == EncodeHex(bytes)
  {
    encoded := "";
    var i := 0;
    while i < |bytes|
      invariant 0 <= i <= |bytes|
      invariant encoded == EncodeHex(bytes[..i])
    {
      assert bytes[..i + 1] == bytes[..i] + [bytes[i]];
      EncodeHexConcat(bytes[..i], [bytes[i]]);
      TwoDigits(bytes[i]);
      HexTable(bytes[i] / 16);
      HexTable(bytes[i] % 16);
      encoded := encoded + [HEX[bytes[i] / 16]];
      encoded := encoded + [HEX[bytes[i] % 16]];
      i := i + 1;
    }
    assert bytes[..|bytes|] == bytes;
  }

  function FromDigit(c: char): Option<Nibble> {
    if '0' <= c <= '9' then Some(c as int - 48)
    else if 'a' <= c <= 'f' then Some(c as int - 87)
    else None
  }

  /** A decoder for lower-case hexadecimal. */
  function DecodeHex(s: string): Option<seq<Byte>> {
    if s == "" then Some([])
    else if |s| == 1 || FromDigit(s[0]).None? || FromDigit(s[1]).None? then None
    else
      var rest := DecodeHex(s[2..]);
      if rest.None? then None else Some([FromDigit(s[0]).value * 16 + FromDigit(s[1]).value] + rest.value)
  }

  lemma FromDigitInverts(n: Nibble, c: char)
    ensures FromDigit(HexDigit(n)) == Some(n)
    ensures FromDigit(c).Some? ==> HexDigit(FromDigit(c).value) == c
  {
  }

  lemma {:induction false} DecodeUndoesEncode(bytes: seq<Byte>)
    ensures DecodeHex(EncodeHex(bytes)) == Some(bytes)
  {
    if bytes != [] {
      var b, rest := bytes[0], EncodeHex(bytes[1..]);
      TwoDigits(b);
      FromDigitInverts(b / 16, 'a');
      FromDigitInverts(b % 16, 'a');
      DecodeUndoesEncode(bytes[1..]);
      assert EncodeHex(bytes)[2..] == rest;
      assert b / 16 * 16 + b % 16 == b;
      assert [b] + bytes[1..] == bytes;
    }
  }

  lemma {:induction false} EncodeUndoesDecode(s: string)
    requires DecodeHex(s).Some?
    ensures EncodeHex(DecodeHex(s).value) == s
    decreases |s|
  {
    if s != "" {
      var high: int, low: int := FromDigit(s[0]).value, FromDigit(s[1]).value;
      FromDigitInverts(high, s[0]);
      FromDigitInverts(low, s[1]);
      TwoDigits(high * 16 + low);
      assert (high * 16 + low) / 16 == high && (high * 16 + low) % 16 == low;
      EncodeUndoesDecode(s[2..]);
    }
  }

  /** The encoding of a byte string is the only string that decodes to it. */
  lemma HexIsABijection(s: string, bytes: seq<Byte>)
    ensures DecodeHex(s) == Some(bytes) <==> s == EncodeHex(bytes)
  {
    DecodeUndoesEncode(bytes);
    if DecodeHex(s) == Some(bytes) {
      EncodeUndoesDecode(s);
    }
  }

  lemma ProtocolIsInjective(token: string, other: string)
    ensures GatewayTokenProtocol(token) == GatewayTokenProtocol(other) <==> token == other
  {
    if GatewayTokenProtocol(token) == GatewayTokenProtocol(other) {
      var n := |TOKEN_PROTOCOL_PREFIX|;
      assert GatewayTokenProtocol(token)[n..] == EncodeHex(Utf8.Encode(token));
      assert GatewayTokenProtocol(other)[n..] == EncodeHex(Utf8.Encode(other));
      DecodeUndoesEncode(Utf8.Encode(token));
      DecodeUndoesEncode(Utf8.Encode(other));
      Utf8.EncodeInjective(token, other);
    }
  }

  // ---------- comma-separated lists ----------

  /** The index of the first `c`, or the length. */
  function IndexOf(s: string, c: char): (i: nat)
    ensures i <= |s|
    ensures i < |s| ==> s[i] == c
    ensures forall k :: 0 <= k < i ==> s[k] != c
  {
    if s == "" || s[0] == c then 0 else 1 + IndexOf(s[1..], c)
  }

  /** The entries from the one that starts at `start`, of which `start..at` has been scanned. */
  function Entries(s: string, start: nat, at: nat): seq<string>
    requires start <= at <= |s|
    decreases |s| - at
  {
    if at == |s| then [s[start..at]]
    else if s[at] == ',' then [s[start..at]] + Entries(s, at + 1, at + 1)
    else Entries(s, start, at + 1)
  }

  /** `value.split(',')` */
  function Split(s: string): seq<string> {
    Entries(s, 0, 0)
  }

  /** The elements of a list header: the longest stretches without a comma. */
  ghost predicate IsElement(s: string, i: nat, j: nat) {
    && i <= j <= |s|
    && (i == 0 || s[i - 1] == ',')
    && (j == |s| || s[j] == ',')
    && forall k :: i <= k < j ==> s[k] != ','
  }

  /** Splitting gives elements only. */
  lemma {:induction false} EntriesAreElements(s: string, start: nat, at: nat, e: nat) returns (i: nat, j: nat)
    requires start <= at <= |s| && e < |Entries(s, start, at)|
    requires (start == 0 || s[start - 1] == ',') && forall k :: start <= k < at ==> s[k] != ','
    ensures IsElement(s, i, j) && s[i..j] == Entries(s, start, at)[e]
    decreases |s| - at
  {
    if at < |s| && s[at] != ',' {
      i, j := EntriesAreElements(s, start, at + 1, e);
    } else if e > 0 {
      i, j := EntriesAreElements(s, at + 1, at + 1, e - 1);
    } else {
      i, j := start, at;
    }
  }

  /** Splitting gives every element. */
  lemma {:induction false} ElementsAreEntries(s: string, start: nat, at: nat, i: nat, j: nat)
    requires start <= at <= |s| && IsElement(s, i, j)
    requires (i == start && j >= at) || i > at
    ensures s[i..j] in Entries(s, start, at)
    decreases |s| - at
  {
    if at < |s| && s[at] != ',' {
      ElementsAreEntries(s, start, at + 1, i, j);
    } else if i > at {
      ElementsAreEntries(s, at + 1, at + 1, i, j);
    } else {
      assert j == at;
      assert Entries(s, start, at)[0] == s[start..at];
    }
  }

  lemma {:induction false} OneEntry(s: string, at: nat)
    requires at <= |s| && forall k :: 0 <= k < |s| ==> s[k] != ','
    ensures Entries(s, 0, at) == [s]
    decreases |s| - at
  {
    if at < |s| {
      OneEntry(s, at + 1);
    } else {
      assert s[0..at] == s;
    }
  }

  // ---------- the gateway's check ----------

  /** The headers the check reads; an inner `None` is a value that is not visible ASCII. */
  datatype Headers = Headers(authorization: Option<Option<string>>, token: Option<Option<string>>,
      protocols: seq<Option<string>>)

  function FindIn(entries: seq<string>, wanted: string): Option<string> {
    if entries == [] then None
    else if Text.Trim(entries[0]) == wanted then Some(Text.Trim(entries[0]))
    else FindIn(entries[1..], wanted)
  }

  function FindProtocol(values: seq<Option<string>>, wanted: string): Option<string> {
    if values == [] then None
    else
      var found := if values[0].Some? then FindIn(Split(values[0].value), wanted) else None;
      if found.Some? then found else FindProtocol(values[1..], wanted)
  }

  /** `websocket_protocol` */
  function WebsocketProtocol(headers: Headers, expected: string): Option<string> {
    FindProtocol(headers.protocols, TOKEN_PROTOCOL_PREFIX + EncodeHex(Utf8.Encode(expected)))
  }

  function Flatten(value: Option<Option<string>>): Option<string> {
    if value.None? then None else value.value
  }

  function LowerAscii(c: char): char {
    if 'A' <= c <= 'Z' then (c as int + 32) as char else c
  }

  function LowerAll(s: string): string {
    seq(|s|, i requires 0 <= i < |s| => LowerAscii(s[i]))
  }

  const BEARER := "bearer"

  /** `bearer_token` */
  function BearerToken(headers: Headers): Option<string> {
    var value := Flatten(headers.authorization);
    if value.None? then None
    else
      var i := IndexOf(value.value, ' ');
      if i == |value.value| || LowerAll(value.value[..i]) != BEARER || value.value[i + 1..] == "" then None
      else Some(value.value[i + 1..])
  }

  predicate SameBytes(value: Option<string>, expected: string) {
    value.Some? && Utf8.Encode(value.value) == Utf8.Encode(expected)
  }

  predicate Authorized(headers: Headers, queryToken: Option<string>, expected: string) {
    || SameBytes(BearerToken(headers), expected) || SameBytes(Flatten(headers.token), expected)
        || SameBytes(queryToken, expected)
    || WebsocketProtocol(headers, expected).Some?
  }

  // ---------- what the check accepts ----------

  /** A listed element that, spaces aside, is the prefix and the hexadecimal form of the token. */
  ghost predicate Encodes(element: string, token: string) {
    var entry := Text.Trim(element);
    "pocket-agent-token." <= entry && DecodeHex(entry[19..]) == Some(Utf8.Encode(token))
  }

  /** Element `i..j` of value `v` encodes the token. */
  ghost predicate Lists(values: seq<Option<string>>, v: nat, i: nat, j: nat, token: string) {
    && v < |values| && values[v].Some?
    && IsElement(values[v].value, i, j)
    && Encodes(values[v].value[i..j], token)
  }

  lemma EncodesExactlyWhen(element: string, token: string)
    ensures Encodes(element, token) <==> Text.Trim(element) == GatewayTokenProtocol(token)
  {
    var entry, n := Text.Trim(element), |TOKEN_PROTOCOL_PREFIX|;
    if TOKEN_PROTOCOL_PREFIX <= entry {
      HexIsABijection(entry[n..], Utf8.Encode(token));
      assert entry == TOKEN_PROTOCOL_PREFIX + entry[n..];
    }
    if entry == GatewayTokenProtocol(token) {
      assert entry[n..] == EncodeHex(Utf8.Encode(token));
    }
  }

  lemma {:induction false} FindInFinds(entries: seq<string>, wanted: string)
    ensures FindIn(entries, wanted).Some? <==> exists e :: 0 <= e < |entries| && Text.Trim(entries[e]) == wanted
    ensures FindIn(entries, wanted).Some? ==> FindIn(entries, wanted).value == wanted
  {
    if entries != [] {
      FindInFinds(entries[1..], wanted);
      if e :| 0 < e < |entries| && Text.Trim(entries[e]) == wanted {
        assert entries[1..][e - 1] == entries[e];
      }
      if e :| 0 <= e < |entries[1..]| && Text.Trim(entries[1..][e]) == wanted {
        assert entries[e + 1] == entries[1..][e];
      }
    }
  }

  lemma {:induction false} FindProtocolFinds(values: seq<Option<string>>, wanted: string)
    ensures FindProtocol(values, wanted).Some? <==>
            exists v :: 0 <= v < |values| && values[v].Some? && FindIn(Split(values[v].value), wanted).Some?
    ensures FindProtocol(values, wanted).Some? ==> FindProtocol(values, wanted).value == wanted
  {
    if values != [] {
      FindProtocolFinds(values[1..], wanted);
      if values[0].Some? {
        FindInFinds(Split(values[0].value), wanted);
      }
      if v :| 0 < v < |values| && values[v].Some? && FindIn(Split(values[v].value), wanted).Some? {
        assert values[1..][v - 1] == values[v];
      }
      if v :| 0 <= v < |values[1..]| && values[1..][v].Some? && FindIn(Split(values[1..][v].value), wanted).Some? {
        assert values[v + 1] == values[1..][v];
      }
    }
  }

  /** The subprotocol check succeeds exactly when some element of some protocol header encodes the expected
      token, and then it answers with the protocol that the front end offers for that token. */
  lemma ProtocolFoundExactlyWhen(headers: Headers, expected: string)
    ensures WebsocketProtocol(headers, expected).Some? <==> exists v: nat, i: nat, j: nat ::
        Lists(headers.protocols, v, i, j, expected)
    ensures WebsocketProtocol(headers, expected).Some? ==>
        WebsocketProtocol(headers, expected).value == GatewayTokenProtocol(expected)
  {
    var values, wanted := headers.protocols, GatewayTokenProtocol(expected);
    FindProtocolFinds(values, wanted);
    if WebsocketProtocol(headers, expected).Some? {
      var v :| 0 <= v < |values| && values[v].Some? && FindIn(Split(values[v].value), wanted).Some?;
      FindInFinds(Split(values[v].value), wanted);
      var e :| 0 <= e < |Split(values[v].value)| && Text.Trim(Split(values[v].value)[e]) == wanted;
      var i, j := EntriesAreElements(values[v].value, 0, 0, e);
      EncodesExactlyWhen(values[v].value[i..j], expected);
      assert Lists(values, v, i, j, expected);
    }
    if v: nat, i: nat, j: nat :| Lists(values, v, i, j, expected) {
      EncodesExactlyWhen(values[v].value[i..j], expected);
      ElementsAreEntries(values[v].value, 0, 0, i, j);
      var e :| 0 <= e < |Split(values[v].value)| && Split(values[v].value)[e] == values[v].value[i..j];
      FindInFinds(Split(values[v].value), wanted);
    }
  }

  /** An authorization value that carries the token: the scheme in any case, one space, the token. */
  predicate BearerCarries(value: string, token: string) {
    && |value| > 7
    && (forall k :: 0 <= k < 6 ==> value[k] == "bearer"[k] || value[k] == "BEARER"[k])
    && value[6] == ' ' && value[7..] == token
  }

  lemma LowerExactlyWhen(s: string)
    ensures LowerAll(s) == BEARER <==>
            |s| == 6 && forall k :: 0 <= k < 6 ==> s[k] == "bearer"[k] || s[k] == "BEARER"[k]
  {
    if |s| == 6 {
      forall k | 0 <= k < 6
        ensures LowerAscii(s[k]) == BEARER[k] <==> s[k] == "bearer"[k] || s[k] == "BEARER"[k]
      {
        LowerLetter(s[k], k);
      }
      if LowerAll(s) == BEARER {
        assert forall k :: 0 <= k < 6 ==> LowerAscii(s[k]) == LowerAll(s)[k];
      } else {
        assert exists k :: 0 <= k < 6 && LowerAll(s)[k] != BEARER[k];
      }
    }
  }

  lemma LowerLetter(c: char, k: nat)
    requires k < 6
    ensures LowerAscii(c) == "bearer"[k] <==> c == "bearer"[k] || c == "BEARER"[k]
  {
  }

  lemma BearerExactlyWhen(headers: Headers, expected: string)
    ensures BearerToken(headers) == Some(expected) <==>
            Flatten(headers.authorization).Some? && BearerCarries(Flatten(headers.authorization).value, expected)
  {
    if Flatten(headers.authorization).Some? {
      var value := Flatten(headers.authorization).value;
      var i := IndexOf(value, ' ');
      LowerExactlyWhen(value[..i]);
      if BearerCarries(value, expected) {
        forall k | 0 <= k < 6 ensures value[k] != ' ' {
          assert "bearer"[k] != ' ' && "BEARER"[k] != ' ';
        }
        assert i == 6;
      }
    }
  }

  lemma SameBytesExactlyWhen(value: Option<string>, expected: string)
    ensures SameBytes(value, expected) <==> value == Some(expected)
  {
    if SameBytes(value, expected) {
      Utf8.EncodeInjective(value.value, expected);
    }
  }

  /** A request is let in exactly when one of the four places holds the expected token. */
  lemma AuthorizedExactlyWhen(headers: Headers, queryToken: Option<string>, expected: string)
    ensures Authorized(headers, queryToken, expected) <==>
            || (Flatten(headers.authorization).Some? && BearerCarries(Flatten(headers.authorization).value, expected))
            || Flatten(headers.token) == Some(expected)
            || queryToken == Some(expected)
            || exists v: nat, i: nat, j: nat :: Lists(headers.protocols, v, i, j, expected)
  {
    SameBytesExactlyWhen(BearerToken(headers), expected);
    SameBytesExactlyWhen(Flatten(headers.token), expected);
    SameBytesExactlyWhen(queryToken, expected);
    BearerExactlyWhen(headers, expected);
    ProtocolFoundExactlyWhen(headers, expected);
  }

  // ---------- end to end ----------

  /** What a browser sends for the front end's offer: no header without a token. */
  function OfferedBy(token: string): Headers {
    Headers(None, None, if token == "" then [] else [Some(GatewayTokenProtocol(token))])
  }

  lemma {:induction false} HexHasNoCommas(bytes: seq<Byte>)
    ensures forall k :: 0 <= k < |EncodeHex(bytes)| ==>
        EncodeHex(bytes)[k] != ',' && !Text.IsWhitespace(EncodeHex(bytes)[k])
  {
    if bytes != [] {
      TwoDigits(bytes[0]);
      HexHasNoCommas(bytes[1..]);
    }
  }

  lemma OfferIsOneEntry(token: string)
    ensures Split(GatewayTokenProtocol(token)) == [GatewayTokenProtocol(token)]
    ensures Text.Trim(GatewayTokenProtocol(token)) == GatewayTokenProtocol(token)
  {
    var offer, digits := GatewayTokenProtocol(token), EncodeHex(Utf8.Encode(token));
    HexHasNoCommas(Utf8.Encode(token));
    forall k | 0 <= k < |offer| ensures offer[k] != ',' && !Text.IsWhitespace(offer[k]) {
      if k >= |TOKEN_PROTOCOL_PREFIX| {
        assert offer[k] == digits[k - |TOKEN_PROTOCOL_PREFIX|];
      } else {
        assert offer[k] == TOKEN_PROTOCOL_PREFIX[k];
      }
    }
    OneEntry(offer, 0);
    assert Text.TrimStart(offer) == offer;
  }

  /** The front end gets in by its offer alone exactly when it has a token and it is the gateway's. */
  lemma FrontEndGetsInExactlyWhen(token: string, expected: string)
    ensures Authorized(OfferedBy(token), None, expected) <==> token != "" && token == expected
  {
    var headers, wanted := OfferedBy(token), GatewayTokenProtocol(expected);
    if token != "" {
      OfferIsOneEntry(token);
      ProtocolIsInjective(token, expected);
      FindInFinds([GatewayTokenProtocol(token)], wanted);
      FindProtocolFinds(headers.protocols, wanted);
    }
  }

  /** The token also gets in when the offer stands anywhere among other subprotocols, set off by a comma and a space. */
  lemma OfferAmongOthersGetsIn(headers: Headers, before: string, after: string, token: string)
    requires headers.protocols ==
             [Some(before + ", " + ("pocket-agent-token." + EncodeHex(Utf8.Encode(token))) + "," + after)]
    ensures Authorized(headers, None, token)
  {
    var offer := GatewayTokenProtocol(token);
    var value := before + ", " + offer + "," + after;
    var i := |before| + 1;
    var j := i + 1 + |offer|;
    OfferIsOneEntry(token);
    OfferHasNoCommas(token);
    assert value[i..j] == " " + offer;
    assert forall k :: i <= k < j ==> value[k] == (" " + offer)[k - i];
    SpaceIsTrimmed(offer);
    EncodesExactlyWhen(value[i..j], token);
    assert Lists(headers.protocols, 0, i, j, token);
    AuthorizedExactlyWhen(headers, None, token);
  }

  lemma OfferHasNoCommas(token: string)
    ensures var offer := GatewayTokenProtocol(token); forall k :: 0 <= k < |offer| ==> offer[k] != ','
  {
    var offer, digits := GatewayTokenProtocol(token), EncodeHex(Utf8.Encode(token));
    HexHasNoCommas(Utf8.Encode(token));
    forall k | 0 <= k < |offer| ensures offer[k] != ',' {
      if k >= |TOKEN_PROTOCOL_PREFIX| {
        assert offer[k] == digits[k - |TOKEN_PROTOCOL_PREFIX|];
      } else {
        assert offer[k] == TOKEN_PROTOCOL_PREFIX[k];
      }
    }
  }

  lemma SpaceIsTrimmed(s: string)
    ensures Text.Trim(" " + s) == Text.Trim(s)
  {
    assert (" " + s)[1..] == s;
  }
}
