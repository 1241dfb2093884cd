/** The readiness probe: reading the first line of an HTTP response into a fixed buffer. */
module Readiness {
  import opened Wrappers

  const NEWLINE: Byte := 10

  /** "HTTP/1.1 200 " and "HTTP/1.0 200 ", the status lines of section 4 of RFC 9112 that mean success. */
  const HTTP_1_1_OK: seq<Byte> := [72, 84, 84, 80, 47, 49, 46, 49, 32, 50, 48, 48, 32]
  const HTTP_1_0_OK: seq<Byte> := [72, 84, 84, 80, 47, 49, 46, 48, 32, 50, 48, 48, 32]

  const BUFFER_SIZE := 256

  /** A connection: `rest` is what the peer will still send before it closes. */
  class TcpStream {
    var rest: seq<Byte>

    constructor (response: seq<Byte>)
      ensures rest == response
    {
      rest := response;
    }

    /** A read delivers some of the bytes, at least one unless none are left, or fails or times out. */
    method Read(buffer: array<Byte>, start: nat) returns (count: nat, failed: bool)
      requires start < buffer.Length
      modifies this, buffer
      ensures failed ==> count == 0
      ensures !failed ==> count <= |old(rest)| && start + count <= buffer.Length && (count == 0 <==> old(rest) == [])
      ensures !failed ==> rest == old(rest)[count..]
      ensures !failed ==> buffer[..start + count] == old(buffer[..start]) + old(rest)[..count]
    {
      if * { return 0, true; }
      failed := false;
      var space := buffer.Length - start;
      var most := if |rest| < space then |rest| else space;
      count :| 0 <= count <= most && (count == 0 <==> most == 0);
      forall k | 0 <= k < count {
        buffer[start + k] := rest[k];
      }
      assert buffer[..start] == old(buffer[..start]);
      assert buffer[start..start + count] == rest[..count];
      assert buffer[..start + count] == buffer[..start] + buffer[start..start + count];
      rest := rest[count..];
    }
  }

  /** Enough has been read: everything, a full buffer, or a whole line. */
  predicate Enough(read: seq<Byte>, response: seq<Byte>) {
    read <= response && (read == response || |read| == BUFFER_SIZE || NEWLINE in read)
  }

  /** What was read decides what the response begins with. */
  lemma EnoughDecides(read: seq<Byte>, response: seq<Byte>, line: seq<Byte>)
    requires Enough(read, response) && |line| <= BUFFER_SIZE && NEWLINE !in line
    ensures line <= read <==> line <= response
  {
  }

  predicate IsReadyResponse(response: seq<Byte>) {
    HTTP_1_1_OK <= response || HTTP_1_0_OK <= response
  }

  /** The answer depends on the bytes of the response only, not on how they are cut into reads. */
  method CodexIsReady(stream: TcpStream) returns (ready: bool, failed: bool)
    modifies stream
    ensures failed ==> !ready
    ensures !failed ==> (ready <==> IsReadyResponse(old(stream.rest)))
  {
    var response := new Byte[BUFFER_SIZE](_ => 0);
    var bytesRead := 0;
    while true
      invariant 0 <= bytesRead < BUFFER_SIZE
      invariant response[..bytesRead] + stream.rest == old(stream.rest)
      invariant NEWLINE !in response[..bytesRead]
      invariant fresh(response)
      decreases BUFFER_SIZE - bytesRead
    {
      ghost var before, rest := response[..bytesRead], stream.rest;
      var count, readFailed := stream.Read(response, bytesRead);
      if readFailed { return false, true; }
      assert rest == rest[..count] + rest[count..];
      assert before + rest == (before + rest[..count]) + rest[count..];
      bytesRead := bytesRead + count;
      if count == 0 || NEWLINE in response[..bytesRead] || bytesRead == BUFFER_SIZE {
        break;
      }
    }
    assert Enough(response[..bytesRead], old(stream.rest));
    EnoughDecides(response[..bytesRead], old(stream.rest), HTTP_1_1_OK);
    EnoughDecides(response[..bytesRead], old(stream.rest), HTTP_1_0_OK);
    return HTTP_1_1_OK <= response[..bytesRead] || HTTP_1_0_OK <= response[..bytesRead], false;
  }
}
