/** Bounded logs: a buffer that keeps only the end of what was appended to it. */
module Tail {
  import opened Wrappers

  function Last<T>(n: nat, s: seq<T>): (r: seq<T>)
    ensures |r| == if |s| <= n then |s| else n
  {
    if |s| <= n then s else s[|s| - n..]
  }

  /** Trimming early loses nothing that trimming late would keep. */
  lemma LastAppend<T>(n: nat, a: seq<T>, b: seq<T>)
    ensures Last(n, Last(n, a) + b) == Last(n, a + b)
  {
    if |a| > n {
      var k: nat := |a| - n;
      DropConcat(a, b, k);
      LastOfDrop(n, a + b, k);
    }
  }

  lemma DropConcat<T>(a: seq<T>, b: seq<T>, k: nat)
    requires k <= |a|
    ensures a[k..] + b == (a + b)[k..]
  {
  }

  lemma LastOfDrop<T>(n: nat, s: seq<T>, k: nat)
    requires k + n <= |s|
    ensures Last(n, s[k..]) == Last(n, s)
  {
    assert s[k..][|s| - k - n..] == s[|s| - n..];
  }

  /** What one read of the child's stderr pipe can give. */
  datatype Read = Data(bytes: seq<Byte>) | ReadError

  const MAX_CAPTURED_STDERR := 8192

  /** Everything read before end of file or the first error. */
  function Received(chunks: seq<Read>): seq<Byte> {
    if chunks == [] || chunks[0].ReadError? || chunks[0].bytes == [] then []
    else chunks[0].bytes + Received(chunks[1..])
  }

  /** Capturing keeps exactly the last 8192 bytes, however the stream is cut up. */
  method CaptureStderr(chunks: seq<Read>) returns (captured: seq<Byte>)
    ensures captured == Last(8192, Received(chunks))
  {
    captured := [];
    var i := 0;
    ghost var seen: seq<Byte> := [];
    while i < |chunks|
      invariant 0 <= i <= |chunks|
      invariant seen + Received(chunks[i..]) == Received(chunks)
      invariant captured == Last(MAX_CAPTURED_STDERR, seen)
    {
      assert chunks[i..][1..] == chunks[i + 1..];
      if chunks[i].ReadError? || chunks[i].bytes == [] {
        assert seen + [] == seen;
        return;
      }
      LastAppend(MAX_CAPTURED_STDERR, seen, chunks[i].bytes);
      assert (seen + chunks[i].bytes) + Received(chunks[i + 1..]) == seen
          + (chunks[i].bytes + Received(chunks[i + 1..]));
      captured := captured + chunks[i].bytes;
      if |captured| > MAX_CAPTURED_STDERR {
        var excess := |captured| - MAX_CAPTURED_STDERR;
        captured := captured[excess..];
      }
      seen := seen + chunks[i].bytes;
      i := i + 1;
    }
    assert seen + [] == seen;
  }
}
