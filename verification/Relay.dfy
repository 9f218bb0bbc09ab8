/** The loop that relays one direction of a TCP connection through a reused buffer. */
module Relay {
  import opened AddressCodec
  import opened Wrappers

  const BUFFER_SIZE := 32 * 1024

  datatype Status = More | Eof | Failed

  /** What one read puts into the buffer, and whether it comes with an error. */
  datatype Chunk = Chunk(bytes: seq<byte>, status: Status)

  /** The one write that fails: which, and how much of its chunk the connection still takes. */
  datatype Break = Break(at: nat, taken: nat)

  datatype Outcome = Running | ReadStopped | WriteStopped

  /** The bytes of the first `n` reads. */
  function Stream(chunks: seq<Chunk>, n: nat): seq<byte>
    requires n <= |chunks|
  {
    if n == 0 then [] else Stream(chunks, n - 1) + chunks[n - 1].bytes
  }

  method ReadInto(buffer: array<byte>, chunk: Chunk) returns (n: nat)
    requires |chunk.bytes| <= buffer.Length
    modifies buffer
    ensures n == |chunk.bytes| && buffer[..n] == chunk.bytes
  {
    n := |chunk.bytes|;
    for i := 0 to n
      invariant buffer[..i] == chunk.bytes[..i]
    {
      buffer[i] := chunk.bytes[i];
    }
  }

  /**
   `delivered` is what reaches the other side, `counted` what the traffic callback adds up, and `passed` how
   many reads were counted. Bytes that arrive together with a read error are neither counted nor delivered.
   The relay is still running when it has used up the reads seen so far.
   */
  method CopyConn(chunks: seq<Chunk>, failing: Option<Break>, counting: bool)
    returns (delivered: seq<byte>, counted: nat, passed: nat, outcome: Outcome)
    requires forall i | 0 <= i < |chunks| :: |chunks[i].bytes| <= BUFFER_SIZE
    requires failing.Some? && failing.value.at < |chunks| ==> failing.value.taken <= |chunks[failing.value.at].bytes|
    ensures passed <= |chunks|
    ensures counted == if counting then |Stream(chunks, passed)| else 0
    ensures delivered <= Stream(chunks, passed)
    ensures outcome != WriteStopped ==> delivered == Stream(chunks, passed)
    ensures outcome.Running? ==> passed == |chunks|
    ensures outcome.ReadStopped? ==> passed < |chunks| && chunks[passed].status != More
    ensures outcome.WriteStopped? ==>
              && failing.Some? && passed == failing.value.at + 1
              && delivered == Stream(chunks, failing.value.at) + chunks[failing.value.at].bytes[..failing.value.taken]
              && |Stream(chunks, passed)| - |delivered| <= 32 * 1024
    ensures forall i | 0 <= i < passed :: chunks[i].status == More
    ensures outcome != WriteStopped && failing.Some? ==> passed <= failing.value.at
  {
    var buffer := new byte[BUFFER_SIZE];
    delivered, counted, passed := [], 0, 0;
    while passed < |chunks|
      invariant passed <= |chunks|
      invariant delivered == Stream(chunks, passed)
      invariant counted == if counting then |Stream(chunks, passed)| else 0
      invariant forall i | 0 <= i < passed :: chunks[i].status == More
      invariant failing.Some? ==> passed <= failing.value.at
    {
      var chunk := chunks[passed];
      var n := ReadInto(buffer, chunk);
      if chunk.status == Eof {
        return delivered, counted, passed, ReadStopped;
      }
      if chunk.status == Failed {
        return delivered, counted, passed, ReadStopped;
      }
      if counting {
        counted := counted + n;
      }
      passed := passed + 1;
      if failing.Some? && failing.value.at == passed - 1 {
        delivered := delivered + buffer[..failing.value.taken];
        assert buffer[..failing.value.taken] == buffer[..n][..failing.value.taken];
        return delivered, counted, passed, WriteStopped;
      }
      delivered := delivered + buffer[..n];
    }
    return delivered, counted, passed, Running;
  }
}
