/** The two loop shapes every relay in the multiplexer shares.

    Forwarding: read up to `BufferSize` bytes into a reused buffer, hand the first
    `count` bytes on as one chunk, and stop at the first zero-length read or the
    first read that throws. Draining: take chunks from a FIFO queue one at a time and
    write each whole, stopping at the first write that throws.

    The environment's answers (what each read returns, whether each write throws) are
    parameters; a script that runs out means the loop is still waiting. */
module Relay {
  import opened Io

  /** Every relay loop reads into a 256-byte buffer. */
  const BufferSize: nat := 256

  /** The result of one ReadAsync: `count` bytes were read and `buffer` is the whole
      buffer after the call (bytes past `count` are stale), or the read threw
      (an IOException, or cancellation of the token passed to it). */
  datatype ReadStep = Received(count: nat, buffer: seq<Byte>) | ReadThrows

  /** A read is what a Stream may return when asked for `BufferSize` bytes. */
  predicate WellFormed(r: ReadStep)
  {
    r.Received? ==> |r.buffer| == BufferSize && r.count <= BufferSize
  }

  /** How a loop ended: end of stream, an exception, or still waiting for the
      environment when the script ran out. */
  datatype Ending = Eof | Faulted | Blocked

  /** A read that ends a forwarding loop. */
  predicate Stops(r: ReadStep)
  {
    r.ReadThrows? || r.count == 0
  }

  /** `buffer.Take(count).ToArray()`. */
  function Take(buffer: seq<Byte>, count: nat): (r: Chunk)
    ensures |r| == if count <= |buffer| then count else |buffer|
    ensures r <= buffer
  {
    if count <= |buffer| then buffer[..count] else buffer
  }

  datatype Relayed = Relayed(chunks: seq<Chunk>, ending: Ending)

  /** The reference meaning of a forwarding loop: the chunks are, in order, the data of
      the reads before the first stopping read, and the ending says whether there was
      one and which kind it was. */
  ghost predicate Relays(script: seq<ReadStep>, r: Relayed)
  {
    && |r.chunks| <= |script|
    && (forall i :: 0 <= i < |r.chunks| ==>
          !Stops(script[i]) && r.chunks[i] == Take(script[i].buffer, script[i].count))
    && (r.ending == Blocked <==> |r.chunks| == |script|)
    && (|r.chunks| < |script| ==>
          Stops(script[|r.chunks|])
          && r.ending == (if script[|r.chunks|].Received? then Eof else Faulted))
  }

  /** The forwarding loop `while ((c = Read(buffer)) > 0) forward(buffer.Take(c))`. */
  function Forward(script: seq<ReadStep>): (r: Relayed)
    ensures Relays(script, r)
  {
    if |script| == 0 then Relayed([], Blocked)
    else match script[0]
      case ReadThrows => Relayed([], Faulted)
      case Received(c, buf) =>
        if c == 0 then Relayed([], Eof)
        else
          var rest := Forward(script[1..]);
          Relayed([Take(buf, c)] + rest.chunks, rest.ending)
  }

  /** The reference meaning pins the result down: the loop has exactly one outcome. */
  lemma RelaysUnique(script: seq<ReadStep>, a: Relayed, b: Relayed)
    requires Relays(script, a) && Relays(script, b)
    ensures a == b
  {
    assert |a.chunks| == |b.chunks|;
    assert a.chunks == b.chunks;
  }

  /** The same loop written as the source writes it, as a while loop. */
  method ForwardLoop(script: seq<ReadStep>) returns (chunks: seq<Chunk>, ending: Ending)
    ensures Relayed(chunks, ending) == Forward(script)
  {
    chunks := [];
    var i := 0;
    while i < |script| && !Stops(script[i])
      invariant 0 <= i <= |script|
      invariant |chunks| == i
      invariant forall j :: 0 <= j < i ==>
        !Stops(script[j]) && chunks[j] == Take(script[j].buffer, script[j].count)
    {
      chunks := chunks + [Take(script[i].buffer, script[i].count)];
      i := i + 1;
    }
    ending := if i == |script| then Blocked else if script[i].Received? then Eof else Faulted;
    RelaysUnique(script, Relayed(chunks, ending), Forward(script));
  }

  /** Every forwarded chunk is non-empty and at most one buffer long. */
  lemma ChunkBounds(script: seq<ReadStep>)
    requires forall i :: 0 <= i < |script| ==> WellFormed(script[i])
    ensures forall c :: c in Forward(script).chunks ==> 1 <= |c| <= BufferSize
  {
    var r := Forward(script);
    forall c | c in r.chunks
      ensures 1 <= |c| <= BufferSize
    {
      var i :| 0 <= i < |r.chunks| && r.chunks[i] == c;
      assert WellFormed(script[i]);
    }
  }

  /** Nothing read after the first stopping read is forwarded. */
  lemma {:induction false} StopCutsScript(pre: seq<ReadStep>, stop: ReadStep, post: seq<ReadStep>)
    requires forall i :: 0 <= i < |pre| ==> !Stops(pre[i])
    requires Stops(stop)
    ensures Forward(pre + [stop] + post) == Forward(pre + [stop])
    ensures Forward(pre + [stop]).chunks == Forward(pre).chunks
    ensures Forward(pre + [stop]).ending != Blocked
  {
    if |pre| > 0 {
      assert (pre + [stop] + post)[1..] == pre[1..] + [stop] + post;
      assert (pre + [stop])[1..] == pre[1..] + [stop];
      StopCutsScript(pre[1..], stop, post);
    }
  }

  /** A write of one whole chunk succeeds or throws. */
  datatype WriteStep = WriteOk | WriteFails

  datatype Drained = Drained(written: seq<Chunk>, remaining: seq<Chunk>, ending: Ending)

  /** The reference meaning of a draining loop: what was written is a prefix of the
      queue, in queue order, each chunk whole; a failed write consumes its chunk; the
      rest stays queued. */
  ghost predicate Drains(queue: seq<Chunk>, writes: seq<WriteStep>, r: Drained)
  {
    var k := |r.written|;
    && k <= |queue| && k <= |writes|
    && r.written == queue[..k]
    && (forall i :: 0 <= i < k ==> writes[i] == WriteOk)
    && r.ending != Eof
    && (r.ending == Faulted ==>
          k < |queue| && k < |writes| && writes[k] == WriteFails && r.remaining == queue[k + 1..])
    && (r.ending == Blocked ==>
          r.remaining == queue[k..] && (k == |queue| || k == |writes|))
  }

  /** The draining loop `while ((data = queue.Take()) != null) Write(data)`. */
  function Drain(queue: seq<Chunk>, writes: seq<WriteStep>): (r: Drained)
    ensures Drains(queue, writes, r)
  {
    if |queue| == 0 || |writes| == 0 then Drained([], queue, Blocked)
    else if writes[0] == WriteFails then Drained([], queue[1..], Faulted)
    else
      var rest := Drain(queue[1..], writes[1..]);
      Drained([queue[0]] + rest.written, rest.remaining, rest.ending)
  }

  /** A read loop started under `ThrowIfCancellationRequested`: it throws (`None`)
      before the first read when already cancelled, and otherwise forwards the script.
      Client uplinks and the remote's downlink share this shape. */
  function ForwardUnlessCancelled(cancelled: bool, script: seq<ReadStep>): (r: Option<Relayed>)
    ensures r.None? <==> cancelled
    ensures r.Some? ==> Relays(script, r.value)
  {
    if cancelled then None else Some(Forward(script))
  }

  /** A draining loop started under `ThrowIfCancellationRequested`: it throws before
      taking anything when already cancelled, and otherwise drains the queue. Client
      downlinks and the remote's uplink share this shape. */
  function DrainUnlessCancelled(cancelled: bool, queue: seq<Chunk>, writes: seq<WriteStep>): (r: Option<Drained>)
    ensures r.None? <==> cancelled
    ensures r.Some? ==> Drains(queue, writes, r.value)
  {
    if cancelled then None else Some(Drain(queue, writes))
  }

  /** When no write fails, the whole queue is written, in order, and nothing is left. */
  lemma {:induction false} DrainHealthy(queue: seq<Chunk>, writes: seq<WriteStep>)
    requires |writes| >= |queue|
    requires forall i :: 0 <= i < |writes| ==> writes[i] == WriteOk
    ensures Drain(queue, writes) == Drained(queue, [], Blocked)
  {
    if |queue| > 0 {
      DrainHealthy(queue[1..], writes[1..]);
      assert [queue[0]] + queue[1..] == queue;
    }
  }

  /** Draining loses at most the one chunk whose write failed: everything else is
      either written or still queued, in the original order. */
  lemma DrainConserves(queue: seq<Chunk>, writes: seq<WriteStep>)
    ensures var r := Drain(queue, writes);
      if r.ending == Faulted then r.written + [queue[|r.written|]] + r.remaining == queue
      else r.written + r.remaining == queue
  {
    var r := Drain(queue, writes);
    var k := |r.written|;
    if r.ending == Faulted {
      assert queue == queue[..k] + [queue[k]] + queue[k + 1..];
    } else {
      assert queue == queue[..k] + queue[k..];
    }
  }
}
