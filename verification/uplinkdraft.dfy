/** The uplink side of the third, unfinished design (v3/Program.cs): a writer that
    discards chunks while the uplink is missing and raises a reopen request on an
    IOException, a reopen worker that clears the uplink, and a client reader that
    feeds the shared queue. The draft's stub methods are not modelled; in particular
    nothing ever installs a new uplink. */
module UplinkDraft {
  import opened Io
  import opened Relay

  /** The cached `uplink` stream (or null) and `uplinkReopenRequested`, a
      ManualResetEvent that nothing resets. */
  datatype Uplink = Uplink(stream: Option<StreamId>, reopenRequested: bool)

  /** What became of one taken chunk. */
  datatype Fate = Discarded(data: Chunk) | Written(stream: StreamId, data: Chunk) | WriteFailed(stream: StreamId, data: Chunk)

  /** One iteration of WriteToUplink on a taken chunk. */
  function WriteChunk(u: Uplink, data: Chunk, io: WriteFlush): (r: (Uplink, Fate))
    ensures r.1.data == data
    ensures u.stream.None? ==> r == (u, Discarded(data))
    ensures u.stream.Some? && io == BothOk ==> r == (u, Written(u.stream.value, data))
    ensures u.stream.Some? && io != BothOk ==>
      r.1 == WriteFailed(u.stream.value, data) && r.0.reopenRequested && r.0.stream == u.stream
  {
    match u.stream
    case None => (u, Discarded(data))
    case Some(st) =>
      if io == BothOk then (u, Written(st, data))
      else (u.(reopenRequested := true), WriteFailed(st, data))
  }

  /** One pass of ReopenUplink: once the request is raised, the uplink is cleared.
      `None` means the worker is still waiting. */
  function ReopenStep(u: Uplink): (r: Option<Uplink>)
    ensures r.None? <==> !u.reopenRequested
    ensures r.Some? ==> r.value.stream.None? && r.value.reopenRequested
  {
    if u.reopenRequested then Some(u.(stream := None)) else None
  }

  /** A chunk taken from the queue together with how the write and flush go, or a
      pass of the reopen worker. */
  datatype Event = Take(data: Chunk, io: WriteFlush) | Reopen

  /** The chunks the writer takes, in order. */
  function Taken(evs: seq<Event>): seq<Chunk>
    decreases |evs|
  {
    if |evs| == 0 then []
    else if evs[0].Take? then [evs[0].data] + Taken(evs[1..])
    else Taken(evs[1..])
  }

  /** WriteToUplink interleaved with the reopen worker: every taken chunk gets exactly
      one fate, in the order taken. */
  function WriteToUplink(u: Uplink, evs: seq<Event>): (r: (Uplink, seq<Fate>))
    ensures |r.1| == |Taken(evs)|
    ensures forall i :: 0 <= i < |r.1| ==> r.1[i].data == Taken(evs)[i]
    ensures u.reopenRequested ==> r.0.reopenRequested
    decreases |evs|
  {
    if |evs| == 0 then (u, [])
    else match evs[0]
      case Take(data, io) =>
        var (u1, fate) := WriteChunk(u, data, io);
        var (u2, fates) := WriteToUplink(u1, evs[1..]);
        (u2, [fate] + fates)
      case Reopen =>
        var step := ReopenStep(u);
        WriteToUplink(if step.None? then u else step.value, evs[1..])
  }

  /** Once the uplink is gone, every later chunk is discarded, whatever else happens:
      the draft has no step that installs a new uplink. */
  lemma {:induction false} GoneStaysGone(u: Uplink, evs: seq<Event>)
    requires u.stream.None?
    ensures WriteToUplink(u, evs).0.stream.None?
    ensures forall f :: f in WriteToUplink(u, evs).1 ==> f.Discarded?
    decreases |evs|
  {
    if |evs| > 0 {
      match evs[0]
      case Take(data, io) =>
        GoneStaysGone(u, evs[1..]);
      case Reopen =>
        var step := ReopenStep(u);
        GoneStaysGone(if step.None? then u else step.value, evs[1..]);
    }
  }

  /** A write failure followed by a worker pass leaves no uplink. */
  lemma FailureClearsUplink(u: Uplink, data: Chunk, io: WriteFlush)
    requires u.stream.Some? && io != BothOk
    ensures ReopenStep(WriteChunk(u, data, io).0) == Some(Uplink(None, true))
  {
  }

  /** ReadFromClient: forward the first `count` bytes of each positive read to the
      tail of the uplink queue, stopping at the first empty read or IOException. */
  function ReadFromClient(queue: seq<Chunk>, script: seq<ReadStep>): (r: seq<Chunk>)
    ensures |queue| <= |r| && r[..|queue|] == queue
    ensures Relays(script, Relayed(r[|queue|..], Forward(script).ending))
  {
    var relayed := Forward(script);
    assert (queue + relayed.chunks)[|queue|..] == relayed.chunks;
    queue + relayed.chunks
  }
}
