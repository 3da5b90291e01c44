/** A stream wrapper that reopens its underlying stream after a failed flush
    (Multiplexer/ReopenableStream.cs).

    The reopen worker is constructed but never started, so its step is an
    environment transition here, enabled only while the reopen request is set; without
    it, a stream that has entered `reopening` drops every later write. */
module ReopenableStream {
  import opened Io

  /** The current underlying stream, the `reopening` flag, the `reopeningRequested`
      event (a ManualResetEvent: it stays set until reset) and the streams the opener
      has returned, in order. */
  datatype Reopenable = Reopenable(stream: StreamId, reopening: bool, requested: bool, history: seq<StreamId>)

  /** What every reachable state satisfies: the current stream is the latest one the
      opener returned, and `reopening` and the request are raised and cleared together. */
  predicate Valid(rs: Reopenable)
  {
    |rs.history| > 0 && rs.stream == rs.history[|rs.history| - 1] && rs.reopening == rs.requested
  }

  /** A call's resulting state and the operations it issued on underlying streams. */
  datatype Effect = Effect(next: Reopenable, ops: seq<StreamOp>)

  /** The constructor: call the opener once, not reopening, no request. */
  function Create(first: StreamId): (rs: Reopenable)
    ensures Valid(rs) && rs.history == [first]
    ensures !rs.reopening && !rs.requested
  {
    Reopenable(first, false, false, [first])
  }

  /** Write: dropped while reopening; otherwise delegated to the current stream.
      Errors of the delegated write are not caught, and leave the state as it is. */
  function Write(rs: Reopenable, data: Chunk): (r: Effect)
    ensures r.next == rs
    ensures rs.reopening ==> r.ops == []
    ensures !rs.reopening ==> r.ops == [WriteOp(rs.stream, data)]
  {
    if rs.reopening then Effect(rs, []) else Effect(rs, [WriteOp(rs.stream, data)])
  }

  /** Flush: delegated whether or not reopening; an IOException is swallowed and
      marks the stream reopening with a request raised. */
  function Flush(rs: Reopenable, ok: bool): (r: Effect)
    ensures r.ops == [FlushOp(rs.stream)]
    ensures ok ==> r.next == rs
    ensures !ok ==> r.next.reopening && r.next.requested
    ensures r.next.stream == rs.stream && r.next.history == rs.history
    ensures Valid(rs) ==> Valid(r.next)
  {
    if ok then Effect(rs, [FlushOp(rs.stream)])
    else Effect(rs.(reopening := true, requested := true), [FlushOp(rs.stream)])
  }

  /** Read: always delegated to the current stream, never dropped. */
  function Read(rs: Reopenable): (r: Effect)
    ensures r.next == rs
    ensures r.ops == [ReadOp(rs.stream)]
  {
    Effect(rs, [ReadOp(rs.stream)])
  }

  /** One pass of DoReopening, given the stream the opener returns. `None` means the
      worker is still waiting for a request. Disposal errors are ignored. */
  function ReopenStep(rs: Reopenable, newStream: StreamId): (r: Option<Effect>)
    ensures r.None? <==> !rs.requested
    ensures r.Some? ==> r.value.ops == [DisposeOp(rs.stream)]
    ensures r.Some? ==> r.value.next.stream == newStream && r.value.next.history == rs.history + [newStream]
    ensures r.Some? ==> !r.value.next.reopening && !r.value.next.requested
    ensures Valid(rs) && r.Some? ==> Valid(r.value.next)
  {
    if !rs.requested then None
    else Some(Effect(Reopenable(newStream, false, false, rs.history + [newStream]), [DisposeOp(rs.stream)]))
  }

  /** Calls made on the wrapper, and worker steps the environment may take. */
  datatype Event = WriteEv(data: Chunk) | FlushEv(ok: bool) | ReadEv | ReopenEv(newStream: StreamId)

  function Apply(rs: Reopenable, ev: Event): Effect
  {
    match ev
    case WriteEv(data) => Write(rs, data)
    case FlushEv(ok) => Flush(rs, ok)
    case ReadEv => Read(rs)
    case ReopenEv(newStream) =>
      var step := ReopenStep(rs, newStream);
      if step.None? then Effect(rs, []) else step.value
  }

  /** A sequence of events, with the operations issued in order. */
  function Run(rs: Reopenable, evs: seq<Event>): (r: Effect)
    ensures Valid(rs) ==> Valid(r.next)
    decreases |evs|
  {
    if |evs| == 0 then Effect(rs, [])
    else
      var first := Apply(rs, evs[0]);
      var rest := Run(first.next, evs[1..]);
      Effect(rest.next, first.ops + rest.ops)
  }

  /** Without a worker step, a stream that is reopening stays reopening and every
      write is dropped: no write reaches any underlying stream. */
  lemma {:induction false} DroppedUntilReopened(rs: Reopenable, evs: seq<Event>)
    requires rs.reopening
    requires forall i :: 0 <= i < |evs| ==> !evs[i].ReopenEv?
    ensures Run(rs, evs).next.reopening
    ensures forall op :: op in Run(rs, evs).ops ==> !op.WriteOp?
    decreases |evs|
  {
    if |evs| > 0 {
      var first := Apply(rs, evs[0]);
      DroppedUntilReopened(first.next, evs[1..]);
    }
  }

  /** After a failed flush and one worker step, writes reach the newly opened stream. */
  lemma ReopenRestoresWrites(rs: Reopenable, newStream: StreamId, data: Chunk)
    requires Valid(rs)
    ensures var failed := Flush(rs, false).next;
      && Write(failed, data).ops == []
      && ReopenStep(failed, newStream).Some?
      && Write(ReopenStep(failed, newStream).value.next, data).ops == [WriteOp(newStream, data)]
  {
  }
}
