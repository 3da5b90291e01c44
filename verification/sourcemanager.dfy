/** The incoming/outgoing stream manager of the second design (v2/SourceManager.cs).

    Outgoing writes go to the current outgoing stream or are dropped when there is
    none; a failed write or flush disposes the stream and raises an establish request
    (an AutoResetEvent: raising it twice before a wait counts once). The establish
    worker is never started, so its step is an environment transition enabled only
    while a request is pending. The incoming side re-acquires its stream after every
    end of stream or IOException. */
module SourceManager {
  import opened Io
  import opened Relay

  datatype Outgoing = Outgoing(current: Option<StreamId>, requested: bool)

  datatype Effect = Effect(next: Outgoing, ops: seq<StreamOp>)

  /** The constructor: a request is raised and there is no outgoing stream yet. */
  function Create(): (o: Outgoing)
    ensures o.current.None? && o.requested
  {
    Outgoing(None, true)
  }

  /** AutoResetEvent.Set. */
  function Raise(o: Outgoing): (r: Outgoing)
    ensures r.requested && r.current == o.current
  {
    o.(requested := true)
  }

  /** SendOutgoingData: drop without a stream; otherwise write then flush; on an
      IOException dispose the stream (ignoring disposal errors), forget it and raise
      a request. Nothing is rethrown. */
  function SendOutgoingData(o: Outgoing, data: Chunk, io: WriteFlush): (r: Effect)
    ensures o.current.None? ==> r == Effect(o, [])
    ensures o.current.Some? && io == BothOk ==>
      r.next == o && r.ops == [WriteOp(o.current.value, data), FlushOp(o.current.value)]
    ensures o.current.Some? && io != BothOk ==>
      && r.next == Outgoing(None, true)
      && r.ops == [WriteOp(o.current.value, data)]
           + (if io == FlushThrows then [FlushOp(o.current.value)] else [])
           + [DisposeOp(o.current.value)]
  {
    match o.current
    case None => Effect(o, [])
    case Some(st) =>
      match io
      case BothOk => Effect(o, [WriteOp(st, data), FlushOp(st)])
      case WriteThrows => Effect(Outgoing(None, true), [WriteOp(st, data), DisposeOp(st)])
      case FlushThrows => Effect(Outgoing(None, true), [WriteOp(st, data), FlushOp(st), DisposeOp(st)])
  }

  /** One pass of the establish worker, given what the opener yields (`None`: it
      threw). `None` as the result means the worker is still waiting. The wait
      consumes the request; a failed attempt raises it again. */
  function EstablishStep(o: Outgoing, got: Option<StreamId>): (r: Option<Outgoing>)
    ensures r.None? <==> !o.requested
    ensures r.Some? && got.Some? ==> r.value == Outgoing(got, false)
    ensures r.Some? && got.None? ==> r.value == o
  {
    if !o.requested then None
    else match got
      case Some(st) => Some(Outgoing(Some(st), false))
      case None => Some(Outgoing(o.current, true))
  }

  function RaiseTimes(o: Outgoing, n: nat): Outgoing
    decreases n
  {
    if n == 0 then o else Raise(RaiseTimes(o, n - 1))
  }

  /** Requests coalesce: any number of raises before one successful attempt leave no
      request behind, so the worker makes exactly one attempt. */
  lemma {:induction false} RequestsCoalesce(o: Outgoing, n: nat, st: StreamId)
    requires n > 0
    ensures RaiseTimes(o, n).requested
    ensures EstablishStep(RaiseTimes(o, n), Some(st)) == Some(Outgoing(Some(st), false))
    ensures EstablishStep(EstablishStep(RaiseTimes(o, n), Some(st)).value, Some(st)).None?
    decreases n
  {
    if n > 1 {
      RequestsCoalesce(o, n - 1, st);
    }
  }

  /** A sequence of SendOutgoingData calls. */
  function SendAll(o: Outgoing, sends: seq<(Chunk, WriteFlush)>): (r: Effect)
    decreases |sends|
  {
    if |sends| == 0 then Effect(o, [])
    else
      var first := SendOutgoingData(o, sends[0].0, sends[0].1);
      var rest := SendAll(first.next, sends[1..]);
      Effect(rest.next, first.ops + rest.ops)
  }

  /** Without an establish step, a manager with no outgoing stream (as after
      construction, or after a failure) drops everything sent to it. */
  lemma {:induction false} DropsWithoutStream(o: Outgoing, sends: seq<(Chunk, WriteFlush)>)
    requires o.current.None?
    ensures SendAll(o, sends) == Effect(o, [])
    decreases |sends|
  {
    if |sends| > 0 {
      DropsWithoutStream(o, sends[1..]);
    }
  }

  /** The read scripts of the incoming streams the opener yields, in turn. */
  type Streams = seq<seq<ReadStep>>

  /** The chunks forwarded from a run of incoming streams, stream after stream. */
  function Concat(streams: Streams): seq<Chunk>
    decreases |streams|
  {
    if |streams| == 0 then [] else Forward(streams[0]).chunks + Concat(streams[1..])
  }

  datatype Incoming = Incoming(delivered: seq<Chunk>, acquired: nat)

  /** HandleIncoming over the read scripts of the streams the opener yields in turn:
      positive reads go to the subscriber (if any), in order; an end of stream or a
      read error moves on to the next stream. `acquired` counts the streams reached. */
  function HandleIncoming(streams: Streams, subscribed: bool): (r: Incoming)
    ensures r.acquired <= |streams|
    ensures !subscribed ==> r.delivered == []
    ensures subscribed ==> r.delivered == Concat(streams[..r.acquired])
    ensures r.acquired < |streams| ==> 0 < r.acquired && Forward(streams[r.acquired - 1]).ending == Blocked
    ensures forall i :: 0 <= i < r.acquired - 1 ==> Forward(streams[i]).ending != Blocked
    decreases |streams|
  {
    if |streams| == 0 then Incoming([], 0)
    else
      var relayed := Forward(streams[0]);
      var here := if subscribed then relayed.chunks else [];
      if relayed.ending == Blocked then Incoming(here, 1)
      else
        var rest := HandleIncoming(streams[1..], subscribed);
        assert streams[..rest.acquired + 1][1..] == streams[1..][..rest.acquired];
        Incoming(here + rest.delivered, rest.acquired + 1)
  }

  /** The incoming loop re-acquires its stream after every end of stream or
      IOException: when each stream ends that way, every one of them is reached. */
  lemma IncomingReachesAll(streams: Streams, subscribed: bool)
    requires forall i :: 0 <= i < |streams| ==> Forward(streams[i]).ending != Blocked
    ensures HandleIncoming(streams, subscribed).acquired == |streams|
  {
  }
}
