/** One accepted local connection (Multiplexer/Client.cs).

    A client owns a downlink queue and a source linked to the session token current
    when it was constructed. Its two loops are the shared relay shapes of `Relay`,
    each guarded by ThrowIfCancellationRequested; when either ends, `Finish` cancels
    the client's own source and Dispose then invokes the OnClose hook, which the
    acceptor uses to unregister it (see `ClientServer.ClientExit`). */
module Client {
  import opened Io
  import opened Cancellation
  import opened Relay

  datatype ClientRec = ClientRec(link: LinkedSource, downlink: seq<Chunk>)

  /** The constructor: link to the external token and start with an empty queue. */
  function Create(external: Token): (c: ClientRec)
    ensures c.downlink == []
    ensures c.link.parent == external
    ensures forall src: RotatingSource :: LinkedCancelled(c.link, src) <==> TokenCancelled(external, src)
  {
    ClientRec(Link(external), [])
  }

  /** HandleUplink: throws before any read if the client is already cancelled;
      otherwise forwards each positive read as one `upload` call. `None` is the
      early throw. */
  function HandleUplink(c: ClientRec, src: RotatingSource, script: seq<ReadStep>): (r: Option<Relayed>)
    ensures r.None? <==> LinkedCancelled(c.link, src)
    ensures r.Some? ==> Relays(script, r.value)
  {
    ForwardUnlessCancelled(LinkedCancelled(c.link, src), script)
  }

  /** HandleDownlink: throws before taking anything if the client is already
      cancelled; otherwise writes the downlink queue in FIFO order, each chunk whole. */
  function HandleDownlink(c: ClientRec, src: RotatingSource, writes: seq<WriteStep>): (r: Option<Drained>)
    ensures r.None? <==> LinkedCancelled(c.link, src)
    ensures r.Some? ==> Drains(c.downlink, writes, r.value)
  {
    DrainUnlessCancelled(LinkedCancelled(c.link, src), c.downlink, writes)
  }

  /** The `finally` of Start: cancel the client's own source so the other loop stops.
      The session's source is not an input: the child's cancel cannot reach it. */
  function Finish(c: ClientRec): (r: ClientRec)
    ensures r.link.parent == c.link.parent && r.downlink == c.downlink
    ensures forall src: RotatingSource :: LinkedCancelled(r.link, src)
  {
    c.(link := CancelLinked(c.link))
  }
}
