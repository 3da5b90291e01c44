/** The connection to the remote server (Multiplexer/Remote.cs).

    A remote owns a TCP connection and a source linked to the session token current
    when it was constructed. Its downlink loop forwards socket reads to `receive`; its
    uplink loop drains the shared upload queue into the socket. When either ends,
    `Finish` cancels the linked source and disposes the connection. */
module Remote {
  import opened Io
  import opened Cancellation
  import opened Relay

  /** `tcpConnected` is TcpClient.Connected; `host` and `port` are the target. */
  datatype RemoteConn = RemoteConn(link: LinkedSource, tcpConnected: bool, host: string, port: string)

  /** The constructor, after `new TcpClient(host, port)` has connected. */
  function Create(external: Token, host: string, port: string): (c: RemoteConn)
    ensures Connected(c)
    ensures c.link.parent == external && c.host == host && c.port == port
    ensures forall src: RotatingSource :: LinkedCancelled(c.link, src) <==> TokenCancelled(external, src)
  {
    RemoteConn(Link(external), true, host, port)
  }

  /** The `Connected` property reports the TCP client's state. */
  predicate Connected(c: RemoteConn)
  {
    c.tcpConnected
  }

  /** HandleDownlink: throws before any read when already cancelled; otherwise passes
      each positive read to `receive`, in order, stopping at the first empty read. */
  function HandleDownlink(c: RemoteConn, src: RotatingSource, script: seq<ReadStep>): (r: Option<Relayed>)
    ensures r.None? <==> LinkedCancelled(c.link, src)
    ensures r.Some? ==> Relays(script, r.value)
  {
    ForwardUnlessCancelled(LinkedCancelled(c.link, src), script)
  }

  /** HandleUplink: throws before taking anything when already cancelled; otherwise
      takes chunks from the shared queue in FIFO order and writes each whole. */
  function HandleUplink(c: RemoteConn, src: RotatingSource, queue: seq<Chunk>, writes: seq<WriteStep>): (r: Option<Drained>)
    ensures r.None? <==> LinkedCancelled(c.link, src)
    ensures r.Some? ==> Drains(queue, writes, r.value)
  {
    DrainUnlessCancelled(LinkedCancelled(c.link, src), queue, writes)
  }

  /** The `finally` of Start: cancel the linked source, then Dispose, which closes the
      TCP client. The external token is not an input and is left alone. */
  function Finish(c: RemoteConn): (r: RemoteConn)
    ensures !Connected(r)
    ensures r.link.parent == c.link.parent && r.host == c.host && r.port == c.port
    ensures forall src: RotatingSource :: LinkedCancelled(r.link, src)
  {
    c.(link := CancelLinked(c.link), tcpConnected := false)
  }
}
