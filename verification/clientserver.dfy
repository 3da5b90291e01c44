/** The acceptor (Multiplexer/ClientServer.cs): registers every accepted client,
    unregisters it through OnClose, and routes its uplink chunks into the upload queue
    only while a remote is connected. */
module ClientServer {
  import opened Io
  import opened Global
  import Cancellation
  import Client
  import Relay

  /** One iteration of Run's accept loop: construct a client linked to the session's
      current token and register it. Returns the new client's id. */
  function Accept(s: Session): (r: (Session, ClientId))
    ensures Members(r.0) == Members(s) + {r.1}
    ensures forall id :: id in s.clients && id != r.1 ==> r.0.clients[id] == s.clients[id]
    ensures r.0.clients[r.1] == Client.Create(CancellationToken(s))
    ensures r.0.uploadQueue == s.uploadQueue && r.0.remote == s.remote && r.0.cts == s.cts
    ensures Valid(s) ==> r.1 !in Members(s) && |Members(r.0)| == |Members(s)| + 1
    ensures Valid(s) ==> Valid(r.0) && !ClientCancelled(r.0, r.1)
  {
    var id := s.nextClient;
    (s.(clients := s.clients[id := Client.Create(CancellationToken(s))], nextClient := id + 1), id)
  }

  /** The `upload` callback: enqueue at the tail while the remote is connected,
      otherwise drop the chunk. */
  function Upload(s: Session, data: Chunk): (r: Session)
    ensures RemoteConnected(s) ==> r.uploadQueue == s.uploadQueue + [data]
    ensures !RemoteConnected(s) ==> r == s
    ensures r.clients == s.clients && r.remote == s.remote && r.cts == s.cts && r.nextClient == s.nextClient
    ensures Valid(s) ==> Valid(r)
  {
    if RemoteConnected(s) then s.(uploadQueue := s.uploadQueue + [data]) else s
  }

  /** A client's uplink loop calling `upload` once per forwarded chunk. */
  function UploadAll(s: Session, chunks: seq<Chunk>): Session
    decreases |chunks|
  {
    if |chunks| == 0 then s else UploadAll(Upload(s, chunks[0]), chunks[1..])
  }

  /** With a connected remote, a client's chunks reach the queue's tail in the order
      the client produced them, after everything already queued. */
  lemma {:induction false} UploadAllConnected(s: Session, chunks: seq<Chunk>)
    requires RemoteConnected(s)
    ensures UploadAll(s, chunks) == s.(uploadQueue := s.uploadQueue + chunks)
    decreases |chunks|
  {
    if |chunks| > 0 {
      var s1 := Upload(s, chunks[0]);
      UploadAllConnected(s1, chunks[1..]);
      assert s.uploadQueue + [chunks[0]] + chunks[1..] == s.uploadQueue + chunks;
    }
  }

  /** Without a connected remote, everything a client produces is dropped. */
  lemma {:induction false} UploadAllDisconnected(s: Session, chunks: seq<Chunk>)
    requires !RemoteConnected(s)
    ensures UploadAll(s, chunks) == s
    decreases |chunks|
  {
    if |chunks| > 0 {
      UploadAllDisconnected(Upload(s, chunks[0]), chunks[1..]);
    }
  }

  /** The OnClose hook: TryRemove exactly that client; an absent one is a no-op. */
  function OnClose(s: Session, id: ClientId): (r: Session)
    ensures Members(r) == Members(s) - {id}
    ensures forall other :: other in r.clients ==> r.clients[other] == s.clients[other]
    ensures id !in s.clients ==> r == s
    ensures r.uploadQueue == s.uploadQueue && r.remote == s.remote && r.cts == s.cts && r.nextClient == s.nextClient
    ensures Valid(s) ==> Valid(r)
  {
    s.(clients := s.clients - {id})
  }

  /** A registered client's Start ending: its own source is cancelled, then Dispose
      invokes OnClose. Returns the session and the client's final state. */
  function ClientExit(s: Session, id: ClientId): (r: (Session, Client.ClientRec))
    requires id in s.clients
    ensures Members(r.0) == Members(s) - {id}
    ensures forall src: Cancellation.RotatingSource :: Cancellation.LinkedCancelled(r.1.link, src)
    ensures r.1.link.parent == s.clients[id].link.parent
    ensures r.0.cts == s.cts && r.0.remote == s.remote && r.0.uploadQueue == s.uploadQueue
    ensures forall other :: other in r.0.clients ==> r.0.clients[other] == s.clients[other]
    ensures Valid(s) ==> Valid(r.0)
  {
    var closed := Client.Finish(s.clients[id]);
    (OnClose(s, id), closed)
  }

  /** A registered client's downlink loop: it throws before taking anything when the
      client is cancelled; otherwise it takes from that client's downlink queue in
      FIFO order, and what it did not take stays queued. No other client and nothing
      else in the session changes. */
  function DrainClient(s: Session, id: ClientId, writes: seq<Relay.WriteStep>): (r: (Session, Option<Relay.Drained>))
    requires id in s.clients
    ensures r.1.None? <==> ClientCancelled(s, id)
    ensures r.1.Some? ==> Relay.Drains(s.clients[id].downlink, writes, r.1.value)
    ensures Members(r.0) == Members(s)
    ensures r.0.clients[id].link == s.clients[id].link
    ensures r.0.clients[id].downlink == if r.1.Some? then r.1.value.remaining else s.clients[id].downlink
    ensures forall other :: other in s.clients && other != id ==> r.0.clients[other] == s.clients[other]
    ensures r.0.uploadQueue == s.uploadQueue && r.0.remote == s.remote && r.0.cts == s.cts
    ensures r.0.nextClient == s.nextClient
    ensures Valid(s) ==> Valid(r.0)
  {
    var c := s.clients[id];
    var drained := Client.HandleDownlink(c, s.cts, writes);
    if drained.None? then (s, None)
    else (s.(clients := s.clients[id := c.(downlink := drained.value.remaining)]), drained)
  }

  /** OnClose for several clients in turn. */
  function CloseAll(s: Session, ids: seq<ClientId>): Session
    decreases |ids|
  {
    if |ids| == 0 then s else CloseAll(OnClose(s, ids[0]), ids[1..])
  }

  lemma {:induction false} CloseAllMembers(s: Session, ids: seq<ClientId>)
    ensures Members(CloseAll(s, ids)) == Members(s) - set i | i in ids
    ensures CloseAll(s, ids).cts == s.cts && CloseAll(s, ids).remote == s.remote
    decreases |ids|
  {
    if |ids| > 0 {
      CloseAllMembers(OnClose(s, ids[0]), ids[1..]);
      assert (set i | i in ids) == {ids[0]} + set i | i in ids[1..];
    }
  }

  /** A client accepted before an effective cancel is cancelled by it. */
  lemma AcceptThenCancel(s: Session)
    requires Valid(s)
    ensures var (s1, id) := Accept(s); id in Cancel(s1).clients && ClientCancelled(Cancel(s1), id)
  {
  }

  /** A client accepted after a cancel is linked to the fresh token and is live. */
  lemma CancelThenAccept(s: Session)
    requires Valid(s)
    ensures var (s1, id) := Accept(Cancel(s)); id in s1.clients && !ClientCancelled(s1, id)
  {
  }
}
