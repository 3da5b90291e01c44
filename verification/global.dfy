/** The session state shared by every component (Multiplexer/Global.cs): the upload
    queue, the client registry, the registered remote and the rotating cancellation
    source.

    The registry is a ConcurrentDictionary used as a set: every entry is written with
    the value 0, so only its keys carry meaning and the model keys it by client id.
    The value it maps to is the client's own state (downlink queue and linked source).
    Client ids come from a counter, standing for the fresh object every accept makes.

    `Remote`, `RegisterRemote` and `ResetUploadQueue` are used by the control channel
    and the acceptor but are not defined in Global.cs; they are modelled from their call
    sites. No remote is represented by `Unregistered`, whose `Connected` reads false,
    because callers read `Remote.Connected` without a null check. */
module Global {
  import opened Io
  import Cancellation
  import Client
  import Remote

  type ClientId = nat

  datatype RemoteSlot = Unregistered | Registered(conn: Remote.RemoteConn)

  datatype Session = Session(
    uploadQueue: seq<Chunk>,
    clients: map<ClientId, Client.ClientRec>,
    remote: RemoteSlot,
    cts: Cancellation.RotatingSource,
    nextClient: ClientId)

  /** What every reachable session satisfies: the current source is live, ids are
      below the allocation counter, and everything was linked to a token the session
      has already handed out. */
  predicate Valid(s: Session)
  {
    && !s.cts.cancelled
    && (forall id :: id in s.clients ==>
          id < s.nextClient && s.clients[id].link.parent.gen <= s.cts.gen)
    && (s.remote.Registered? ==> s.remote.conn.link.parent.gen <= s.cts.gen)
  }

  function Init(): (s: Session)
    ensures Valid(s)
    ensures s.uploadQueue == [] && s.clients == map[] && !RemoteConnected(s)
  {
    Session([], map[], Unregistered, Cancellation.Initial(), 0)
  }

  /** The ids of the registered clients: all the registry means. */
  function Members(s: Session): set<ClientId>
  {
    s.clients.Keys
  }

  /** `glob.Remote.Connected`, read without a null check: the placeholder standing for
      no remote reads as not connected. */
  predicate RemoteConnected(s: Session): (b: bool)
    ensures s.remote.Unregistered? ==> !b
  {
    s.remote.Registered? && Remote.Connected(s.remote.conn)
  }

  /** The `CancellationToken` property: always the token of the current source, which
      in a reachable session is not cancelled. */
  function CancellationToken(s: Session): (t: Cancellation.Token)
    ensures t.gen == s.cts.gen
    ensures Valid(s) ==> !Cancellation.TokenCancelled(t, s.cts)
  {
    Cancellation.CurrentToken(s.cts)
  }

  predicate ClientCancelled(s: Session, id: ClientId)
    requires id in s.clients
  {
    Cancellation.LinkedCancelled(s.clients[id].link, s.cts)
  }

  /** Global.Cancel: rotate the source. Every client and the registered remote, all
      linked to tokens handed out earlier, are cancelled afterwards, and the fresh
      current token is not. Queue, registry and remote are untouched. */
  function Cancel(s: Session): (r: Session)
    ensures r.uploadQueue == s.uploadQueue && r.clients == s.clients
    ensures r.remote == s.remote && r.nextClient == s.nextClient
    ensures s.cts.cancelled ==> r == s
    ensures Valid(s) ==> Valid(r) && r.cts.gen > s.cts.gen
    ensures Valid(s) ==> !Cancellation.TokenCancelled(CancellationToken(r), r.cts)
    ensures Valid(s) ==> forall id :: id in r.clients ==> ClientCancelled(r, id)
    ensures Valid(s) && r.remote.Registered? ==> Cancellation.LinkedCancelled(r.remote.conn.link, r.cts)
  {
    s.(cts := Cancellation.Cancel(s.cts))
  }

  /** ResetUploadQueue: drop every pending upload; nothing else changes. */
  function ResetUploadQueue(s: Session): (r: Session)
    ensures r.uploadQueue == []
    ensures r.clients == s.clients && r.remote == s.remote && r.cts == s.cts && r.nextClient == s.nextClient
    ensures Valid(s) ==> Valid(r)
  {
    s.(uploadQueue := [])
  }

  /** RegisterRemote(x): install x; `Unregistered` stands for `null`. */
  function RegisterRemote(s: Session, slot: RemoteSlot): (r: Session)
    ensures r.remote == slot
    ensures r.uploadQueue == s.uploadQueue && r.clients == s.clients && r.cts == s.cts && r.nextClient == s.nextClient
    ensures RemoteConnected(r) <==> slot.Registered? && Remote.Connected(slot.conn)
  {
    s.(remote := slot)
  }
}
