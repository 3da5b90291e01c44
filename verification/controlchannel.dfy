/** The command dispatch and the remote's lifecycle (Multiplexer/ControlChannel.cs).

    Commands arrive already split into tokens. `connect` while disconnected resets the
    upload queue and asks for a remote start with the remaining tokens; the start
    itself (`StartServer`) is a separate transition, because it runs as a
    fire-and-forget task. The remote's `receive` callback appends every inbound chunk
    to every registered client's downlink queue. */
module ControlChannel {
  import opened Io
  import opened Global
  import Cancellation
  import Relay
  import Remote
  import ClientServer

  /** What `info`/`stats` print: the registered remote (its `Connected` flag and its
      address, absent when none is registered), the clients and the queue. */
  datatype Snapshot = Snapshot(
    remoteConnected: bool,
    remoteAddress: Option<(string, string)>,
    clients: set<ClientId>,
    uploadQueue: seq<Chunk>)

  /** What a command asks of the world besides its state change. */
  datatype Effect = NoEffect | StartRemote(args: seq<string>) | Report(snapshot: Snapshot)

  datatype Step = Step(session: Session, effect: Effect, quit: bool)

  function DumpStats(s: Session): (r: Snapshot)
    ensures r.remoteConnected <==> RemoteConnected(s)
    ensures r.remoteAddress.Some? <==> s.remote.Registered?
    ensures r.remoteAddress.Some? ==> r.remoteAddress.value == (s.remote.conn.host, s.remote.conn.port)
    ensures r.clients == Members(s) && r.uploadQueue == s.uploadQueue
  {
    var address := if s.remote.Registered? then Some((s.remote.conn.host, s.remote.conn.port)) else None;
    Snapshot(RemoteConnected(s), address, Members(s), s.uploadQueue)
  }

  /** One iteration of HandleCommands on a split command line (String.Split never
      yields an empty array). */
  function Dispatch(s: Session, toks: seq<string>): (r: Step)
    requires |toks| > 0
    ensures r.quit <==> toks[0] == "quit"
    ensures r.effect.StartRemote? <==> toks[0] == "connect" && !RemoteConnected(s)
    ensures r.effect.StartRemote? ==> r.effect.args == toks[1..] && r.session == ResetUploadQueue(s)
    ensures toks[0] == "connect" && RemoteConnected(s) ==> r.session == s && r.effect == NoEffect
    ensures toks[0] == "disconnect" ==>
      r.effect == NoEffect && r.session == (if RemoteConnected(s) then Global.Cancel(s) else s)
    ensures toks[0] == "info" || toks[0] == "stats" ==> r.session == s && r.effect == Report(DumpStats(s))
    ensures toks[0] == "quit" ==> r.session == Global.Cancel(s) && r.effect == NoEffect
    ensures toks[0] !in ["connect", "disconnect", "info", "stats", "quit"] ==> r.session == s && r.effect == NoEffect
    ensures Valid(s) ==> Valid(r.session)
  {
    match toks[0]
    case "connect" =>
      if RemoteConnected(s) then Step(s, NoEffect, false)
      else Step(ResetUploadQueue(s), StartRemote(toks[1..]), false)
    case "disconnect" =>
      if RemoteConnected(s) then Step(Global.Cancel(s), NoEffect, false)
      else Step(s, NoEffect, false)
    case "info" => Step(s, Report(DumpStats(s)), false)
    case "stats" => Step(s, Report(DumpStats(s)), false)
    case "quit" => Step(Global.Cancel(s), NoEffect, true)
    case _ => Step(s, NoEffect, false)
  }

  predicate IsQuit(toks: seq<string>)
  {
    |toks| > 0 && toks[0] == "quit"
  }

  datatype RunResult = RunResult(session: Session, handled: nat, effects: seq<Effect>, quit: bool)

  /** HandleCommands: dispatch commands in order until one of them is `quit`. */
  function Run(s: Session, cmds: seq<seq<string>>): (r: RunResult)
    requires forall i :: 0 <= i < |cmds| ==> |cmds[i]| > 0
    ensures r.handled <= |cmds| && |r.effects| == r.handled
    ensures r.quit ==> 0 < r.handled && IsQuit(cmds[r.handled - 1])
    ensures r.quit ==> forall i :: 0 <= i < r.handled - 1 ==> !IsQuit(cmds[i])
    ensures !r.quit ==> r.handled == |cmds| && forall i :: 0 <= i < |cmds| ==> !IsQuit(cmds[i])
    ensures Valid(s) ==> Valid(r.session)
    decreases |cmds|
  {
    if |cmds| == 0 then RunResult(s, 0, [], false)
    else
      var step := Dispatch(s, cmds[0]);
      if step.quit then RunResult(step.session, 1, [step.effect], true)
      else
        var rest := Run(step.session, cmds[1..]);
        RunResult(rest.session, rest.handled + 1, [step.effect] + rest.effects, rest.quit)
  }

  /** Commands are dispatched one after the other: one more command after a run that
      has not quit is dispatched on the session that run left, its effect is
      appended, and it decides whether the loop quits. With `Run(s, [])` handling
      nothing, this fixes every run as the in-order dispatch of its commands. */
  lemma {:induction false} RunSnoc(s: Session, cmds: seq<seq<string>>, c: seq<string>)
    requires forall i :: 0 <= i < |cmds| ==> |cmds[i]| > 0
    requires |c| > 0
    requires !Run(s, cmds).quit
    ensures Run(s, []) == RunResult(s, 0, [], false)
    ensures var prev := Run(s, cmds); var step := Dispatch(prev.session, c);
      Run(s, cmds + [c]) == RunResult(step.session, prev.handled + 1, prev.effects + [step.effect], step.quit)
    decreases |cmds|
  {
    if |cmds| == 0 {
      assert cmds + [c] == [c];
      assert [c][1..] == [];
    } else {
      var step0 := Dispatch(s, cmds[0]);
      assert (cmds + [c])[0] == cmds[0];
      assert (cmds + [c])[1..] == cmds[1..] + [c];
      RunSnoc(step0.session, cmds[1..], c);
    }
  }

  /** Nothing after a `quit` is processed: appending commands changes nothing. */
  lemma {:induction false} RunStopsAtQuit(s: Session, cmds: seq<seq<string>>, later: seq<seq<string>>)
    requires forall i :: 0 <= i < |cmds| ==> |cmds[i]| > 0
    requires forall i :: 0 <= i < |later| ==> |later[i]| > 0
    requires Run(s, cmds).quit
    ensures Run(s, cmds + later) == Run(s, cmds)
    decreases |cmds|
  {
    var step := Dispatch(s, cmds[0]);
    assert (cmds + later)[0] == cmds[0];
    if !step.quit {
      assert (cmds + later)[1..] == cmds[1..] + later;
      RunStopsAtQuit(step.session, cmds[1..], later);
    }
  }

  /** How the `StartServer` task begins: missing tokens or a refused connection
      (including an unparsable port) throw before anything is registered, so neither
      the remote nor the cancellation source changes. */
  datatype ConnectOutcome = Refused | Established

  /** StartServer up to RegisterRemote(server): the new remote is linked to the token
      current at this moment. */
  function StartServer(s: Session, args: seq<string>, outcome: ConnectOutcome): (r: Session)
    ensures |args| < 2 || outcome == Refused ==> r == s
    ensures |args| >= 2 && outcome == Established ==>
      && r.remote == Registered(Remote.Create(CancellationToken(s), args[0], args[1]))
      && RemoteConnected(r)
    ensures r.uploadQueue == s.uploadQueue && r.clients == s.clients && r.cts == s.cts
    ensures Valid(s) ==> Valid(r)
  {
    if |args| < 2 || outcome == Refused then s
    else RegisterRemote(s, Registered(Remote.Create(CancellationToken(s), args[0], args[1])))
  }

  /** The `finally` of StartServer: unregister the remote, then cancel the session,
      which cancels every client. Queue and registry are left to the clients' own
      exits. */
  function RemoteTerminated(s: Session): (r: Session)
    ensures r.remote == Unregistered && !RemoteConnected(r)
    ensures r.uploadQueue == s.uploadQueue && r.clients == s.clients
    ensures Valid(s) ==> Valid(r) && r.cts.gen > s.cts.gen
    ensures Valid(s) ==> forall id :: id in r.clients ==> ClientCancelled(r, id)
  {
    Global.Cancel(RegisterRemote(s, Unregistered))
  }

  /** The `receive` callback: append the chunk to every registered client's downlink
      queue. */
  function Receive(s: Session, data: Chunk): (r: Session)
    ensures Members(r) == Members(s)
    ensures forall id :: id in s.clients ==>
      r.clients[id].downlink == s.clients[id].downlink + [data] && r.clients[id].link == s.clients[id].link
    ensures r.uploadQueue == s.uploadQueue && r.remote == s.remote && r.cts == s.cts && r.nextClient == s.nextClient
    ensures Valid(s) ==> Valid(r)
  {
    s.(clients := map id | id in s.clients :: s.clients[id].(downlink := s.clients[id].downlink + [data]))
  }

  /** `receive` called once per chunk the remote forwards. */
  function ReceiveAll(s: Session, chunks: seq<Chunk>): Session
    decreases |chunks|
  {
    if |chunks| == 0 then s else ReceiveAll(Receive(s, chunks[0]), chunks[1..])
  }

  /** Every registered client receives every inbound chunk, in order, and nothing else
      in the session changes. */
  lemma {:induction false} ReceiveAllFansOut(s: Session, chunks: seq<Chunk>)
    ensures var r := ReceiveAll(s, chunks);
      && Members(r) == Members(s)
      && (forall id :: id in s.clients ==>
            r.clients[id].downlink == s.clients[id].downlink + chunks && r.clients[id].link == s.clients[id].link)
      && r.uploadQueue == s.uploadQueue && r.remote == s.remote && r.cts == s.cts && r.nextClient == s.nextClient
      && (Valid(s) ==> Valid(r))
    decreases |chunks|
  {
    if |chunks| > 0 {
      var s1 := Receive(s, chunks[0]);
      ReceiveAllFansOut(s1, chunks[1..]);
      forall id | id in s.clients
        ensures s1.clients[id].downlink + chunks[1..] == s.clients[id].downlink + chunks
      {
        assert [chunks[0]] + chunks[1..] == chunks;
        assert s1.clients[id].downlink + chunks[1..] == s.clients[id].downlink + ([chunks[0]] + chunks[1..]);
      }
    }
  }

  /** The remote's downlink loop wired to `receive`: a cancelled remote forwards
      nothing; otherwise every chunk the loop forwards reaches every registered
      client's downlink queue, in order, and nothing else in the session changes. */
  function PumpDownlink(s: Session, conn: Remote.RemoteConn, script: seq<Relay.ReadStep>): (r: (Session, Option<Relay.Relayed>))
    ensures r.1.None? <==> Cancellation.LinkedCancelled(conn.link, s.cts)
    ensures r.1.Some? ==> Relay.Relays(script, r.1.value)
    ensures Members(r.0) == Members(s)
    ensures forall id :: id in s.clients ==>
      && r.0.clients[id].downlink == s.clients[id].downlink + (if r.1.Some? then r.1.value.chunks else [])
      && r.0.clients[id].link == s.clients[id].link
    ensures r.0.uploadQueue == s.uploadQueue && r.0.remote == s.remote && r.0.cts == s.cts
    ensures r.0.nextClient == s.nextClient
    ensures Valid(s) ==> Valid(r.0)
  {
    var relayed := Remote.HandleDownlink(conn, s.cts, script);
    if relayed.None? then (s, None)
    else
      ReceiveAllFansOut(s, relayed.value.chunks);
      (ReceiveAll(s, relayed.value.chunks), relayed)
  }

  /** The remote's uplink loop draining the shared upload queue. */
  function PumpUplink(s: Session, conn: Remote.RemoteConn, writes: seq<Relay.WriteStep>): (r: (Session, Option<Relay.Drained>))
    ensures r.1.None? <==> Cancellation.LinkedCancelled(conn.link, s.cts)
    ensures r.1.None? ==> r.0 == s
    ensures r.1.Some? ==> Relay.Drains(s.uploadQueue, writes, r.1.value) && r.0.uploadQueue == r.1.value.remaining
    ensures r.0.clients == s.clients && r.0.remote == s.remote && r.0.cts == s.cts && r.0.nextClient == s.nextClient
    ensures Valid(s) ==> Valid(r.0)
  {
    var drained := Remote.HandleUplink(conn, s.cts, s.uploadQueue, writes);
    if drained.None? then (s, None) else (s.(uploadQueue := drained.value.remaining), drained)
  }

  /** At most one remote: a `connect` while connected starts nothing and changes
      nothing, so a running remote is never replaced by a command. */
  lemma ConnectWhileConnectedRejected(s: Session, toks: seq<string>)
    requires |toks| > 0 && toks[0] == "connect" && RemoteConnected(s)
    ensures !Dispatch(s, toks).effect.StartRemote? && Dispatch(s, toks).session == s
  {
  }

  /** Data a client sends while no remote is connected never reaches a remote that
      connects later: it was dropped, and the queue the new remote drains starts empty. */
  lemma DroppedWhileDisconnected(s: Session, chunks: seq<Chunk>, args: seq<string>, outcome: ConnectOutcome)
    requires !RemoteConnected(s)
    ensures var step := Dispatch(ClientServer.UploadAll(s, chunks), ["connect"] + args);
      && step.effect == StartRemote(args)
      && StartServer(step.session, step.effect.args, outcome).uploadQueue == []
  {
    ClientServer.UploadAllDisconnected(s, chunks);
    assert (["connect"] + args)[1..] == args;
  }

  /** No reordering per source: with a connected, uncancelled remote, chunks one client uploads are
      written to the remote after what was already queued, in the order produced. */
  lemma ClientOrderReachesRemote(s: Session, chunks: seq<Chunk>, writes: seq<Relay.WriteStep>)
    requires RemoteConnected(s) && !Cancellation.LinkedCancelled(s.remote.conn.link, s.cts)
    requires |writes| >= |s.uploadQueue| + |chunks|
    requires forall i :: 0 <= i < |writes| ==> writes[i] == Relay.WriteOk
    ensures PumpUplink(ClientServer.UploadAll(s, chunks), s.remote.conn, writes).1
      == Some(Relay.Drained(s.uploadQueue + chunks, [], Relay.Blocked))
  {
    ClientServer.UploadAllConnected(s, chunks);
    Relay.DrainHealthy(s.uploadQueue + chunks, writes);
  }

  /** No reordering towards a client: with a live remote, a live client and healthy
      writes, the client's socket receives what was already queued for it and then
      every chunk the remote read, in the order read. */
  lemma RemoteOrderReachesClient(s: Session, conn: Remote.RemoteConn, script: seq<Relay.ReadStep>,
                                 id: ClientId, writes: seq<Relay.WriteStep>)
    requires id in s.clients && !ClientCancelled(s, id)
    requires !Cancellation.LinkedCancelled(conn.link, s.cts)
    requires |writes| >= |s.clients[id].downlink| + |Relay.Forward(script).chunks|
    requires forall i :: 0 <= i < |writes| ==> writes[i] == Relay.WriteOk
    ensures var p := PumpDownlink(s, conn, script).0;
      && id in p.clients
      && ClientServer.DrainClient(p, id, writes).1
           == Some(Relay.Drained(s.clients[id].downlink + Relay.Forward(script).chunks, [], Relay.Blocked))
  {
    var (p, relayed) := PumpDownlink(s, conn, script);
    Relay.RelaysUnique(script, relayed.value, Relay.Forward(script));
    var queue := s.clients[id].downlink + Relay.Forward(script).chunks;
    assert p.clients[id].downlink == queue;
    Relay.DrainHealthy(queue, writes);
  }

  /** Cascade on remote loss: after teardown every client is cancelled, so each exits,
      and once each has run OnClose the registry is empty. */
  lemma CascadeOnRemoteLoss(s: Session, exits: seq<ClientId>)
    requires Valid(s)
    requires forall id :: id in s.clients ==> id in exits
    ensures var r := RemoteTerminated(s);
      && (forall id :: id in r.clients ==> ClientCancelled(r, id))
      && Members(ClientServer.CloseAll(r, exits)) == {}
      && !RemoteConnected(ClientServer.CloseAll(r, exits))
  {
    var r := RemoteTerminated(s);
    ClientServer.CloseAllMembers(r, exits);
  }

  /** Everything that moves the session, whichever thread does it: the acceptor, a
      client's uplink, its downlink and its exit, a command, the StartServer task and its `finally`,
      and the registered remote's two loops. */
  datatype Event =
    | AcceptClient
    | ClientUpload(data: Chunk)
    | ClientDrains(id: ClientId, writes: seq<Relay.WriteStep>)
    | ClientExits(id: ClientId)
    | Command(toks: seq<string>)
    | RemoteStarts(args: seq<string>, outcome: ConnectOutcome)
    | RemoteEnds
    | RemoteReceives(script: seq<Relay.ReadStep>)
    | RemoteSends(writes: seq<Relay.WriteStep>)

  /** Only a registered client drains or exits, a command line has a first token, and only a
      registered remote runs its loops. */
  predicate Enabled(s: Session, e: Event)
  {
    match e
    case ClientDrains(id, _) => id in s.clients
    case ClientExits(id) => id in s.clients
    case Command(toks) => |toks| > 0
    case RemoteReceives(_) => s.remote.Registered?
    case RemoteSends(_) => s.remote.Registered?
    case _ => true
  }

  function Apply(s: Session, e: Event): (r: Session)
    requires Enabled(s, e)
    ensures Valid(s) ==> Valid(r)
  {
    match e
    case AcceptClient => ClientServer.Accept(s).0
    case ClientUpload(data) => ClientServer.Upload(s, data)
    case ClientDrains(id, writes) => ClientServer.DrainClient(s, id, writes).0
    case ClientExits(id) => ClientServer.ClientExit(s, id).0
    case Command(toks) => Dispatch(s, toks).session
    case RemoteStarts(args, outcome) => StartServer(s, args, outcome)
    case RemoteEnds => RemoteTerminated(s)
    case RemoteReceives(script) => PumpDownlink(s, s.remote.conn, script).0
    case RemoteSends(writes) => PumpUplink(s, s.remote.conn, writes).0
  }

  /** The session after a sequence of events, or None when one of them is not enabled
      in the session reached so far. */
  function Trace(s: Session, es: seq<Event>): Option<Session>
    decreases |es|
  {
    if |es| == 0 then Some(s)
    else if !Enabled(s, es[0]) then None
    else Trace(Apply(s, es[0]), es[1..])
  }

  /** Every session reachable from a valid one satisfies Valid. */
  lemma {:induction false} TraceKeepsValid(s: Session, es: seq<Event>)
    requires Valid(s)
    ensures Trace(s, es).Some? ==> Valid(Trace(s, es).value)
    decreases |es|
  {
    if |es| > 0 && Enabled(s, es[0]) {
      TraceKeepsValid(Apply(s, es[0]), es[1..]);
    }
  }

  /** In every session reachable from start-up, the `CancellationToken` handed to a
      newly accepted client or a newly started remote is live. */
  lemma ReachableTokenLive(es: seq<Event>)
    ensures var r := Trace(Init(), es);
      r.Some? ==> Valid(r.value) && !Cancellation.TokenCancelled(CancellationToken(r.value), r.value.cts)
  {
    TraceKeepsValid(Init(), es);
  }
}
