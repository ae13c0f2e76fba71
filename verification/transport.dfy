/** The connection lifecycle of `SteamworksTransport`: the registry of live
    connections (handle to record), the FIFO pool of free records, the three
    SDK status events that move records between them, the send path and the
    client's `Connect` guard.

    Every call into the relay SDK or the host engine is an `Effect` in the
    trace a transition returns; the exceptions the C# code can raise
    (`Queue.Dequeue` on an empty queue, a dictionary indexer on a missing
    key) are the `Threw` outcome, and leave the state as it was. */
module Transport {
  import opened Common
  import opened TextParsing

  /** `HSteamNetConnection`, an opaque 32-bit handle issued by the SDK. */
  type Handle = u32

  /** A 64-bit Steam identity. */
  type SteamId = u64

  /** The serialized send-mode setting of the transport provider. */
  datatype SteamSendType = Unreliable | Reliable | NoNagle | NoDelay

  /** The SDK's `k_nSteamNetworkingSend_*` flags the transport can pick. */
  datatype SendFlag =
    | SendUnreliable
    | SendReliable
    | SendUnreliableNoNagle
    | SendUnreliableNoDelay

  /** The engine's per-call delivery method for user payloads. */
  datatype DeliveryMethod = UnreliableDelivery | ReliableDelivery

  /** `ESteamNetworkingConnectionState`. */
  datatype ConnState =
    | StateNone
    | Connecting
    | FindingRoute
    | Connected
    | ClosedByPeer
    | ProblemDetectedLocally
    | FinWait
    | Linger
    | Dead

  /** One `SteamNetConnectionStatusChangedCallback_t`: the handle, the
      remote identity's 64-bit id and the new state. */
  datatype StatusChange = StatusChange(conn: Handle, remote: SteamId, state: ConnState)

  /** What the engine reports when a status event is handled:
      `Engine.ConnectedPlayers.Count` and `Engine.MaxClients`. */
  datatype EngineView = EngineView(connectedPlayers: nat, maxClients: nat)

  /** The two fields of a `SteamworksConnection` object the transport uses:
      the SDK handle and the remote player's id. */
  datatype Connection = Connection(conn: Handle, playerSteamId: SteamId)

  /** A reference to a `SteamworksConnection` object. Objects are mutable in
      the source: a record taken from the pool is overwritten in place, so
      every holder of the reference (the engine included) sees the new
      fields. The transport's `heap` maps each reference to its fields. */
  type ConnRef = nat

  /** The reason strings passed to `CloseConnection`. */
  datatype CloseReason = MaxConnectionCount | GracefulDisconnect | DisconnectedByServer

  /** `TransportDisconnectReason`; the transport only ever reports `Timeout`. */
  datatype DisconnectReason = Timeout

  /** Which status callback is subscribed. */
  datatype Callback = NoCallback | ServerCallback | ClientCallback

  datatype RunMode = ServerMode | ClientMode

  /** Calls into the relay SDK and notifications to the engine. */
  datatype Effect =
    | InitRelayNetworkAccess
    | CreateListenSocket
    | ServerStarted
    | ClientStarted
    | AcceptConnection(conn: Handle)
    | CloseConnection(conn: Handle, reason: CloseReason)
    | SendMessage(conn: Handle, payload: seq<byte>, flag: SendFlag)
    | FlushMessages(conn: Handle)
    | ConnectP2P(host: SteamId)
    | PeerConnected(peer: ConnRef)
    | PeerDisconnected(peer: ConnRef, why: DisconnectReason)
    | CloseListenSocket
    | ShutdownEvent

  /** The exceptions a status handler can throw. */
  datatype Fault =
    | QueueEmpty    // Queue.Dequeue on an empty free pool
    | KeyNotFound   // dictionary indexer on a handle that is not registered

  /** The transport's state: the static send settings, connection
      dictionary and Steam id, the objects allocated so far (`heap`, with
      `nextRef` the next reference to hand out), the free pool, and the
      instance fields the model needs. */
  datatype Transport = Transport(
    sendFlag: SendFlag,
    forceFlush: bool,
    heap: map<ConnRef, Connection>,
    registry: map<Handle, ConnRef>,
    pool: seq<ConnRef>,
    nextRef: nat,
    isServer: bool,
    hostConnection: Handle,
    callback: Callback,
    localSteamId: SteamId)

  datatype Step = Step(next: Transport, effects: seq<Effect>)

  datatype Outcome = Done(step: Step) | Threw(fault: Fault)

  /** The engine-side player a Steam id is asked for. */
  datatype Player = ServerPlayer | RemotePlayer(connection: ConnRef)

  /** Inverse of `FlagFor`, used to state that the mapping is one-to-one. */
  function SendTypeOf(f: SendFlag): SteamSendType {
    match f
    case SendUnreliable => Unreliable
    case SendReliable => Reliable
    case SendUnreliableNoNagle => NoNagle
    case SendUnreliableNoDelay => NoDelay
  }

  /** The flag each send mode selects; no two modes share a flag. */
  function FlagFor(t: SteamSendType): (f: SendFlag)
    ensures SendTypeOf(f) == t
  {
    match t
    case Unreliable => SendUnreliable
    case Reliable => SendReliable
    case NoNagle => SendUnreliableNoNagle
    case NoDelay => SendUnreliableNoDelay
  }

  /** The first transport constructed in a process: sets the static send
      flag and flush setting; the static dictionary starts empty and no
      record has been allocated yet. */
  function NewTransport(sendType: SteamSendType, forceFlush: bool): (t: Transport)
    ensures SendTypeOf(t.sendFlag) == sendType && t.forceFlush == forceFlush
    ensures t.heap == map[] && t.registry == map[] && t.pool == []
    ensures !t.isServer && t.hostConnection == 0 && t.callback == NoCallback
  {
    Transport(FlagFor(sendType), forceFlush, map[], map[], [], 0, false, 0, NoCallback, 0)
  }

  /** A later transport constructed in the same process as `previous`. The
      constructor only resets the static send settings: the static
      dictionary and Steam id carry over, and so do the objects already
      allocated. The instance fields (the pool, the role, the host handle,
      the subscription) start afresh. */
  function NewTransportAfter(previous: Transport, sendType: SteamSendType, forceFlush: bool): (t: Transport)
    ensures SendTypeOf(t.sendFlag) == sendType && t.forceFlush == forceFlush
    ensures t.registry == previous.registry && t.heap == previous.heap && t.nextRef == previous.nextRef
    ensures t.localSteamId == previous.localSteamId
    ensures t.pool == [] && !t.isServer && t.hostConnection == 0 && t.callback == NoCallback
  {
    previous.(sendFlag := FlagFor(sendType), forceFlush := forceFlush, pool := [],
              isServer := false, hostConnection := 0, callback := NoCallback)
  }

  /** `SetSendType`: every mode selects its own flag, and nothing else changes. */
  function SetSendType(t: Transport, sendType: SteamSendType): (r: Transport)
    ensures SendTypeOf(r.sendFlag) == sendType
    ensures r == t.(sendFlag := r.sendFlag)
  {
    t.(sendFlag := FlagFor(sendType))
  }

  /** `SteamworksConnection.Send` on the object `r`: one send with the
      configured flag on the handle the object holds now, followed by a
      flush exactly when `ForceFlush`. */
  function Send(t: Transport, r: ConnRef, payload: seq<byte>): (effects: seq<Effect>)
    requires r in t.heap
    ensures 1 <= |effects| <= 2
    ensures effects[0] == SendMessage(t.heap[r].conn, payload, t.sendFlag)
    ensures |effects| == 2 <==> t.forceFlush
    ensures |effects| == 2 ==> effects[1] == FlushMessages(t.heap[r].conn)
  {
    var h := t.heap[r].conn;
    [SendMessage(h, payload, t.sendFlag)] + if t.forceFlush then [FlushMessages(h)] else []
  }

  /** `SteamworksConnection.SendUserData` on the object `r`: unreliable
      exactly for the unreliable method, reliable otherwise, never flushed. */
  function SendUserData(t: Transport, r: ConnRef, payload: seq<byte>, delivery: DeliveryMethod): (effects: seq<Effect>)
    requires r in t.heap
    ensures |effects| == 1 && effects[0].SendMessage?
    ensures effects[0].conn == t.heap[r].conn && effects[0].payload == payload
    ensures effects[0].flag == SendUnreliable <==> delivery == UnreliableDelivery
    ensures effects[0].flag != SendUnreliable ==> effects[0].flag == SendReliable
  {
    var flag := if delivery == UnreliableDelivery then SendUnreliable else SendReliable;
    [SendMessage(t.heap[r].conn, payload, flag)]
  }

  /** The references of `n` newly constructed objects, from `start` on. */
  function FreshRefs(start: nat, n: nat): (rs: seq<ConnRef>)
    ensures |rs| == n
    ensures forall k :: 0 <= k < n ==> rs[k] == start + k
    ensures forall r :: r in rs <==> start <= r < start + n
  {
    var rs := seq(n, k requires 0 <= k < n => start + k);
    assert forall r :: start <= r < start + n ==> r in rs by {
      forall r | start <= r < start + n ensures r in rs {
        assert rs[r - start] == r;
      }
    }
    rs
  }

  /** `heap` with `n` newly constructed blank objects at `start` onwards. */
  function AllocateBlank(heap: map<ConnRef, Connection>, start: nat, n: nat): (h: map<ConnRef, Connection>)
    ensures forall r :: r in h <==> r in heap || start <= r < start + n
    ensures forall r :: start <= r < start + n ==> h[r] == Connection(0, 0)
    ensures forall r :: r in heap && !(start <= r < start + n) ==> h[r] == heap[r]
  {
    heap + map r | r in FreshRefs(start, n) :: Connection(0, 0)
  }

  /** `Init`: without an initialised Steam client nothing happens; otherwise
      the relay is initialised, the local id recorded (the readiness loop of
      `InitSteamworks` exits at once, Steam having just been found ready),
      and `maxClients` newly constructed blank objects join the back of the
      pool. Nothing else changes. */
  function Init(t: Transport, steamReady: bool, maxClients: nat, localId: SteamId): (st: Step)
    ensures !steamReady ==> st == Step(t, [])
    ensures steamReady ==> st.effects == [InitRelayNetworkAccess]
    ensures steamReady ==>
              st.next == t.(heap := st.next.heap, pool := st.next.pool,
                            nextRef := t.nextRef + maxClients, localSteamId := localId)
    ensures steamReady ==> |st.next.pool| == |t.pool| + maxClients && st.next.pool[..|t.pool|] == t.pool
    ensures steamReady ==> forall k :: |t.pool| <= k < |st.next.pool| ==> st.next.pool[k] == t.nextRef + (k - |t.pool|)
    ensures steamReady ==> forall r :: r in st.next.heap <==> r in t.heap || t.nextRef <= r < t.nextRef + maxClients
    ensures steamReady ==> forall r :: t.nextRef <= r < t.nextRef + maxClients ==> st.next.heap[r] == Connection(0, 0)
    ensures steamReady ==> forall r :: r in t.heap && !(t.nextRef <= r < t.nextRef + maxClients) ==> st.next.heap[r] == t.heap[r]
  {
    if !steamReady then Step(t, [])
    else
      var next := t.(heap := AllocateBlank(t.heap, t.nextRef, maxClients),
                     pool := t.pool + FreshRefs(t.nextRef, maxClients),
                     nextRef := t.nextRef + maxClients,
                     localSteamId := localId);
      Step(next, [InitRelayNetworkAccess])
  }

  /** `Run`: the server opens a listen socket and subscribes the server
      status callback; the client only records its role. */
  function Run(t: Transport, mode: RunMode): (st: Step)
    ensures st.next == t.(isServer := mode == ServerMode, callback := st.next.callback)
    ensures mode == ServerMode ==> st.next.callback == ServerCallback && st.effects == [CreateListenSocket, ServerStarted]
    ensures mode == ClientMode ==> st.next.callback == t.callback && st.effects == [ClientStarted]
  {
    match mode
    case ServerMode => Step(t.(isServer := true, callback := ServerCallback), [CreateListenSocket, ServerStarted])
    case ClientMode => Step(t.(isServer := false), [ClientStarted])
  }

  /** `Shutdown`: a server closes its listen socket; a client with an open
      host connection closes it gracefully and forgets the handle. Either
      way the status callback is released and the shutdown event raised
      last; the dictionary and the pool are left as they are. */
  function Shutdown(t: Transport): (st: Step)
    ensures st.next == t.(callback := NoCallback, hostConnection := st.next.hostConnection)
    ensures t.isServer ==> st.next.hostConnection == t.hostConnection && st.effects == [CloseListenSocket, ShutdownEvent]
    ensures !t.isServer ==> st.next.hostConnection == 0
    ensures !t.isServer && t.hostConnection != 0 ==>
              st.effects == [CloseConnection(t.hostConnection, GracefulDisconnect), ShutdownEvent]
    ensures !t.isServer && t.hostConnection == 0 ==> st.effects == [ShutdownEvent]
    ensures |st.effects| > 0 && st.effects[|st.effects| - 1] == ShutdownEvent
  {
    var released := t.(callback := NoCallback);
    if t.isServer then Step(released, [CloseListenSocket, ShutdownEvent])
    else if t.hostConnection != 0 then
      Step(released.(hostConnection := 0), [CloseConnection(t.hostConnection, GracefulDisconnect), ShutdownEvent])
    else Step(released, [ShutdownEvent])
  }

  /** `ServerOnConnecting`: the capacity check compares the engine's
      connected-player count (not the registry size) with `MaxClients`. A
      full server closes the connection, any other accepts it; neither
      touches the registry or the pool. */
  function ServerOnConnecting(t: Transport, ev: StatusChange, engine: EngineView): (st: Step)
    ensures st.next == t
    ensures st.effects == [CloseConnection(ev.conn, MaxConnectionCount)] <==> engine.connectedPlayers == engine.maxClients
    ensures st.effects == [AcceptConnection(ev.conn)] <==> engine.connectedPlayers != engine.maxClients
  {
    if engine.connectedPlayers == engine.maxClients then
      Step(t, [CloseConnection(ev.conn, MaxConnectionCount)])
    else
      Step(t, [AcceptConnection(ev.conn)])
  }

  /** `ServerOnConnected`: the object at the head of the pool is taken and
      overwritten in place with the handle and remote id before the
      registry is consulted. A new handle is registered to it and
      announced; a handle already registered leaves the registry alone,
      announces nothing, and the taken object is dropped. An empty pool
      throws before anything changes. */
  function ServerOnConnected(t: Transport, ev: StatusChange): (o: Outcome)
    ensures o.Threw? <==> |t.pool| == 0
    ensures o.Threw? ==> o.fault == QueueEmpty
    ensures o.Done? ==>
              o.step.next == t.(pool := t.pool[1..],
                                heap := t.heap[t.pool[0] := Connection(ev.conn, ev.remote)],
                                registry := o.step.next.registry)
    ensures o.Done? && ev.conn !in t.registry ==>
              o.step.next.registry == t.registry[ev.conn := t.pool[0]] && o.step.effects == [PeerConnected(t.pool[0])]
    ensures o.Done? && ev.conn in t.registry ==>
              o.step.next.registry == t.registry && o.step.effects == []
  {
    if |t.pool| == 0 then Threw(QueueEmpty)
    else
      var r := t.pool[0];
      var taken := t.(pool := t.pool[1..], heap := t.heap[r := Connection(ev.conn, ev.remote)]);
      if ev.conn in t.registry then Done(Step(taken, []))
      else Done(Step(taken.(registry := t.registry[ev.conn := r]), [PeerConnected(r)]))
  }

  /** `ServerOnDisconnected`: the registered object goes to the back of the
      pool, the engine hears `Timeout`, the handle is unregistered and the
      connection closed gracefully. The object keeps its fields until it
      is taken again. An unregistered handle throws on the first dictionary
      lookup, before anything changes. */
  function ServerOnDisconnected(t: Transport, ev: StatusChange): (o: Outcome)
    ensures o.Threw? <==> ev.conn !in t.registry
    ensures o.Threw? ==> o.fault == KeyNotFound
    ensures o.Done? ==> o.step.next == t.(pool := o.step.next.pool, registry := o.step.next.registry)
    ensures o.Done? ==>
              var r := t.registry[ev.conn];
              && o.step.next.pool == t.pool + [r]
              && o.step.next.registry == t.registry - {ev.conn}
              && o.step.effects == [PeerDisconnected(r, Timeout), CloseConnection(ev.conn, GracefulDisconnect)]
  {
    if ev.conn !in t.registry then Threw(KeyNotFound)
    else
      var r := t.registry[ev.conn];
      Done(Step(t.(pool := t.pool + [r], registry := t.registry - {ev.conn}),
                [PeerDisconnected(r, Timeout), CloseConnection(ev.conn, GracefulDisconnect)]))
  }

  /** `Disconnect` on the object `r`: flushes and closes the handle the
      object holds now and unregisters that handle, whichever object the
      dictionary maps it to; nothing is put back in the pool. */
  function Disconnect(t: Transport, r: ConnRef): (st: Step)
    requires r in t.heap
    ensures st.next == t.(registry := t.registry - {t.heap[r].conn})
    ensures st.effects == [FlushMessages(t.heap[r].conn), CloseConnection(t.heap[r].conn, DisconnectedByServer)]
  {
    var h := t.heap[r].conn;
    Step(t.(registry := t.registry - {h}), [FlushMessages(h), CloseConnection(h, DisconnectedByServer)])
  }

  /** The status states the callbacks act on. */
  predicate IsHandledState(s: ConnState) {
    s == Connecting || s == Connected || s == ClosedByPeer
  }

  /** `OnConnectionStatusChangedServer`: dispatch on the three handled
      states; every other state is ignored. */
  function OnConnectionStatusChangedServer(t: Transport, ev: StatusChange, engine: EngineView): (o: Outcome)
    ensures !IsHandledState(ev.state) ==> o == Done(Step(t, []))
    ensures ev.state == Connecting ==> o == Done(ServerOnConnecting(t, ev, engine))
    ensures ev.state == Connected ==> o == ServerOnConnected(t, ev)
    ensures ev.state == ClosedByPeer ==> o == ServerOnDisconnected(t, ev)
  {
    match ev.state
    case Connecting => Done(ServerOnConnecting(t, ev, engine))
    case Connected => ServerOnConnected(t, ev)
    case ClosedByPeer => ServerOnDisconnected(t, ev)
    case _ => Done(Step(t, []))
  }

  /** `OnConnectionStatusChangedClient`: routes to the server handlers, so
      the client reacts to every event exactly as a server would. */
  function OnConnectionStatusChangedClient(t: Transport, ev: StatusChange, engine: EngineView): (o: Outcome)
    ensures o == OnConnectionStatusChangedServer(t, ev, engine)
  {
    match ev.state
    case Connecting => Done(ServerOnConnecting(t, ev, engine))
    case Connected => ServerOnConnected(t, ev)
    case ClosedByPeer => ServerOnDisconnected(t, ev)
    case _ => Done(Step(t, []))
  }

  /** `Connect`: an address that is not a `ulong` does nothing; otherwise
      the client callback is subscribed and the connection the SDK returns
      for the host id (`newHandle`) becomes the host connection. */
  function Connect(t: Transport, address: string, newHandle: Handle): (st: Step)
    ensures ParseULong(address).None? <==> st == Step(t, [])
    ensures ParseULong(address).Some? ==>
              && st.next == t.(callback := ClientCallback, hostConnection := newHandle)
              && st.effects == [ConnectP2P(ParseULong(address).value)]
  {
    match ParseULong(address)
    case None => Step(t, [])
    case Some(id) => Step(t.(callback := ClientCallback, hostConnection := newHandle), [ConnectP2P(id)])
  }

  /** `GetPlayerSteamID`: the server player reports the local id, a remote
      player the id its object holds now. */
  function GetPlayerSteamID(t: Transport, p: Player): (id: SteamId)
    requires p.RemotePlayer? ==> p.connection in t.heap
    ensures p.ServerPlayer? ==> id == t.localSteamId
    ensures p.RemotePlayer? ==> id == t.heap[p.connection].playerSteamId
  {
    match p
    case ServerPlayer => t.localSteamId
    case RemotePlayer(r) => t.heap[r].playerSteamId
  }
}
