/** What the lifecycle guarantees, and where it does not, over single
    events and over whole runs of events. Objects are tracked by reference,
    so "a record is lost" means its reference is in neither the pool nor
    the registry any more. */
module TransportProofs {
  import opened Common
  import opened TextParsing
  import opened Transport
  import opened Dispatch

  /** Records the transport still owns: free ones plus registered ones. */
  function Total(t: Transport): nat {
    |t.pool| + |t.registry|
  }

  /** Every owned reference names an allocated object below the allocator's
      mark, no object is owned twice, and every registered object holds its
      own handle (so no two handles share an object). */
  ghost predicate WellFormed(t: Transport) {
    && (forall r :: r in t.heap ==> r < t.nextRef)
    && (forall h {:trigger t.registry[h]} :: h in t.registry ==> t.registry[h] in t.heap && t.heap[t.registry[h]].conn == h)
    && (forall i :: 0 <= i < |t.pool| ==> t.pool[i] in t.heap)
    && (forall i, j :: 0 <= i < j < |t.pool| ==> t.pool[i] != t.pool[j])
    && (forall i, h {:trigger t.pool[i], t.registry[h]} ::
          0 <= i < |t.pool| && h in t.registry ==> t.pool[i] != t.registry[h])
  }

  /** The object `r` is owned by neither the pool nor the registry. */
  ghost predicate Lost(t: Transport, r: ConnRef) {
    && (forall i :: 0 <= i < |t.pool| ==> t.pool[i] != r)
    && (forall h {:trigger t.registry[h]} :: h in t.registry ==> t.registry[h] != r)
  }

  /** What drives the transport between polls: an SDK status event, or the
      engine disconnecting the object it holds for a connection. */
  datatype Input = Status(change: StatusChange, engine: EngineView) | Kick(peer: ConnRef)

  /** One input. A status event reaches a handler only while one is
      subscribed: before `Run` as a server or `Connect`, and after
      `Shutdown` released the subscription, the SDK delivers it to nobody.
      The engine only holds references the transport handed out; a
      reference to no object has no counterpart in the source and is
      ignored. */
  function Apply(t: Transport, input: Input): Outcome {
    match input
    case Status(ev, engine) =>
      (match t.callback
       case NoCallback => Done(Step(t, []))
       case ServerCallback => OnConnectionStatusChangedServer(t, ev, engine)
       case ClientCallback => OnConnectionStatusChangedClient(t, ev, engine))
    case Kick(r) => if r in t.heap then Done(Disconnect(t, r)) else Done(Step(t, []))
  }

  /** The state after a run, the SDK and engine calls made, and the
      exceptions raised, in order. */
  datatype Trace = Trace(next: Transport, effects: seq<Effect>, faults: seq<Fault>)

  /** One input as part of a run: an exception aborts only the callback
      that raised it, and (both throws happening before any mutation) the
      state is left as it was. */
  function StepTrace(t: Transport, input: Input): Trace {
    match Apply(t, input)
    case Done(s) => Trace(s.next, s.effects, [])
    case Threw(f) => Trace(t, [], [f])
  }

  /** Inputs in order; the transport keeps handling inputs after a throw. */
  function RunInputs(t: Transport, inputs: seq<Input>): Trace
    decreases |inputs|
  {
    if |inputs| == 0 then Trace(t, [], [])
    else
      var head := StepTrace(t, inputs[0]);
      var tail := RunInputs(head.next, inputs[1..]);
      Trace(tail.next, head.effects + tail.effects, head.faults + tail.faults)
  }

  /** The records one input takes out of circulation: the record dequeued
      for a handle that is already registered, and the record registered
      for the handle the kicked object holds. */
  function Leaked(t: Transport, input: Input): nat {
    match input
    case Status(ev, _) =>
      if t.callback != NoCallback && ev.state == Connected && ev.conn in t.registry && |t.pool| > 0 then 1 else 0
    case Kick(r) => if r in t.heap && t.heap[r].conn in t.registry then 1 else 0
  }

  /** The records a run takes out of circulation. */
  function RunLeaks(t: Transport, inputs: seq<Input>): nat
    decreases |inputs|
  {
    if |inputs| == 0 then 0
    else Leaked(t, inputs[0]) + RunLeaks(StepTrace(t, inputs[0]).next, inputs[1..])
  }

  lemma RemoveKeySize(m: map<Handle, ConnRef>, k: Handle)
    requires k in m
    ensures |m - {k}| == |m| - 1
  {
    assert (m - {k}).Keys == m.Keys - {k};
    assert |m.Keys - {k}| == |m.Keys| - 1;
  }

  lemma ConnectedAccounting(t: Transport, ev: StatusChange)
    requires ServerOnConnected(t, ev).Done?
    ensures Total(ServerOnConnected(t, ev).step.next) + (if ev.conn in t.registry then 1 else 0) == Total(t)
  {
  }

  lemma DisconnectedAccounting(t: Transport, ev: StatusChange)
    requires ServerOnDisconnected(t, ev).Done?
    ensures Total(ServerOnDisconnected(t, ev).step.next) == Total(t)
  {
    RemoveKeySize(t.registry, ev.conn);
  }

  lemma KickAccounting(t: Transport, r: ConnRef)
    requires r in t.heap
    ensures Total(Disconnect(t, r).next) + (if t.heap[r].conn in t.registry then 1 else 0) == Total(t)
  {
    if t.heap[r].conn in t.registry {
      RemoveKeySize(t.registry, t.heap[r].conn);
    } else {
      assert t.registry - {t.heap[r].conn} == t.registry;
    }
  }

  /** A status event reaching the subscribed handler keeps the records it
      does not leak. */
  lemma HandlerAccounting(t: Transport, ev: StatusChange, engine: EngineView)
    requires t.callback != NoCallback
    ensures Total(StepTrace(t, Status(ev, engine)).next) + Leaked(t, Status(ev, engine)) == Total(t)
  {
    if ev.state == Connected && |t.pool| > 0 {
      ConnectedAccounting(t, ev);
    } else if ev.state == ClosedByPeer && ev.conn in t.registry {
      DisconnectedAccounting(t, ev);
    }
  }

  /** Every input, thrown or not, keeps the records it does not leak. */
  lemma StepAccounting(t: Transport, input: Input)
    ensures Total(StepTrace(t, input).next) + Leaked(t, input) == Total(t)
  {
    match input
    case Status(ev, engine) =>
      if t.callback != NoCallback {
        HandlerAccounting(t, ev, engine);
      }
    case Kick(r) =>
      if r in t.heap {
        KickAccounting(t, r);
      }
  }

  /** Over any run, pool size plus registry size drops by exactly the
      records leaked, and never grows. */
  lemma {:induction false} RunAccounting(t: Transport, inputs: seq<Input>)
    ensures Total(RunInputs(t, inputs).next) + RunLeaks(t, inputs) == Total(t)
    decreases |inputs|
  {
    if |inputs| > 0 {
      StepAccounting(t, inputs[0]);
      RunAccounting(StepTrace(t, inputs[0]).next, inputs[1..]);
    }
  }

  /** A status event reaches the handlers exactly while a callback is
      subscribed; the client's callback routes like the server's. */
  lemma StatusNeedsSubscription(t: Transport, ev: StatusChange, engine: EngineView)
    ensures t.callback == NoCallback ==> Apply(t, Status(ev, engine)) == Done(Step(t, []))
    ensures t.callback != NoCallback ==> Apply(t, Status(ev, engine)) == OnConnectionStatusChangedServer(t, ev, engine)
  {
  }

  /** After `Shutdown` released the subscription, a connection closing
      changes nothing: its handle stays in the static dictionary and its
      record is not returned to the pool. */
  lemma ShutdownIgnoresLaterEvents(t: Transport, ev: StatusChange, engine: EngineView)
    requires ev.state == ClosedByPeer && ev.conn in t.registry
    ensures var s := Shutdown(t).next;
            && Apply(s, Status(ev, engine)) == Done(Step(s, []))
            && ev.conn in s.registry && s.registry == t.registry && s.pool == t.pool
  {
  }

  lemma ConnectedKeepsWellFormed(t: Transport, ev: StatusChange)
    requires WellFormed(t) && ServerOnConnected(t, ev).Done?
    ensures WellFormed(ServerOnConnected(t, ev).step.next)
  {
    var n := ServerOnConnected(t, ev).step.next;
    var r := t.pool[0];
    assert forall i :: 0 <= i < |n.pool| ==> n.pool[i] == t.pool[i + 1];
    assert forall h :: h in t.registry ==> t.registry[h] != r;
    assert n.heap[r].conn == ev.conn;
  }

  lemma DisconnectedKeepsWellFormed(t: Transport, ev: StatusChange)
    requires WellFormed(t) && ServerOnDisconnected(t, ev).Done?
    ensures WellFormed(ServerOnDisconnected(t, ev).step.next)
  {
    var n := ServerOnDisconnected(t, ev).step.next;
    assert forall i :: 0 <= i < |t.pool| ==> n.pool[i] == t.pool[i];
    assert n.pool[|t.pool|] == t.registry[ev.conn];
  }

  /** A status event reaching the subscribed handler keeps the transport
      well formed. */
  lemma HandlerKeepsWellFormed(t: Transport, ev: StatusChange, engine: EngineView)
    requires WellFormed(t) && t.callback != NoCallback
    ensures WellFormed(StepTrace(t, Status(ev, engine)).next)
  {
    if ev.state == Connected && |t.pool| > 0 {
      ConnectedKeepsWellFormed(t, ev);
    } else if ev.state == ClosedByPeer && ev.conn in t.registry {
      DisconnectedKeepsWellFormed(t, ev);
    }
  }

  /** Every input keeps the transport well formed. */
  lemma StepKeepsWellFormed(t: Transport, input: Input)
    requires WellFormed(t)
    ensures WellFormed(StepTrace(t, input).next)
  {
    match input
    case Status(ev, engine) =>
      if t.callback != NoCallback {
        HandlerKeepsWellFormed(t, ev, engine);
      }
    case Kick(r) =>
  }

  lemma {:induction false} RunKeepsWellFormed(t: Transport, inputs: seq<Input>)
    requires WellFormed(t)
    ensures WellFormed(RunInputs(t, inputs).next)
    decreases |inputs|
  {
    if |inputs| > 0 {
      StepKeepsWellFormed(t, inputs[0]);
      RunKeepsWellFormed(StepTrace(t, inputs[0]).next, inputs[1..]);
    }
  }

  /** `Init` on a well-formed transport adds exactly `maxClients` owned
      records, all distinct from those it had. */
  lemma InitKeepsWellFormed(t: Transport, maxClients: nat, localId: SteamId)
    requires WellFormed(t)
    ensures WellFormed(Init(t, true, maxClients, localId).next)
    ensures Total(Init(t, true, maxClients, localId).next) == Total(t) + maxClients
  {
    var n := Init(t, true, maxClients, localId).next;
    assert forall i :: 0 <= i < |t.pool| ==> n.pool[i] == t.pool[i];
    assert forall h :: h in t.registry ==> n.heap[t.registry[h]] == t.heap[t.registry[h]];
  }

  /** A freshly initialised first transport owns exactly `maxClients`
      distinct free records and no registered ones. */
  lemma InitFillsPool(sendType: SteamSendType, forceFlush: bool, maxClients: nat, localId: SteamId)
    ensures var t := Init(NewTransport(sendType, forceFlush), true, maxClients, localId).next;
            && |t.pool| == maxClients && |t.registry| == 0 && Total(t) == maxClients
            && WellFormed(t)
  {
    InitKeepsWellFormed(NewTransport(sendType, forceFlush), maxClients, localId);
  }

  /** Whatever events and disconnects follow `Init` and `Run` of the first
      transport in a process, including events whose handlers throw, the
      registry never holds more than `maxClients` connections: every
      registration consumes a pooled record, and no input ever adds
      records. */
  lemma RegistryWithinCapacity(sendType: SteamSendType, forceFlush: bool, maxClients: nat,
                               localId: SteamId, mode: RunMode, inputs: seq<Input>)
    ensures var t := RunInputs(Run(Init(NewTransport(sendType, forceFlush), true, maxClients, localId).next, mode).next, inputs).next;
            |t.registry| <= maxClients && WellFormed(t)
  {
    var t0 := Run(Init(NewTransport(sendType, forceFlush), true, maxClients, localId).next, mode).next;
    InitFillsPool(sendType, forceFlush, maxClients, localId);
    RunAccounting(t0, inputs);
    RunKeepsWellFormed(t0, inputs);
  }

  /** A later transport in the same process starts with the registry the
      earlier one left, so its registry is bounded by what it inherited
      plus its own `maxClients`, not by `maxClients` alone. */
  lemma LaterTransportCapacity(previous: Transport, sendType: SteamSendType, forceFlush: bool,
                               maxClients: nat, localId: SteamId, mode: RunMode, inputs: seq<Input>)
    requires WellFormed(previous)
    ensures var t0 := Run(Init(NewTransportAfter(previous, sendType, forceFlush), true, maxClients, localId).next, mode).next;
            var t := RunInputs(t0, inputs).next;
            |t.registry| <= |previous.registry| + maxClients && WellFormed(t)
  {
    var later := NewTransportAfter(previous, sendType, forceFlush);
    InitKeepsWellFormed(later, maxClients, localId);
    var t0 := Run(Init(later, true, maxClients, localId).next, mode).next;
    RunAccounting(t0, inputs);
    RunKeepsWellFormed(t0, inputs);
  }

  /** The inherited bound is reached: after a session that left handle 10
      registered, a one-slot server that accepts handle 11 ends with two
      registered handles, more than its own `maxClients`. */
  lemma LaterTransportExceedsMaxClients(previous: Transport, engine: EngineView)
    requires previous.registry.Keys == {10}
    ensures var t0 := Run(Init(NewTransportAfter(previous, NoNagle, false), true, 1, 1).next, ServerMode).next;
            var t := RunInputs(t0, [Status(StatusChange(11, 101, Connected), engine)]).next;
            t.registry.Keys == {10, 11} && |t.registry| == 2
  {
    var later := NewTransportAfter(previous, NoNagle, false);
    var t0 := Run(Init(later, true, 1, 1).next, ServerMode).next;
    assert |t0.pool| == 1 && t0.registry == previous.registry && t0.callback == ServerCallback;
    var input := Status(StatusChange(11, 101, Connected), engine);
    assert RunInputs(t0, [input]).next == StepTrace(t0, input).next;
    var t := StepTrace(t0, input).next;
    assert t.registry == previous.registry[11 := t0.pool[0]];
    assert t.registry.Keys == {10, 11};
  }

  /** A server started after an earlier session in the same process polls
      the handles that session left registered, and a `Connected` for one
      of those handle numbers takes the duplicate branch: nothing is
      announced and the dequeued record is lost. */
  lemma LaterServerInheritsHandles(previous: Transport, sendType: SteamSendType, forceFlush: bool,
                                   maxClients: nat, localId: SteamId, ev: StatusChange, engine: EngineView)
    requires ev.state == Connected && ev.conn in previous.registry && maxClients > 0
    ensures var t := Run(Init(NewTransportAfter(Shutdown(previous).next, sendType, forceFlush),
                              true, maxClients, localId).next, ServerMode).next;
            var o := Apply(t, Status(ev, engine));
            && Drained(t) == previous.registry.Keys
            && o.Done? && o.step.effects == [] && o.step.next.registry == previous.registry
            && |o.step.next.pool| == maxClients - 1
  {
  }

  /** A first `Connected` for a handle binds the head of the pool to the
      handle and the remote id, and the engine's `GetPlayerSteamID` then
      reports that remote id for it. No record is lost. */
  lemma ConnectedBindsRemoteId(t: Transport, ev: StatusChange, engine: EngineView)
    requires ev.state == Connected && ev.conn !in t.registry && |t.pool| > 0
    ensures var o := OnConnectionStatusChangedServer(t, ev, engine);
            && o.Done? && ev.conn in o.step.next.registry && o.step.next.registry[ev.conn] == t.pool[0]
            && GetPlayerSteamID(o.step.next, RemotePlayer(t.pool[0])) == ev.remote
            && o.step.effects == [PeerConnected(t.pool[0])]
            && Total(o.step.next) == Total(t)
  {
  }

  /** A repeated `Connected` for a registered handle still dequeues a
      record, and that record is never returned: the registry and the
      engine see nothing, and the transport owns one record fewer. */
  lemma DuplicateConnectedLosesRecord(t: Transport, ev: StatusChange, engine: EngineView)
    requires WellFormed(t)
    requires ev.state == Connected && ev.conn in t.registry && |t.pool| > 0
    ensures var o := OnConnectionStatusChangedServer(t, ev, engine);
            && o.Done? && o.step.next.registry == t.registry && o.step.effects == []
            && Total(o.step.next) == Total(t) - 1
            && Lost(o.step.next, t.pool[0])
  {
    var n := OnConnectionStatusChangedServer(t, ev, engine).step.next;
    assert forall i :: 0 <= i < |n.pool| ==> n.pool[i] == t.pool[i + 1];
  }

  /** `ClosedByPeer` for a registered handle returns its record to the back
      of the pool, tells the engine, and unregisters the handle; the
      transport owns as many records as before. */
  lemma ClosedByPeerReturnsRecord(t: Transport, ev: StatusChange, engine: EngineView)
    requires WellFormed(t)
    requires ev.state == ClosedByPeer && ev.conn in t.registry
    ensures var o := OnConnectionStatusChangedServer(t, ev, engine);
            && o.Done? && ev.conn !in o.step.next.registry
            && o.step.next.pool[|o.step.next.pool| - 1] == t.registry[ev.conn]
            && o.step.effects[0] == PeerDisconnected(t.registry[ev.conn], Timeout)
            && Total(o.step.next) == Total(t)
            && WellFormed(o.step.next)
  {
    DisconnectedAccounting(t, ev);
    DisconnectedKeepsWellFormed(t, ev);
  }

  /** The engine disconnecting an object whose handle is registered
      unregisters that handle but never returns the record registered for
      it: the transport owns one record fewer. */
  lemma DisconnectLosesRecord(t: Transport, r: ConnRef)
    requires WellFormed(t) && r in t.heap && t.heap[r].conn in t.registry
    ensures var n := Disconnect(t, r).next;
            && t.heap[r].conn !in n.registry
            && Total(n) == Total(t) - 1
            && Lost(n, t.registry[t.heap[r].conn])
  {
    RemoveKeySize(t.registry, t.heap[r].conn);
  }

  /** With the engine's connected count equal to the registry size and no
      record leaked so far, the capacity check refuses a connection exactly
      when no free record is left. */
  lemma CapacityCheckMatchesPool(t: Transport, ev: StatusChange, engine: EngineView)
    requires engine.connectedPlayers == |t.registry| && Total(t) == engine.maxClients
    ensures ServerOnConnecting(t, ev, engine).effects == [CloseConnection(ev.conn, MaxConnectionCount)]
            <==> |t.pool| == 0
  {
  }

  /** After `ClosedByPeer` unregisters a handle, `Send` on the object the
      engine still holds is forwarded to the SDK on the closed handle,
      until the object is taken from the pool again. */
  lemma SendAfterCloseStillForwards(t: Transport, ev: StatusChange, engine: EngineView, payload: seq<byte>)
    requires WellFormed(t)
    requires ev.state == ClosedByPeer && ev.conn in t.registry
    ensures var n := OnConnectionStatusChangedServer(t, ev, engine).step.next;
            && ev.conn !in n.registry && t.registry[ev.conn] in n.heap
            && Send(n, t.registry[ev.conn], payload)[0] == SendMessage(ev.conn, payload, t.sendFlag)
  {
  }

  /** Once a returned object is taken for the next client, the reference
      the engine kept for the old client reaches the new one: `Send` goes
      to the new handle, `GetPlayerSteamID` reports the new player, and
      `Disconnect` closes and unregisters the new client. */
  lemma StaleReferenceReachesNextClient()
    ensures var t0 := Run(Init(NewTransport(NoNagle, false), true, 1, 1).next, ServerMode).next;
            var idle := EngineView(0, 1);
            var t1 := Apply(t0, Status(StatusChange(10, 100, Connected), idle)).step.next;
            var r := t1.registry[10];
            var t2 := Apply(t1, Status(StatusChange(10, 100, ClosedByPeer), idle)).step.next;
            var t3 := Apply(t2, Status(StatusChange(11, 101, Connected), idle)).step.next;
            && r in t3.heap && t3.registry == map[11 := r]
            && Send(t3, r, [7]) == [SendMessage(11, [7], SendUnreliableNoNagle)]
            && GetPlayerSteamID(t3, RemotePlayer(r)) == 101
            && Disconnect(t3, r).next.registry == map[]
            && Disconnect(t3, r).effects == [FlushMessages(11), CloseConnection(11, DisconnectedByServer)]
  {
  }

  /** No input touches the send settings. */
  lemma {:induction false} RunKeepsSendSettings(t: Transport, inputs: seq<Input>)
    ensures RunInputs(t, inputs).next.sendFlag == t.sendFlag
    ensures RunInputs(t, inputs).next.forceFlush == t.forceFlush
    decreases |inputs|
  {
    if |inputs| > 0 {
      RunKeepsSendSettings(StepTrace(t, inputs[0]).next, inputs[1..]);
    }
  }

  /** Whatever events follow construction and `Init`, every `Send` uses the
      flag of the mode given to the constructor and flushes exactly when
      `forceFlush` was given. */
  lemma ConfiguredSendUsesMode(sendType: SteamSendType, forceFlush: bool, maxClients: nat, localId: SteamId, mode: RunMode,
                               inputs: seq<Input>, r: ConnRef, payload: seq<byte>)
    requires r in RunInputs(Run(Init(NewTransport(sendType, forceFlush), true, maxClients, localId).next, mode).next, inputs).next.heap
    ensures var t := RunInputs(Run(Init(NewTransport(sendType, forceFlush), true, maxClients, localId).next, mode).next, inputs).next;
            var effects := Send(t, r, payload);
            && SendTypeOf(effects[0].flag) == sendType
            && (|effects| == 2 <==> forceFlush)
  {
    RunKeepsSendSettings(Run(Init(NewTransport(sendType, forceFlush), true, maxClients, localId).next, mode).next, inputs);
  }

  /** `SetSendType` redirects every later `Send` to the new mode's flag and
      leaves the flush setting alone. */
  lemma SetSendTypeRedirectsSends(t: Transport, sendType: SteamSendType, r: ConnRef, payload: seq<byte>)
    requires r in t.heap
    ensures SendTypeOf(Send(SetSendType(t, sendType), r, payload)[0].flag) == sendType
    ensures |Send(SetSendType(t, sendType), r, payload)| == |Send(t, r, payload)|
  {
  }

  /** `SendUserData` ignores the configured send mode and flush setting:
      only the per-call delivery method chooses its flag. */
  lemma UserDataIgnoresSendSettings(t: Transport, sendType: SteamSendType, forceFlush: bool,
                                    r: ConnRef, payload: seq<byte>, delivery: DeliveryMethod)
    requires r in t.heap
    ensures SendUserData(t.(sendFlag := FlagFor(sendType), forceFlush := forceFlush), r, payload, delivery)
            == SendUserData(t, r, payload, delivery)
  {
  }

  /** The host id printed in decimal passes the `Connect` guard and is the
      identity connected to. */
  lemma ConnectToPrintedId(t: Transport, host: SteamId, h: Handle)
    ensures Connect(t, ToDecimal(host as nat), h).effects == [ConnectP2P(host)]
    ensures Connect(t, ToDecimal(host as nat), h).next.hostConnection == h
  {
    ParseToDecimal(host);
  }

  /** A client that connected and shuts down closes the connection `Connect`
      opened, and a second shutdown closes nothing. */
  lemma ShutdownClosesHostOnce(t: Transport, address: string, h: Handle)
    requires !t.isServer && h != 0 && ParseULong(address).Some?
    ensures var first := Shutdown(Connect(t, address, h).next);
            && first.effects == [CloseConnection(h, GracefulDisconnect), ShutdownEvent]
            && Shutdown(first.next).effects == [ShutdownEvent]
  {
  }

  /** A subscribed server below the engine's player limit accepts every
      connecting client, whatever its pool holds. */
  lemma ConnectingAcceptedBelowLimit(t: Transport, ev: StatusChange, engine: EngineView)
    requires t.callback != NoCallback && ev.state == Connecting
    requires engine.connectedPlayers != engine.maxClients
    ensures Apply(t, Status(ev, engine)) == Done(Step(t, [AcceptConnection(ev.conn)]))
  {
  }

  /** With two slots, three clients that are all still `Connecting` when the
      capacity check runs are all accepted (the engine counts no player
      yet); the third `Connected` then finds the pool empty and throws, and
      the run goes on with the first two registered. */
  lemma SimultaneousConnectsOverflowPool()
    ensures var t0 := Run(Init(NewTransport(NoNagle, true), true, 2, 1).next, ServerMode).next;
            var idle := EngineView(0, 2);
            var run := RunInputs(t0, [Status(StatusChange(10, 100, Connected), idle),
                                      Status(StatusChange(11, 101, Connected), idle),
                                      Status(StatusChange(12, 102, Connected), idle)]);
            && Apply(t0, Status(StatusChange(10, 100, Connecting), idle)).step.effects == [AcceptConnection(10)]
            && Apply(t0, Status(StatusChange(11, 101, Connecting), idle)).step.effects == [AcceptConnection(11)]
            && Apply(t0, Status(StatusChange(12, 102, Connecting), idle)).step.effects == [AcceptConnection(12)]
            && run.faults == [QueueEmpty]
            && run.next.registry.Keys == {10, 11}
  {
    var t0 := Run(Init(NewTransport(NoNagle, true), true, 2, 1).next, ServerMode).next;
    assert |t0.pool| == 2 && t0.registry == map[] && t0.callback == ServerCallback;
    var idle := EngineView(0, 2);
    ConnectingAcceptedBelowLimit(t0, StatusChange(10, 100, Connecting), idle);
    ConnectingAcceptedBelowLimit(t0, StatusChange(11, 101, Connecting), idle);
    ConnectingAcceptedBelowLimit(t0, StatusChange(12, 102, Connecting), idle);
    ThirdConnectedOverflows(t0, idle);
  }

  /** Two free records and nothing registered: the third of three
      `Connected` events for new handles throws, and the first two stay
      registered. */
  lemma ThirdConnectedOverflows(t0: Transport, engine: EngineView)
    requires t0.callback != NoCallback && |t0.pool| == 2 && t0.registry == map[]
    ensures var run := RunInputs(t0, [Status(StatusChange(10, 100, Connected), engine),
                                      Status(StatusChange(11, 101, Connected), engine),
                                      Status(StatusChange(12, 102, Connected), engine)]);
            && run.faults == [QueueEmpty]
            && run.next.registry.Keys == {10, 11}
  {
    var a := Status(StatusChange(10, 100, Connected), engine);
    var b := Status(StatusChange(11, 101, Connected), engine);
    var c := Status(StatusChange(12, 102, Connected), engine);
    var t1 := StepTrace(t0, a).next;
    assert |t1.pool| == 1 && t1.registry.Keys == {10} && t1.callback == t0.callback;
    var t2 := StepTrace(t1, b).next;
    assert |t2.pool| == 0 && t2.registry.Keys == {10, 11} && t2.callback == t0.callback;
    assert RunInputs(t2, [c]) == Trace(t2, [], [QueueEmpty]);
    assert [a, b, c][1..] == [b, c] && [b, c][1..] == [c];
  }

  /** With one slot, a client the engine disconnects takes the only record
      with it: the next client's `Connected` finds the pool empty. */
  lemma KickExhaustsPool()
    ensures var t0 := Run(Init(NewTransport(NoNagle, true), true, 1, 1).next, ServerMode).next;
            var idle := EngineView(0, 1);
            var t1 := Apply(t0, Status(StatusChange(10, 100, Connected), idle)).step.next;
            && t1.registry.Keys == {10} && t1.registry[10] in t1.heap
            && Apply(Disconnect(t1, t1.registry[10]).next, Status(StatusChange(11, 101, Connected), idle)) == Threw(QueueEmpty)
  {
  }
}
