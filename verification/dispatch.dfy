/** `PollEvents`: once per tick, drain a bounded batch of inbound messages
    from every connection the transport listens on and hand each one to the
    engine, tagged with the connection it came from. The SDK's inbound
    queues are an `Inbox` from handle to the messages waiting, oldest first;
    `ReceiveMessagesOnConnection` takes up to `MAX_MESSAGES` of them. */
module Dispatch {
  import opened Common
  import opened TextParsing
  import opened Transport

  /** The per-call receive limit (`MAX_MESSAGES`). */
  const MAX_MESSAGES: nat := 256

  type Message = seq<byte>

  type Inbox = map<Handle, seq<Message>>

  /** The engine-side connection a message is delivered to. `NullPeer` is a
      null `SteamworksConnection`. */
  datatype Peer = Bound(connection: ConnRef) | NullPeer

  /** One `NetworkPeer.Receive` call, with the handle the message was
      received on. */
  datatype Delivery = Delivery(from: Handle, to: Peer, message: Message)

  /** What a poll hands to the engine, in order, and what the SDK still
      holds afterwards. */
  datatype Polled = Polled(deliveries: seq<Delivery>, rest: Inbox)

  /** The messages the SDK holds for `h`; an unknown handle has none. */
  function Pending(inbox: Inbox, h: Handle): seq<Message> {
    if h in inbox then inbox[h] else []
  }

  /** What one receive call returns: the oldest messages, at most the limit. */
  function Batch(q: seq<Message>): (b: seq<Message>)
    ensures |b| <= MAX_MESSAGES
    ensures |b| == |q| || |b| == MAX_MESSAGES
    ensures |b| <= |q| && b == q[..|b|]
  {
    if |q| <= MAX_MESSAGES then q else q[..MAX_MESSAGES]
  }

  /** What the SDK still holds after one receive call. */
  function Remainder(q: seq<Message>): (r: seq<Message>)
    ensures |r| == |q| - |Batch(q)|
    ensures |r| > 0 ==> |Batch(q)| == MAX_MESSAGES
  {
    q[|Batch(q)|..]
  }

  /** A receive call loses nothing: the batch followed by what is left is
      the whole queue. */
  lemma BatchThenRemainder(q: seq<Message>)
    ensures Batch(q) + Remainder(q) == q
  {
  }

  /** The messages delivered from handle `h`, in delivery order. */
  function Received(ds: seq<Delivery>, h: Handle): seq<Message> {
    if |ds| == 0 then []
    else Received(ds[..|ds| - 1], h) + if ds[|ds| - 1].from == h then [ds[|ds| - 1].message] else []
  }

  /** One delivery per message, all from `h` to `to`, in order. */
  function Tagged(h: Handle, to: Peer, msgs: seq<Message>): (ds: seq<Delivery>)
    ensures |ds| == |msgs|
    ensures forall k :: 0 <= k < |ds| ==> ds[k] == Delivery(h, to, msgs[k])
  {
    seq(|msgs|, k requires 0 <= k < |msgs| => Delivery(h, to, msgs[k]))
  }

  /** The SDK's queues after one receive call on `h`. */
  function Consume(inbox: Inbox, h: Handle): (r: Inbox)
    ensures Pending(r, h) == Remainder(Pending(inbox, h))
    ensures forall g {:trigger Pending(r, g)} :: g != h ==> Pending(r, g) == Pending(inbox, g)
  {
    if h in inbox then inbox[h := Remainder(inbox[h])] else inbox
  }

  /** Filtering by handle distributes over concatenation. */
  lemma {:induction false} ReceivedAppend(a: seq<Delivery>, b: seq<Delivery>, h: Handle)
    ensures Received(a + b, h) == Received(a, h) + Received(b, h)
    decreases |b|
  {
    if |b| == 0 {
      assert a + b == a;
    } else {
      var b' := b[..|b| - 1];
      assert (a + b)[..|a + b| - 1] == a + b';
      ReceivedAppend(a, b', h);
    }
  }

  /** A batch tagged with `h` contributes exactly its messages to `h` and
      nothing to any other handle. */
  lemma {:induction false} ReceivedTagged(h: Handle, to: Peer, msgs: seq<Message>, g: Handle)
    ensures Received(Tagged(h, to, msgs), g) == if g == h then msgs else []
    decreases |msgs|
  {
    if |msgs| > 0 {
      var ds := Tagged(h, to, msgs);
      var init := msgs[..|msgs| - 1];
      assert ds[..|ds| - 1] == Tagged(h, to, init);
      ReceivedTagged(h, to, init, g);
      assert msgs == init + [msgs[|msgs| - 1]];
    }
  }

  /** Appending a tagged batch extends exactly one handle's stream. */
  lemma ReceivedStep(ds: seq<Delivery>, h: Handle, to: Peer, msgs: seq<Message>)
    ensures forall g :: Received(ds + Tagged(h, to, msgs), g) == Received(ds, g) + if g == h then msgs else []
  {
    forall g: Handle
      ensures Received(ds + Tagged(h, to, msgs), g) == Received(ds, g) + if g == h then msgs else []
    {
      ReceivedAppend(ds, Tagged(h, to, msgs), g);
      ReceivedTagged(h, to, msgs, g);
    }
  }

  /** `order` is a dictionary enumeration of `registry`: every key once. */
  ghost predicate Enumerates(order: seq<Handle>, registry: map<Handle, ConnRef>) {
    && (forall h :: h in registry <==> h in order)
    && (forall i, j :: 0 <= i < j < |order| ==> order[i] != order[j])
  }

  /** After the connections in `done` have been polled, each of them has
      delivered its batch, and no other connection has delivered anything. */
  ghost predicate StreamsSoFar(ds: seq<Delivery>, inbox: Inbox, done: set<Handle>) {
    forall h {:trigger Received(ds, h)} :: Received(ds, h) == if h in done then Batch(Pending(inbox, h)) else []
  }

  /** ... each of them has kept the rest of its queue, and every other
      queue is untouched. */
  ghost predicate QueuesSoFar(rest: Inbox, inbox: Inbox, done: set<Handle>) {
    forall h {:trigger Pending(rest, h)} :: Pending(rest, h) == if h in done then Remainder(Pending(inbox, h)) else Pending(inbox, h)
  }

  /** ... and every delivery went to the record of a polled connection. */
  ghost predicate RoutedSoFar(ds: seq<Delivery>, registry: map<Handle, ConnRef>, done: set<Handle>) {
    && done <= registry.Keys
    && forall k :: 0 <= k < |ds| ==> ds[k].from in done && ds[k].to == Bound(registry[ds[k].from])
  }

  lemma StreamsOneMore(ds: seq<Delivery>, rest: Inbox, inbox: Inbox, done: set<Handle>, h: Handle, to: Peer)
    requires StreamsSoFar(ds, inbox, done) && QueuesSoFar(rest, inbox, done) && h !in done
    ensures StreamsSoFar(ds + Tagged(h, to, Batch(Pending(rest, h))), inbox, done + {h})
  {
    ReceivedStep(ds, h, to, Batch(Pending(rest, h)));
  }

  lemma QueuesOneMore(rest: Inbox, inbox: Inbox, done: set<Handle>, h: Handle)
    requires QueuesSoFar(rest, inbox, done) && h !in done
    ensures QueuesSoFar(Consume(rest, h), inbox, done + {h})
  {
    var next := Consume(rest, h);
    forall g
      ensures Pending(next, g) == if g in done + {h} then Remainder(Pending(inbox, g)) else Pending(inbox, g)
    {
      OneQueue(rest, inbox, done, h, g);
    }
  }

  /** One queue after one more receive call. */
  lemma OneQueue(rest: Inbox, inbox: Inbox, done: set<Handle>, h: Handle, g: Handle)
    requires QueuesSoFar(rest, inbox, done) && h !in done
    ensures Pending(Consume(rest, h), g) == if g in done + {h} then Remainder(Pending(inbox, g)) else Pending(inbox, g)
  {
    if g == h {
      assert Pending(rest, h) == Pending(inbox, h);
    } else {
      assert Pending(Consume(rest, h), g) == Pending(rest, g);
      assert g in done + {h} <==> g in done;
    }
  }

  lemma RoutedOneMore(ds: seq<Delivery>, registry: map<Handle, ConnRef>, done: set<Handle>,
                      h: Handle, msgs: seq<Message>)
    requires RoutedSoFar(ds, registry, done) && h in registry
    ensures RoutedSoFar(ds + Tagged(h, Bound(registry[h]), msgs), registry, done + {h})
  {
    var batch := Tagged(h, Bound(registry[h]), msgs);
    assert forall k :: |ds| <= k < |ds + batch| ==> (ds + batch)[k] == batch[k - |ds|];
  }

  /** The deliveries of a server poll that visits `order`: one batch per
      connection, whole and in visiting order. */
  function Grouped(order: seq<Handle>, registry: map<Handle, ConnRef>, inbox: Inbox): seq<Delivery>
    requires forall j :: 0 <= j < |order| ==> order[j] in registry
  {
    if |order| == 0 then []
    else
      var h := order[|order| - 1];
      Grouped(order[..|order| - 1], registry, inbox) + Tagged(h, Bound(registry[h]), Batch(Pending(inbox, h)))
  }

  /** The SDK's queues after receive calls on each connection of `order`,
      in that order. */
  function ConsumeAll(inbox: Inbox, order: seq<Handle>): Inbox {
    if |order| == 0 then inbox
    else Consume(ConsumeAll(inbox, order[..|order| - 1]), order[|order| - 1])
  }

  /** The connections among the first `i` of `order`. */
  ghost function Visited(order: seq<Handle>, i: nat): set<Handle>
    requires i <= |order|
  {
    set j | 0 <= j < i :: order[j]
  }

  /** The next connection of an enumeration has not been visited yet, and
      visiting it adds exactly it. */
  lemma NextUnvisited(order: seq<Handle>, registry: map<Handle, ConnRef>, i: nat)
    requires Enumerates(order, registry) && i < |order|
    ensures order[i] !in Visited(order, i)
    ensures Visited(order, i + 1) == Visited(order, i) + {order[i]}
    ensures order[..i + 1][..i] == order[..i]
  {
    assert forall j :: 0 <= j < i ==> order[j] != order[i];
  }

  /** Visiting a prefix of an enumeration leaves each visited connection
      its remainder and every other queue whole. */
  lemma {:induction false} PrefixQueues(order: seq<Handle>, registry: map<Handle, ConnRef>, inbox: Inbox, i: nat)
    requires Enumerates(order, registry) && i <= |order|
    ensures QueuesSoFar(ConsumeAll(inbox, order[..i]), inbox, Visited(order, i))
    decreases i
  {
    if i == 0 {
      assert order[..0] == [];
      assert Visited(order, 0) == {};
    } else {
      PrefixQueues(order, registry, inbox, i - 1);
      NextUnvisited(order, registry, i - 1);
      QueuesOneMore(ConsumeAll(inbox, order[..i - 1]), inbox, Visited(order, i - 1), order[i - 1]);
    }
  }

  /** When the next connection is polled, its queue is still whole. */
  lemma NextQueueWhole(order: seq<Handle>, registry: map<Handle, ConnRef>, inbox: Inbox, i: nat)
    requires Enumerates(order, registry) && i < |order|
    ensures Pending(ConsumeAll(inbox, order[..i]), order[i]) == Pending(inbox, order[i])
  {
    PrefixQueues(order, registry, inbox, i);
    NextUnvisited(order, registry, i);
  }

  /** Visiting a prefix of an enumeration delivers each visited
      connection's whole batch and nothing from any other connection. */
  lemma {:induction false} PrefixStreams(order: seq<Handle>, registry: map<Handle, ConnRef>, inbox: Inbox, i: nat)
    requires Enumerates(order, registry) && i <= |order|
    ensures StreamsSoFar(Grouped(order[..i], registry, inbox), inbox, Visited(order, i))
    decreases i
  {
    if i == 0 {
      assert order[..0] == [];
      assert Visited(order, 0) == {};
    } else {
      var k := i - 1;
      var h := order[k];
      PrefixStreams(order, registry, inbox, k);
      PrefixQueues(order, registry, inbox, k);
      NextUnvisited(order, registry, k);
      StreamsOneMore(Grouped(order[..k], registry, inbox), ConsumeAll(inbox, order[..k]), inbox,
                     Visited(order, k), h, Bound(registry[h]));
    }
  }

  /** Visiting a prefix of an enumeration sends every delivery to the
      record registered for the connection it came from. */
  lemma {:induction false} PrefixRouted(order: seq<Handle>, registry: map<Handle, ConnRef>, inbox: Inbox, i: nat)
    requires Enumerates(order, registry) && i <= |order|
    ensures RoutedSoFar(Grouped(order[..i], registry, inbox), registry, Visited(order, i))
    decreases i
  {
    if i == 0 {
      assert order[..0] == [];
      assert Visited(order, 0) == {};
    } else {
      var k := i - 1;
      var h := order[k];
      PrefixRouted(order, registry, inbox, k);
      NextUnvisited(order, registry, k);
      RoutedOneMore(Grouped(order[..k], registry, inbox), registry, Visited(order, k), h, Batch(Pending(inbox, h)));
    }
  }

  /** The server branch: every registered connection, in enumeration order,
      delivers its batch to its own record. */
  method PollServer(registry: map<Handle, ConnRef>, inbox: Inbox, order: seq<Handle>)
    returns (p: Polled)
    requires Enumerates(order, registry)
    ensures forall k :: 0 <= k < |p.deliveries| ==> p.deliveries[k].from in registry && p.deliveries[k].to == Bound(registry[p.deliveries[k].from])
    ensures forall h :: h in registry ==> Received(p.deliveries, h) == Batch(Pending(inbox, h))
    ensures forall h :: h !in registry ==> Received(p.deliveries, h) == []
    ensures forall h :: h in registry ==> Pending(p.rest, h) == Remainder(Pending(inbox, h))
    ensures forall h :: h !in registry ==> Pending(p.rest, h) == Pending(inbox, h)
    ensures p.deliveries == Grouped(order, registry, inbox)
  {
    var ds, rest := PollInOrder(registry, inbox, order);
    GroupedPolled(order, registry, inbox);
    p := Polled(ds, rest);
  }

  /** The receive loop over `order`: each connection's batch, taken from
      what the SDK holds at that moment, is delivered to its record. */
  method PollInOrder(registry: map<Handle, ConnRef>, inbox: Inbox, order: seq<Handle>)
    returns (ds: seq<Delivery>, rest: Inbox)
    requires Enumerates(order, registry)
    ensures ds == Grouped(order, registry, inbox)
    ensures rest == ConsumeAll(inbox, order)
  {
    ds := [];
    rest := inbox;
    var i := 0;
    assert order[..0] == [];
    while i < |order|
      invariant i <= |order|
      invariant ds == Grouped(order[..i], registry, inbox)
      invariant rest == ConsumeAll(inbox, order[..i])
    {
      var h := order[i];
      NextQueueWhole(order, registry, inbox, i);
      NextUnvisited(order, registry, i);
      ds := ds + Tagged(h, Bound(registry[h]), Batch(Pending(rest, h)));
      rest := Consume(rest, h);
      i := i + 1;
    }
    assert order[..i] == order;
  }

  /** A whole enumeration, visited in order, polls every registered
      connection once and no other. */
  lemma GroupedPolled(order: seq<Handle>, registry: map<Handle, ConnRef>, inbox: Inbox)
    requires Enumerates(order, registry)
    ensures var ds := Grouped(order, registry, inbox);
            forall k :: 0 <= k < |ds| ==> ds[k].from in registry && ds[k].to == Bound(registry[ds[k].from])
    ensures forall h :: h in registry ==> Received(Grouped(order, registry, inbox), h) == Batch(Pending(inbox, h))
    ensures forall h :: h !in registry ==> Received(Grouped(order, registry, inbox), h) == []
    ensures forall h :: h in registry ==> Pending(ConsumeAll(inbox, order), h) == Remainder(Pending(inbox, h))
    ensures forall h :: h !in registry ==> Pending(ConsumeAll(inbox, order), h) == Pending(inbox, h)
  {
    assert order[..|order|] == order;
    PrefixStreams(order, registry, inbox, |order|);
    PrefixQueues(order, registry, inbox, |order|);
    PrefixRouted(order, registry, inbox, |order|);
    VisitedAll(order, registry);
    PolledAll(Grouped(order, registry, inbox), ConsumeAll(inbox, order), inbox, registry);
  }

  /** An enumeration visits every key. */
  lemma VisitedAll(order: seq<Handle>, registry: map<Handle, ConnRef>)
    requires Enumerates(order, registry)
    ensures Visited(order, |order|) == registry.Keys
  {
    forall h | h in registry
      ensures h in Visited(order, |order|)
    {
      var j :| 0 <= j < |order| && order[j] == h;
    }
  }

  /** The loop's invariants, with every registered connection done, are
      the poll's postconditions. */
  lemma PolledAll(ds: seq<Delivery>, rest: Inbox, inbox: Inbox, registry: map<Handle, ConnRef>)
    requires StreamsSoFar(ds, inbox, registry.Keys)
    requires QueuesSoFar(rest, inbox, registry.Keys)
    requires RoutedSoFar(ds, registry, registry.Keys)
    ensures forall k :: 0 <= k < |ds| ==> ds[k].from in registry && ds[k].to == Bound(registry[ds[k].from])
    ensures forall h :: h in registry ==> Received(ds, h) == Batch(Pending(inbox, h))
    ensures forall h :: h !in registry ==> Received(ds, h) == []
    ensures forall h :: h in registry ==> Pending(rest, h) == Remainder(Pending(inbox, h))
    ensures forall h :: h !in registry ==> Pending(rest, h) == Pending(inbox, h)
  {
  }

  /** The client branch: the host connection's batch, delivered to the
      client-to-server record, which nothing reachable ever assigns. */
  function PollClient(host: Handle, inbox: Inbox): (r: Polled)
    ensures Received(r.deliveries, host) == Batch(Pending(inbox, host))
    ensures forall k :: 0 <= k < |r.deliveries| ==> r.deliveries[k].from == host && r.deliveries[k].to == NullPeer
    ensures Pending(r.rest, host) == Remainder(Pending(inbox, host))
    ensures forall h :: h != host ==> Pending(r.rest, h) == Pending(inbox, h)
  {
    var q := Pending(inbox, host);
    ReceivedTagged(host, NullPeer, Batch(q), host);
    Polled(Tagged(host, NullPeer, Batch(q)), if host in inbox then inbox[host := Remainder(q)] else inbox)
  }

  /** The connections a poll drains: all registered ones on a server, the
      host connection on a client. */
  function Drained(t: Transport): set<Handle> {
    if t.isServer then t.registry.Keys else {t.hostConnection}
  }

  /** `Run` decides what later polls drain: as a server every registered
      connection, as a client only the host connection. */
  lemma RunSelectsDrained(t: Transport)
    ensures Drained(Run(t, ServerMode).next) == t.registry.Keys
    ensures Drained(Run(t, ClientMode).next) == {t.hostConnection}
  {
  }

  /** A server that is running and then sees a first `Connected` drains the
      new connection on the next poll, delivering to the object taken from
      the head of the pool. */
  lemma ServerPollsNewConnection(t: Transport, ev: StatusChange, engine: EngineView)
    requires ev.state == Connected && ev.conn !in t.registry && |t.pool| > 0
    ensures var o := OnConnectionStatusChangedServer(Run(t, ServerMode).next, ev, engine);
            && o.Done? && ev.conn in Drained(o.step.next)
            && o.step.next.registry[ev.conn] == t.pool[0]
  {
  }

  /** A client that is running and connects to a valid host id drains the
      connection the SDK returned, and nothing else. */
  lemma ClientPollsHost(t: Transport, address: string, h: Handle)
    requires ParseULong(address).Some?
    ensures Drained(Connect(Run(t, ClientMode).next, address, h).next) == {h}
  {
  }

  /** `PollEvents`: every drained connection delivers its oldest messages,
      at most `MAX_MESSAGES` of them and in the order the SDK holds them,
      and keeps the rest for the next poll; no other connection is touched. */
  method PollEvents(t: Transport, inbox: Inbox, order: seq<Handle>) returns (p: Polled)
    requires t.isServer ==> Enumerates(order, t.registry)
    ensures t.isServer ==> forall k :: 0 <= k < |p.deliveries| ==> p.deliveries[k].from in t.registry && p.deliveries[k].to == Bound(t.registry[p.deliveries[k].from])
    ensures !t.isServer ==> forall k :: 0 <= k < |p.deliveries| ==> p.deliveries[k].to == NullPeer
    ensures forall h :: h in Drained(t) ==> Received(p.deliveries, h) == Batch(Pending(inbox, h))
    ensures forall h :: h in Drained(t) ==> Pending(p.rest, h) == Remainder(Pending(inbox, h))
    ensures forall h :: h !in Drained(t) ==> Received(p.deliveries, h) == [] && Pending(p.rest, h) == Pending(inbox, h)
    ensures forall h :: |Received(p.deliveries, h)| <= MAX_MESSAGES
  {
    if t.isServer {
      p := PollServer(t.registry, inbox, order);
      ServerPollDrains(t, inbox, p);
    } else {
      p := PollClient(t.hostConnection, inbox);
      ClientPollDrains(t, inbox, p);
    }
  }

  /** A server poll's result, read through `Drained`. */
  lemma ServerPollDrains(t: Transport, inbox: Inbox, p: Polled)
    requires t.isServer
    requires forall h :: h in t.registry ==> Received(p.deliveries, h) == Batch(Pending(inbox, h))
    requires forall h :: h !in t.registry ==> Received(p.deliveries, h) == []
    requires forall h :: h in t.registry ==> Pending(p.rest, h) == Remainder(Pending(inbox, h))
    requires forall h :: h !in t.registry ==> Pending(p.rest, h) == Pending(inbox, h)
    ensures forall h :: h in Drained(t) ==> Received(p.deliveries, h) == Batch(Pending(inbox, h))
    ensures forall h :: h in Drained(t) ==> Pending(p.rest, h) == Remainder(Pending(inbox, h))
    ensures forall h :: h !in Drained(t) ==> Received(p.deliveries, h) == [] && Pending(p.rest, h) == Pending(inbox, h)
    ensures forall h :: |Received(p.deliveries, h)| <= MAX_MESSAGES
  {
  }

  /** A client poll's result, read through `Drained`. */
  lemma ClientPollDrains(t: Transport, inbox: Inbox, p: Polled)
    requires !t.isServer && p == PollClient(t.hostConnection, inbox)
    ensures forall h :: h in Drained(t) ==> Received(p.deliveries, h) == Batch(Pending(inbox, h))
    ensures forall h :: h in Drained(t) ==> Pending(p.rest, h) == Remainder(Pending(inbox, h))
    ensures forall h :: h !in Drained(t) ==> Received(p.deliveries, h) == [] && Pending(p.rest, h) == Pending(inbox, h)
    ensures forall h :: |Received(p.deliveries, h)| <= MAX_MESSAGES
  {
    forall h | h != t.hostConnection
      ensures Received(p.deliveries, h) == []
    {
      ReceivedTagged(t.hostConnection, NullPeer, Batch(Pending(inbox, t.hostConnection)), h);
    }
  }
}
