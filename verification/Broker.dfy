/**
 The broker as a value: registered endpoints, their subscriptions, and the attached
 bridge with the mirror of the channels it announced.
 */
module BrokerModel {
  import opened Common
  import opened Contract
  import opened ChannelIndex
  import opened ChannelCounts
  import opened Listeners

  datatype Endpoint = Endpoint(id: Key, kind: ProcessType, socket: Socket)

  datatype Broker = Broker(
    endpoints: map<Key, Endpoint>,
    subs: Index<Endpoint>,
    bridge: Option<Socket>,
    mirror: Counts)

  const EMPTY := Broker(map[], map[], None, map[])

  // ----- Commands --------------------------------------------------------------

  function Register(endpoints: map<Key, Endpoint>, socket: Socket, peers: seq<Peer>): map<Key, Endpoint> {
    if peers == [] then endpoints
    else
      var p := peers[|peers| - 1];
      Register(endpoints, socket, peers[..|peers| - 1])[p.id := Endpoint(p.id, p.kind, socket)]
  }

  function Ids(peers: seq<Peer>): seq<Key> {
    seq(|peers|, i requires 0 <= i < |peers| => peers[i].id)
  }

  function Unregister(endpoints: map<Key, Endpoint>, peers: seq<Peer>): map<Key, Endpoint> {
    endpoints - set k | k in Ids(peers)
  }

  /** Detaches the bridge, or does nothing when `client` is some other socket. */
  function CloseBridge(b: Broker, client: Option<Socket>): Broker {
    if b.bridge.Some? && (client == None || client == b.bridge) then b.(bridge := None, mirror := map[]) else b
  }

  function ConnectBridge(b: Broker, socket: Socket, channels: seq<Channel>): Broker {
    if b.bridge.Some? then b else b.(bridge := Some(socket), mirror := AddAll(b.mirror, channels))
  }

  function Handle(b: Broker, socket: Socket, command: Command): Broker {
    match command
    case Handshake(peers) => b.(endpoints := Register(b.endpoints, socket, peers))
    case Shutdown(peers) =>
      b.(endpoints := Unregister(b.endpoints, peers), subs := Unsubscribe(b.subs, "", Ids(peers), OfPeer))
    case AddChannelListener(c, peers) => b.(subs := Subscribe(b.endpoints, b.subs, c, Ids(peers)))
    case RemoveChannelListener(c, peers) => b.(subs := Unsubscribe(b.subs, c, Ids(peers), ByOne))
    case RemoveChannelAllListeners(c, peers) => b.(subs := Unsubscribe(b.subs, c, Ids(peers), OfChannel))
    case RemoveListeners(peers) => b.(subs := Unsubscribe(b.subs, "", Ids(peers), OfPeer))
    case BridgeConnect(channels) => ConnectBridge(b, socket, channels)
    case BridgeAddChannelListener(c) => b.(mirror := Add(b.mirror, c))
    case BridgeRemoveChannelListener(c) => b.(mirror := Take(b.mirror, c))
    case BridgeClose => CloseBridge(b, None)
  }

  function KeysOf(b: Broker, socket: Socket): set<Key> {
    set k | k in b.endpoints && b.endpoints[k].socket == socket
  }

  /** A client socket was lost: the bridge, if it was the bridge's, and its endpoints go. */
  function CleanUp(b: Broker, socket: Socket): Broker {
    var ks := KeysOf(b, socket);
    var closed := CloseBridge(b, Some(socket));
    closed.(endpoints := b.endpoints - ks, subs := RemoveKeys(b.subs, ks))
  }

  lemma IdsPrefix(peers: seq<Peer>, i: nat)
    requires i < |peers|
    ensures Ids(peers[..i + 1]) == Ids(peers[..i]) + [peers[i].id]
    ensures Ids(peers[..i + 1])[..i] == Ids(peers[..i])
  {
  }

  lemma UnregisterOneMore(endpoints: map<Key, Endpoint>, peers: seq<Peer>, i: nat)
    requires i < |peers|
    ensures Unregister(endpoints, peers[..i + 1]) == Unregister(endpoints, peers[..i]) - {peers[i].id}
  {
    IdsPrefix(peers, i);
  }

  // ----- Registration ----------------------------------------------------------------

  lemma {:induction false} RegisterAt(endpoints: map<Key, Endpoint>, socket: Socket, peers: seq<Peer>, k: Key)
    ensures k in Register(endpoints, socket, peers) <==> k in endpoints || k in Ids(peers)
    ensures k in Ids(peers) ==> Register(endpoints, socket, peers)[k].socket == socket
    ensures k in Ids(peers) ==> Register(endpoints, socket, peers)[k].id == k
    ensures k in endpoints && k !in Ids(peers) ==> Register(endpoints, socket, peers)[k] == endpoints[k]
  {
    if peers != [] {
      var init := peers[..|peers| - 1];
      RegisterAt(endpoints, socket, init, k);
      assert Ids(peers) == Ids(init) + [peers[|peers| - 1].id];
    }
  }

  // ----- The invariant ---------------------------------------------------------------

  /** Every subscribed key is a registered endpoint, reached through the same socket. */
  ghost predicate Routed(b: Broker) {
    forall c, k :: At(b.subs, c, k).Some? ==>
      && k in b.endpoints
      && b.endpoints[k].socket == At(b.subs, c, k).value.data.socket
  }

  ghost predicate Named(b: Broker) {
    && (forall k | k in b.endpoints :: b.endpoints[k].id == k)
    && (forall c, k :: At(b.subs, c, k).Some? ==> At(b.subs, c, k).value.data.id == k)
  }

  ghost predicate Inv(b: Broker) {
    WellFormed(b.subs) && Positive(b.mirror) && Routed(b) && Named(b)
  }

  /** No listed peer is subscribed through another socket. */
  ghost predicate Unclaimed(b: Broker, socket: Socket, peers: seq<Peer>) {
    forall c, k :: k in Ids(peers) && At(b.subs, c, k).Some? ==> At(b.subs, c, k).value.data.socket == socket
  }

  /**
   A handshake keeps the invariant exactly when it takes over no subscribed peer from
   another socket: the subscription keeps the endpoint it was made with.
   */
  lemma HandshakeKeepsRouted(b: Broker, socket: Socket, peers: seq<Peer>)
    requires Inv(b)
    ensures Inv(Handle(b, socket, Handshake(peers))) <==> Unclaimed(b, socket, peers)
  {
    var after := Handle(b, socket, Handshake(peers));
    forall k ensures k in after.endpoints <==> k in b.endpoints || k in Ids(peers) {
      RegisterAt(b.endpoints, socket, peers, k);
    }
    forall k | k in Ids(peers) ensures after.endpoints[k].socket == socket && after.endpoints[k].id == k {
      RegisterAt(b.endpoints, socket, peers, k);
    }
    forall k | k in b.endpoints && k !in Ids(peers) ensures after.endpoints[k] == b.endpoints[k] {
      RegisterAt(b.endpoints, socket, peers, k);
    }
    if Routed(after) {
      forall c, k | k in Ids(peers) && At(b.subs, c, k).Some?
        ensures At(b.subs, c, k).value.data.socket == socket
      {
        assert At(after.subs, c, k).Some?;
      }
    }
  }

  ghost predicate Allowed(b: Broker, socket: Socket, command: Command) {
    command.Handshake? ==> Unclaimed(b, socket, command.peers)
  }

  /** Losing subscriptions does no harm. */
  lemma FewerKeepsInv(b: Broker, c: Channel, ks: seq<Key>, how: Removal)
    requires Inv(b)
    ensures Inv(b.(subs := Unsubscribe(b.subs, c, ks, how)))
    ensures how == OfPeer ==> forall c', k :: k in ks ==> At(Unsubscribe(b.subs, c, ks, how), c', k) == None
  {
    UnsubscribeAt(b.subs, c, ks, how);
  }

  lemma HandleKeepsInv(b: Broker, socket: Socket, command: Command)
    requires Inv(b) && Allowed(b, socket, command)
    ensures Inv(Handle(b, socket, command))
  {
    match command
    case Handshake(peers) => HandshakeKeepsRouted(b, socket, peers);
    case Shutdown(peers) => FewerKeepsInv(b, "", Ids(peers), OfPeer);
    case AddChannelListener(c, peers) => SubscribeAt(b.endpoints, b.subs, c, Ids(peers));
    case RemoveChannelListener(c, peers) => FewerKeepsInv(b, c, Ids(peers), ByOne);
    case RemoveChannelAllListeners(c, peers) => FewerKeepsInv(b, c, Ids(peers), OfChannel);
    case RemoveListeners(peers) => FewerKeepsInv(b, "", Ids(peers), OfPeer);
    case BridgeConnect(channels) => AddAllGet(b.mirror, channels);
    case BridgeAddChannelListener(c) =>
    case BridgeRemoveChannelListener(c) =>
    case BridgeClose =>
  }

  /**
   After a client socket closed nothing mentions it any more, and every other
   connection of every channel is as it was.
   */
  lemma CleanUpForgetsSocket(b: Broker, socket: Socket)
    requires Inv(b)
    ensures var after := CleanUp(b, socket);
            && Inv(after)
            && (forall k | k in after.endpoints :: after.endpoints[k].socket != socket)
            && (forall k | k in b.endpoints && b.endpoints[k].socket != socket ::
                  k in after.endpoints && after.endpoints[k] == b.endpoints[k])
            && (forall c, k :: At(after.subs, c, k)
                  == if At(b.subs, c, k).Some? && At(b.subs, c, k).value.data.socket == socket then None
                     else At(b.subs, c, k))
            && after.bridge != Some(socket)
            && (b.bridge != Some(socket) ==> after.bridge == b.bridge && after.mirror == b.mirror)
  {
    RemoveKeysAt(b.subs, KeysOf(b, socket));
  }

  // ----- What each command does ------------------------------------------------------

  /**
   The effect of every command on every connection: additions count for registered peers
   only, each removal takes what it names, and nothing else changes.
   */
  lemma CommandAt(b: Broker, socket: Socket, command: Command, c: Channel, k: Key)
    requires WellFormed(b.subs)
    ensures var before, after := At(b.subs, c, k), At(Handle(b, socket, command).subs, c, k);
            match command
            case AddChannelListener(channel, peers) =>
              after == if c == channel && k in b.endpoints
                       then Plus(before, b.endpoints[k], multiset(Ids(peers))[k]) else before
            case RemoveChannelListener(channel, peers) =>
              after == if c == channel then Minus(before, multiset(Ids(peers))[k]) else before
            case RemoveChannelAllListeners(channel, peers) =>
              after == if c == channel && k in Ids(peers) then None else before
            case RemoveListeners(peers) => after == if k in Ids(peers) then None else before
            case Shutdown(peers) => after == if k in Ids(peers) then None else before
            case _ => after == before
  {
    match command
    case AddChannelListener(channel, peers) => SubscribeAt(b.endpoints, b.subs, channel, Ids(peers));
    case RemoveChannelListener(channel, peers) =>
      UnsubscribeAt(b.subs, channel, Ids(peers), ByOne);
      LeftNone(b.subs, ByOne, c == channel, c, k);
    case RemoveChannelAllListeners(channel, peers) => UnsubscribeAt(b.subs, channel, Ids(peers), OfChannel);
    case RemoveListeners(peers) => UnsubscribeAt(b.subs, "", Ids(peers), OfPeer);
    case Shutdown(peers) => UnsubscribeAt(b.subs, "", Ids(peers), OfPeer);
    case _ =>
  }

  /** Peers come with a handshake and go with a shutdown; nothing else registers or unregisters. */
  lemma CommandRegisters(b: Broker, socket: Socket, command: Command, k: Key)
    ensures var after := Handle(b, socket, command).endpoints;
            && (k in after <==> match command
                                case Handshake(peers) => k in b.endpoints || k in Ids(peers)
                                case Shutdown(peers) => k in b.endpoints && k !in Ids(peers)
                                case _ => k in b.endpoints)
            && (k in after ==> if command.Handshake? && k in Ids(command.peers) then after[k].socket == socket
                               else k in b.endpoints && after[k] == b.endpoints[k])
  {
    if command.Handshake? {
      RegisterAt(b.endpoints, socket, command.peers, k);
    }
  }

  /** Only the first bridge is attached, any BridgeClose detaches it, and single announcements count by one. */
  lemma CommandBridges(b: Broker, socket: Socket, command: Command, c: Channel)
    requires Positive(b.mirror)
    ensures var after := Handle(b, socket, command);
            match command
            case BridgeConnect(channels) =>
              if b.bridge.Some? then after == b
              else after.bridge == Some(socket) && Get(after.mirror, c) == Get(b.mirror, c) + multiset(channels)[c]
            case BridgeClose => after.bridge == None && (b.bridge.Some? ==> Get(after.mirror, c) == 0)
            case BridgeAddChannelListener(channel) =>
              after.bridge == b.bridge && Get(after.mirror, c) == Get(b.mirror, c) + if c == channel then 1 else 0
            case BridgeRemoveChannelListener(channel) =>
              && after.bridge == b.bridge
              && Get(after.mirror, c)
                 == if c == channel && Get(b.mirror, c) > 0 then Get(b.mirror, c) - 1 else Get(b.mirror, c)
            case _ => after.bridge == b.bridge && after.mirror == b.mirror
  {
    if command.BridgeConnect? {
      AddAllGet(b.mirror, command.channels);
    }
  }

  /** Removing what was added, for the same peers, leaves no trace: neither of registered peers nor of others. */
  lemma RemovalUndoesAddition(b: Broker, socket: Socket, c: Channel, peers: seq<Peer>)
    requires Inv(b)
    ensures var added := Handle(b, socket, AddChannelListener(c, peers));
            Handle(added, socket, RemoveChannelListener(c, peers)) == b
  {
    var add, remove := AddChannelListener(c, peers), RemoveChannelListener(c, peers);
    var added := Handle(b, socket, add);
    HandleKeepsInv(b, socket, add);
    HandleKeepsInv(added, socket, remove);
    var after := Handle(added, socket, remove);
    forall c', k ensures At(after.subs, c', k) == At(b.subs, c', k) {
      CommandAt(b, socket, add, c', k);
      CommandAt(added, socket, remove, c', k);
      assert At(b.subs, c', k).Some? ==> k in b.endpoints && At(b.subs, c', k).value.refCount >= 1;
    }
    Extensional(after.subs, b.subs);
  }

  // ----- Whole runs ------------------------------------------------------------------

  datatype Input = Received(socket: Socket, command: Command) | Lost(socket: Socket)

  function Step(b: Broker, input: Input): Broker {
    match input
    case Received(socket, command) => Handle(b, socket, command)
    case Lost(socket) => CleanUp(b, socket)
  }

  function Run(b: Broker, inputs: seq<Input>): Broker
    decreases |inputs|
  {
    if inputs == [] then b else Run(Step(b, inputs[0]), inputs[1..])
  }

  /** No handshake of the run takes over a peer that is subscribed through another socket. */
  ghost predicate Orderly(b: Broker, inputs: seq<Input>)
    decreases |inputs|
  {
    inputs == [] ||
    (&& (inputs[0].Received? ==> Allowed(b, inputs[0].socket, inputs[0].command))
     && Orderly(Step(b, inputs[0]), inputs[1..]))
  }

  lemma {:induction false} RunKeepsInv(b: Broker, inputs: seq<Input>)
    requires Inv(b) && Orderly(b, inputs)
    ensures Inv(Run(b, inputs))
    decreases |inputs|
  {
    if inputs != [] {
      match inputs[0] {
        case Received(socket, command) => HandleKeepsInv(b, socket, command);
        case Lost(socket) => CleanUpForgetsSocket(b, socket);
      }
      RunKeepsInv(Step(b, inputs[0]), inputs[1..]);
    }
  }

  /** A peer that moves to a second socket while subscribed leaves a stale route behind. */
  lemma TakenOverPeerIsStale()
    ensures var peer := Peer("p", Node, None);
            var run := [Received(1, Handshake([peer])),
                        Received(1, AddChannelListener("c", [peer])),
                        Received(2, Handshake([peer]))];
            !Routed(Run(EMPTY, run))
  {
    var peer := Peer("p", Node, None);
    var add, move := AddChannelListener("c", [peer]), Handshake([peer]);
    var b1 := Handle(EMPTY, 1, Handshake([peer]));
    RegisterAt(EMPTY.endpoints, 1, [peer], "p");
    assert Ids([peer]) == ["p"];
    var b2 := Handle(b1, 1, add);
    SubscribeAt(b1.endpoints, b1.subs, "c", Ids([peer]));
    assert At(b1.subs, "c", "p") == None;
    assert At(b2.subs, "c", "p") == Some(Conn(b1.endpoints["p"], 1));
    var b3 := Handle(b2, 2, move);
    RegisterAt(b2.endpoints, 2, [peer], "p");
    assert At(b3.subs, "c", "p").value.data.socket == 1 && b3.endpoints["p"].socket == 2;
    var run := [Received(1, Handshake([peer])), Received(1, add), Received(2, move)];
    assert run[1..] == [Received(1, add), Received(2, move)] && run[1..][1..] == [Received(2, move)];
    assert Run(EMPTY, run) == Run(b1, run[1..]) == Run(b2, run[1..][1..]) == Run(b3, []);
  }
}
