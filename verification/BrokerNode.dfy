/** The broker of the node processes, with its attachment to the bridge, updated in place. */
module BrokerNode {
  import opened Common
  import opened Contract
  import opened ChannelIndex
  import opened ChannelCounts
  import opened ChannelConnectionMaps
  import opened Listeners
  import opened BrokerModel
  import opened Routing
  import Books = QueryState

  class IpcBusBrokerNode {
    var server: bool
    var socketClients: seq<Socket>
    var endpoints: map<Key, Endpoint>
    const subscriptions: ChannelConnectionMap<Endpoint>
    // The bridge: whether a writer to it is open, and the socket it was opened on.
    var socketWriter: bool
    var brokerClient: Socket
    const subscribedChannels: ChannelsRefCount
    // The channel snapshot written to the attached bridge.
    var snapshot: seq<Note>

    ghost predicate Valid()
      reads this, subscriptions, subscribedChannels
    {
      && subscriptions.Valid()
      && subscribedChannels.Valid()
      && socketWriter == subscriptions.client
      && (socketWriter ==> Replay({}, snapshot) == Some(subscriptions.base))
      && (forall k | k in endpoints :: endpoints[k].id == k)
    }

    function Value(): Broker
      reads this, subscriptions, subscribedChannels
    {
      Broker(endpoints, subscriptions.channels,
             if socketWriter then Some(brokerClient) else None, subscribedChannels.counts)
    }

    /** The channel commands written to the attached bridge. */
    function Announced(): seq<Note>
      reads this, subscriptions
    {
      snapshot + subscriptions.notified
    }

    /** A bridge that starts from nothing and applies them knows exactly the broker's channels. */
    lemma AnnouncedIsComplete()
      requires Valid() && socketWriter
      ensures Replay({}, Announced()) == Some(subscriptions.channels.Keys)
    {
      ReplayAppend({}, snapshot, subscriptions.notified);
    }

    constructor ()
      ensures Valid() && fresh(subscriptions) && fresh(subscribedChannels)
      ensures Value() == EMPTY && socketClients == []
    {
      server, socketClients := true, [];
      endpoints := map[];
      subscriptions := new ChannelConnectionMap();
      subscribedChannels := new ChannelsRefCount();
      socketWriter, brokerClient, snapshot := false, 0, [];
    }

    // ----- Endpoints and subscriptions -------------------------------------------------

    method OnEndpointHandshake(socket: Socket, peers: seq<Peer>)
      requires Valid()
      modifies this`endpoints
      ensures Valid()
      ensures endpoints == Register(old(endpoints), socket, peers)
    {
      for i := 0 to |peers|
        invariant Valid() && endpoints == Register(old(endpoints), socket, peers[..i])
      {
        assert peers[..i + 1][..i] == peers[..i];
        endpoints := endpoints[peers[i].id := Endpoint(peers[i].id, peers[i].kind, socket)];
      }
      assert peers[..|peers|] == peers;
    }

    method OnEndpointShutdown(peers: seq<Peer>)
      requires Valid()
      modifies this`endpoints, subscriptions
      ensures Valid()
      ensures endpoints == Unregister(old(endpoints), peers)
      ensures subscriptions.channels == Unsubscribe(old(subscriptions.channels), "", Ids(peers), OfPeer)
      ensures subscriptions.client == old(subscriptions.client)
    {
      for i := 0 to |peers|
        invariant Valid() && endpoints == Unregister(old(endpoints), peers[..i])
        invariant subscriptions.channels == Unsubscribe(old(subscriptions.channels), "", Ids(peers[..i]), OfPeer)
        invariant subscriptions.client == old(subscriptions.client) && subscriptions.base == old(subscriptions.base)
      {
        UnregisterOneMore(old(endpoints), peers, i);
        IdsPrefix(peers, i);
        endpoints := endpoints - {peers[i].id};
        subscriptions.Remove(peers[i].id);
      }
      assert peers[..|peers|] == peers;
    }

    method AddListeners(c: Channel, peers: seq<Peer>)
      requires Valid()
      modifies subscriptions
      ensures Valid()
      ensures subscriptions.channels == Subscribe(endpoints, old(subscriptions.channels), c, Ids(peers))
      ensures subscriptions.client == old(subscriptions.client)
    {
      for i := 0 to |peers|
        invariant Valid()
        invariant subscriptions.channels == Subscribe(endpoints, old(subscriptions.channels), c, Ids(peers[..i]))
        invariant subscriptions.client == old(subscriptions.client) && subscriptions.base == old(subscriptions.base)
      {
        IdsPrefix(peers, i);
        if peers[i].id in endpoints {
          var _ := subscriptions.AddRef(c, peers[i].id, endpoints[peers[i].id], 1);
        }
      }
      assert peers[..|peers|] == peers;
    }

    method RemoveListeners(c: Channel, peers: seq<Peer>, how: Removal)
      requires Valid()
      modifies subscriptions
      ensures Valid()
      ensures subscriptions.channels == Unsubscribe(old(subscriptions.channels), c, Ids(peers), how)
      ensures subscriptions.client == old(subscriptions.client)
    {
      for i := 0 to |peers|
        invariant Valid()
        invariant subscriptions.channels == Unsubscribe(old(subscriptions.channels), c, Ids(peers[..i]), how)
        invariant subscriptions.client == old(subscriptions.client) && subscriptions.base == old(subscriptions.base)
      {
        IdsPrefix(peers, i);
        RemoveOne(subscriptions, c, peers[i].id, how);
      }
      assert peers[..|peers|] == peers;
    }

    // ----- The bridge --------------------------------------------------------------------

    static method Snapshot(channels: set<Channel>) returns (notes: seq<Note>)
      ensures Replay({}, notes) == Some(channels)
    {
      notes := [];
      var untold := channels;
      assert channels - untold == {};
      while untold != {}
        invariant untold <= channels
        invariant Replay({}, notes) == Some(channels - untold)
        decreases untold
      {
        var c :| c in untold;
        HearOne({}, notes, Added(c));
        assert channels - (untold - {c}) == channels - untold + {c};
        notes := notes + [Added(c)];
        untold := untold - {c};
      }
      assert channels - untold == channels;
    }

    /** The first bridge is attached, told every channel, then kept up to date; others are ignored. */
    method OnBridgeConnected(socket: Socket, channels: seq<Channel>)
      requires Valid()
      modifies this, subscriptions, subscribedChannels
      ensures Valid() && socketWriter
      ensures Value() == ConnectBridge(old(Value()), socket, channels)
      ensures server == old(server) && socketClients == old(socketClients)
    {
      if !socketWriter {
        brokerClient := socket;
        socketWriter := true;
        subscribedChannels.AddRefs(channels);
        snapshot := Snapshot(subscriptions.channels.Keys);
        subscriptions.Install();
      }
    }

    method OnBridgeClosed(client: Option<Socket>)
      requires Valid()
      modifies this, subscriptions, subscribedChannels
      ensures Valid()
      ensures Value() == CloseBridge(old(Value()), client)
      ensures endpoints == old(endpoints)
      ensures server == old(server) && socketClients == old(socketClients)
    {
      if socketWriter && (client == None || client == Some(brokerClient)) {
        subscriptions.Uninstall();
        socketWriter := false;
        subscribedChannels.Clear();
      }
    }

    // ----- Losing a socket ---------------------------------------------------------------

    /** Deletes endpoints while it visits them, in any order. */
    method RemoveEndpoints(socket: Socket)
      requires Valid()
      modifies this`endpoints, subscriptions
      ensures Valid() && subscriptions.client == old(subscriptions.client)
      ensures endpoints == old(endpoints) - KeysOf(old(Value()), socket)
      ensures subscriptions.channels == RemoveKeys(old(subscriptions.channels), KeysOf(old(Value()), socket))
    {
      ghost var lost := KeysOf(Value(), socket);
      var unvisited := endpoints.Keys;
      while unvisited != {}
        invariant Valid() && unvisited <= old(endpoints).Keys
        invariant subscriptions.client == old(subscriptions.client) && subscriptions.base == old(subscriptions.base)
        invariant endpoints == old(endpoints) - (lost - unvisited)
        invariant forall c, k ::
                    At(subscriptions.channels, c, k)
                    == if k in lost && k !in unvisited then None else At(old(subscriptions.channels), c, k)
        decreases unvisited
      {
        var k :| k in unvisited;
        unvisited := unvisited - {k};
        if endpoints[k].socket == socket {
          RemoveAt(subscriptions.channels, k);
          endpoints := endpoints - {endpoints[k].id};
          subscriptions.Remove(k);
        }
      }
      RemoveKeysAt(old(subscriptions.channels), lost);
      Extensional(subscriptions.channels, RemoveKeys(old(subscriptions.channels), lost));
    }

    method SocketCleanUp(socket: Socket)
      requires Valid()
      modifies this, subscriptions, subscribedChannels
      ensures Valid()
      ensures Value() == CleanUp(old(Value()), socket)
      ensures server == old(server) && socketClients == old(socketClients)
    {
      OnBridgeClosed(Some(socket));
      RemoveEndpoints(socket);
    }

    /** A splice at -1, for a socket that is not listed, removes the last one. */
    method ForgetClient(socket: Socket)
      modifies this`socketClients
      ensures socket in old(socketClients) ==>
                multiset(socketClients) == multiset(old(socketClients)) - multiset{socket}
      ensures socket !in old(socketClients) && old(socketClients) != [] ==>
                socketClients == old(socketClients)[..|old(socketClients)| - 1]
      ensures old(socketClients) == [] ==> socketClients == []
    {
      var i := 0;
      while i < |socketClients| && socketClients[i] != socket
        invariant i <= |socketClients| && forall j | 0 <= j < i :: socketClients[j] != socket
      {
        i := i + 1;
      }
      var at := if i < |socketClients| then i else |socketClients| - 1;
      if at >= 0 {
        RemovedOne(socketClients, at);
        socketClients := socketClients[..at] + socketClients[at + 1..];
      }
    }

    method OnClientSocketClose(socket: Socket)
      requires Valid()
      modifies this, subscriptions, subscribedChannels
      ensures Valid()
      ensures Value() == if server then CleanUp(old(Value()), socket) else old(Value())
      ensures server == old(server)
      ensures server && socket in old(socketClients) ==>
                multiset(socketClients) == multiset(old(socketClients)) - multiset{socket}
    {
      if server {
        ForgetClient(socket);
        SocketCleanUp(socket);
      }
    }

    /** `_reset`: sockets and subscriptions go, the bridge with them; the endpoints stay. */
    method Reset()
      requires Valid()
      modifies this, subscriptions, subscribedChannels
      ensures Valid()
      ensures Value() == CloseBridge(old(Value()), None).(subs := map[])
      ensures socketClients == [] && server == old(server)
    {
      OnBridgeClosed(None);
      socketClients := [];
      subscriptions.Clear();
    }

    method QueryState() returns (channels: map<Channel, nat>, peers: Books.Peers)
      ensures Books.Totals(subscriptions.channels, subscriptions.channels.Keys, channels, peers)
      ensures Books.Shares(subscriptions.channels, (e: Endpoint) => e.id, subscriptions.channels.Keys, peers)
    {
      channels, peers := Books.Report(subscriptions.channels, (e: Endpoint) => e.id);
    }

    // ----- Dispatch ------------------------------------------------------------------------

    method OnClientSocketCommand(socket: Socket, command: Command)
      requires Valid()
      modifies this, subscriptions, subscribedChannels
      ensures Valid()
      ensures Value() == Handle(old(Value()), socket, command)
      ensures server == old(server) && socketClients == old(socketClients)
    {
      match command {
        case Handshake(peers) => OnEndpointHandshake(socket, peers);
        case Shutdown(peers) => OnEndpointShutdown(peers);
        case AddChannelListener(c, peers) => AddListeners(c, peers);
        case RemoveChannelListener(c, peers) => RemoveListeners(c, peers, ByOne);
        case RemoveChannelAllListeners(c, peers) => RemoveListeners(c, peers, OfChannel);
        case RemoveListeners(peers) => RemoveListeners("", peers, OfPeer);
        case BridgeConnect(channels) => OnBridgeConnected(socket, channels);
        case BridgeAddChannelListener(c) => var _ := subscribedChannels.AddRef(c);
        case BridgeRemoveChannelListener(c) => var _ := subscribedChannels.Release(c);
        case BridgeClose => OnBridgeClosed(None);
      }
    }

    // ----- Messages --------------------------------------------------------------------------

    /** Every method below returns the sockets it wrote the message to, in order. */
    method BroadcastToBridge(client: Socket) returns (copies: seq<Socket>)
      ensures copies == if socketWriter && client != brokerClient then [brokerClient] else []
    {
      copies := if socketWriter && client != brokerClient then [brokerClient] else [];
    }

    method SendToChannel(msg: Message, socket: Socket) returns (copies: seq<Socket>)
      ensures multiset(copies) == multiset(Subscribers(Value(), msg.channel) - {socket})
    {
      var clients: set<Socket> := {};
      if msg.channel in subscriptions.channels {
        clients := ClientsOf(subscriptions.channels[msg.channel], socket);
      }
      copies := SendToEach(clients);
    }

    /** The distinct sockets of the connections, the sender's apart. */
    static method ClientsOf(conns: Conns<Endpoint>, socket: Socket) returns (clients: set<Socket>)
      ensures clients == (set k | k in conns :: conns[k].data.socket) - {socket}
    {
      clients := {};
      var unvisited := conns.Keys;
      while unvisited != {}
        invariant unvisited <= conns.Keys
        invariant clients == (set k | k in conns && k !in unvisited :: conns[k].data.socket) - {socket}
        decreases unvisited
      {
        var k :| k in unvisited;
        unvisited := unvisited - {k};
        if conns[k].data.socket != socket {
          clients := clients + {conns[k].data.socket};
        }
      }
    }

    static method SendToEach(clients: set<Socket>) returns (copies: seq<Socket>)
      ensures multiset(copies) == multiset(clients)
    {
      copies := [];
      var unserved := clients;
      while unserved != {}
        invariant unserved <= clients
        invariant multiset(copies) == multiset(clients - unserved)
        decreases unserved
      {
        var s :| s in unserved;
        assert clients - (unserved - {s}) == (clients - unserved) + {s};
        copies := copies + [s];
        unserved := unserved - {s};
      }
      assert clients - {} == clients;
    }

    method SendToTarget(client: Socket, msg: Message) returns (done: bool, copies: seq<Socket>)
      ensures done == (msg.target.Some? && (IsBridgeTarget(msg.target.value) || msg.target.value.id in endpoints))
      ensures !done ==> copies == []
      ensures done ==> multiset(copies) == multiset(Direct(Value(), client, msg))
                         + if Up(Value(), client, msg) then multiset{brokerClient} else multiset{}
    {
      if msg.target.Some? {
        if IsBridgeTarget(msg.target.value) {
          copies := BroadcastToBridge(client);
          return true, copies;
        }
        if msg.target.value.id in endpoints {
          return true, [endpoints[msg.target.value.id].socket];
        }
      }
      return false, [];
    }

    /** One copy to every socket of `Direct`, one to the bridge when `Up` says so, nothing else. */
    method OnClientSocketMessage(socket: Socket, msg: Message) returns (copies: seq<Socket>)
      ensures multiset(copies) == multiset(Direct(Value(), socket, msg))
                + if Up(Value(), socket, msg) then multiset{brokerClient} else multiset{}
    {
      var done;
      done, copies := SendToTarget(socket, msg);
      if !done {
        match msg.kind {
          case SendMessage =>
            var channelCopies := SendToChannel(msg, socket);
            var bridgeCopies := BroadcastToBridge(socket);
            copies := channelCopies + bridgeCopies;
          case RequestResponse =>
            copies := BroadcastToBridge(socket);
        }
      }
    }
  }
}
