/**
 The bridge of the Electron main process: it hands every message to the renderer
 frames, the main transport and the socket transport. Methods return what they sent.
 */
module BridgeImpl {
  import opened Common
  import opened Contract
  import opened ChannelIndex
  import opened ChannelCounts
  import opened ChannelConnectionMaps
  import opened EndpointKeys
  import opened Routing
  import opened RendererBridge
  import opened BridgeSession

  class IpcBusBridgeImpl {
    const rendererConnector: IpcBusRendererBridge
    // The main transport, as far as routing depends on it.
    var mainTransport: Host
    // The socket transport and its mirror of the broker's channels.
    var socketTransport: bool
    const subscribedChannels: ChannelsRefCount

    constructor (renderers: IpcBusRendererBridge, main: Host)
      ensures rendererConnector == renderers && mainTransport == main && !socketTransport
      ensures fresh(subscribedChannels) && subscribedChannels.counts == map[]
    {
      rendererConnector, mainTransport, socketTransport := renderers, main, false;
      subscribedChannels := new ChannelsRefCount();
    }

    function Value(): Bridge
      reads this, rendererConnector, rendererConnector.subscriptions, subscribedChannels
    {
      Bridge(rendererConnector.endpoints, rendererConnector.subscriptions.channels, mainTransport,
             socketTransport, subscribedChannels.counts)
    }

    /** The renderer bridge's share: one write per frame, and whether the message stops here. */
    method BroadcastData(local: bool, msg: Message) returns (kept: bool, copies: seq<Key>)
      ensures kept == KeptByRenderers(msg)
      ensures multiset(copies) == multiset(FrameCopies(Value(), local, msg))
    {
      copies := [];
      if msg.target.Some? && msg.target.value.kind == Renderer {
        var key := CreateKeyForEndpoint(msg.target.value);
        if key in rendererConnector.endpoints {
          copies := [key];
        }
        return true, copies;
      }
      if msg.kind == SendMessage && msg.channel in rendererConnector.subscriptions.channels {
        var echo := if local then {CreateKeyForEndpoint(msg.peer)} else {};
        copies := SendToFrames(rendererConnector.subscriptions.channels[msg.channel].Keys, echo);
      }
      kept := false;
    }

    static method SendToFrames(conns: set<Key>, echo: set<Key>) returns (copies: seq<Key>)
      ensures multiset(copies) == multiset(conns - echo)
    {
      copies := [];
      var unvisited := conns;
      assert conns - unvisited - echo == {};
      while unvisited != {}
        invariant unvisited <= conns
        invariant multiset(copies) == multiset(conns - unvisited - echo)
        decreases unvisited
      {
        var k :| k in unvisited;
        ghost var done := conns - unvisited - echo;
        unvisited := unvisited - {k};
        assert conns - unvisited - echo == if k in echo then done else done + {k};
        // Prevent the echo of a message to the frame it comes from.
        if k !in echo {
          copies := copies + [k];
        }
      }
      assert conns - unvisited - echo == conns - echo;
    }

    /** From a frame: first the other frames, then the main transport, then the broker. */
    method OnRendererMessageReceived(msg: Message, answered: bool)
      returns (copies: seq<Key>, toMain: bool, toBroker: bool)
      ensures multiset(copies) == multiset(FrameCopies(Value(), true, msg))
      ensures toMain == !KeptByRenderers(msg)
      ensures toBroker == (!KeptByRenderers(msg) && !Handled(mainTransport, msg, answered) && GoesToBroker(Value(), msg))
    {
      var kept;
      kept, copies := BroadcastData(true, msg);
      toMain, toBroker := false, false;
      if !kept {
        toMain := true;
        if !Handled(mainTransport, msg, answered) {
          toBroker := SocketIsTarget(msg);
        }
      }
    }

    method OnMainMessageReceived(msg: Message) returns (copies: seq<Key>, toBroker: bool)
      ensures multiset(copies) == multiset(FrameCopies(Value(), false, msg))
      ensures toBroker == (!KeptByRenderers(msg) && GoesToBroker(Value(), msg))
    {
      var kept;
      kept, copies := BroadcastData(false, msg);
      toBroker := false;
      if !kept {
        toBroker := SocketIsTarget(msg);
      }
    }

    /** From the broker: the main transport first, the frames unless it handled the message; never back. */
    method OnSocketMessageReceived(msg: Message, answered: bool) returns (copies: seq<Key>)
      ensures multiset(copies) == if Handled(mainTransport, msg, answered) then multiset{}
                                  else multiset(FrameCopies(Value(), false, msg))
    {
      copies := [];
      if !Handled(mainTransport, msg, answered) {
        var kept;
        kept, copies := BroadcastData(false, msg);
      }
    }

    method SocketIsTarget(msg: Message) returns (target: bool)
      ensures target == GoesToBroker(Value(), msg)
    {
      if !socketTransport {
        return false;
      }
      if subscribedChannels.Has(msg.channel) {
        return true;
      }
      return msg.target.Some? && IsProcessTarget(msg.target.value);
    }

    // ----- Channels ----------------------------------------------------------------------

    /** A first or last subscriber in Electron is announced to the broker while a socket transport is set. */
    method OnBridgeChannelChanged(note: Note) returns (posted: seq<Command>)
      ensures posted == if socketTransport then [Announce(note)] else []
    {
      posted := [];
      if socketTransport {
        match note {
          case Added(c) => posted := [BridgeAddChannelListener(c)];
          case Removed(c) => posted := [BridgeRemoveChannelListener(c)];
        }
      }
    }

    /** The snapshot: a channel that renderers and main both hold is listed twice. */
    method GetChannels(mainChannels: set<Channel>) returns (channels: seq<Channel>)
      ensures multiset(channels)
              == multiset(rendererConnector.subscriptions.channels.Keys) + multiset(mainChannels)
    {
      var r := Listed(rendererConnector.subscriptions.channels.Keys);
      var m := Listed(mainChannels);
      channels := r + m;
    }

    static method Listed(channels: set<Channel>) returns (listed: seq<Channel>)
      ensures multiset(listed) == multiset(channels)
    {
      listed := [];
      var left := channels;
      while left != {}
        invariant left <= channels
        invariant multiset(listed) == multiset(channels - left)
        decreases left
      {
        var c :| c in left;
        assert channels - (left - {c}) == (channels - left) + {c};
        listed := listed + [c];
        left := left - {c};
      }
      assert channels - left == channels;
    }

    /** A command of the broker for the mirror. */
    method OnConnectorCommand(note: Note)
      requires subscribedChannels.Valid()
      modifies subscribedChannels
      ensures subscribedChannels.Valid()
      ensures subscribedChannels.counts == Follow(old(subscribedChannels.counts), [note])
    {
      assert [note][..0] == [];
      match note {
        case Added(c) => var _ := subscribedChannels.AddRef(c);
        case Removed(c) => var _ := subscribedChannels.Release(c);
      }
    }

    method OnConnectorShutdown()
      modifies this`socketTransport, subscribedChannels
      ensures !socketTransport && subscribedChannels.counts == map[]
    {
      subscribedChannels.Clear();
      socketTransport := false;
    }
  }
}
