/** Renderer frames: their endpoints and subscriptions, and what the loss of a page takes away. */
module RendererModel {
  import opened Common
  import opened Contract
  import opened ChannelIndex
  import opened Listeners
  import opened EndpointKeys

  datatype Renderers = Renderers(endpoints: map<Key, Peer>, subs: Index<Peer>)

  function FrameKeys(peers: seq<Peer>): seq<Key> {
    seq(|peers|, i requires 0 <= i < |peers| => CreateKeyForEndpoint(peers[i]))
  }

  function Shake(r: Renderers, peer: Peer): Renderers {
    r.(endpoints := r.endpoints[CreateKeyForEndpoint(peer) := peer])
  }

  /** Deletes endpoints; a key without an endpoint is left alone. */
  function Evict(r: Renderers, ks: set<Key>): Renderers {
    Renderers(r.endpoints - ks, RemoveKeys(r.subs, ks * r.endpoints.Keys))
  }

  /** The keys subscribed by some frame of the page. */
  function PageKeys(r: Renderers, wcid: int): set<Key> {
    set c, k | c in r.subs && k in r.subs[c] && OfPage(r.subs[c][k].data, wcid) :: k
  }

  predicate OfPage(peer: Peer, wcid: int) {
    peer.process.Some? && peer.process.value.wcid == wcid
  }

  function Destroy(r: Renderers, wcid: int): Renderers {
    Evict(r, PageKeys(r, wcid))
  }

  function Handle(r: Renderers, command: Command): Renderers {
    match command
    case Shutdown(peers) => Evict(r, set k | k in FrameKeys(peers))
    case AddChannelListener(c, peers) => r.(subs := Subscribe(r.endpoints, r.subs, c, FrameKeys(peers)))
    case RemoveChannelListener(c, peers) => r.(subs := Unsubscribe(r.subs, c, FrameKeys(peers), ByOne))
    case RemoveChannelAllListeners(c, peers) => r.(subs := Unsubscribe(r.subs, c, FrameKeys(peers), OfChannel))
    case RemoveListeners(peers) => r.(subs := Unsubscribe(r.subs, "", FrameKeys(peers), OfPeer))
    case _ => r
  }

  /** Every subscribed key is a registered endpoint, and every endpoint sits under its own key. */
  ghost predicate Sound(r: Renderers) {
    && WellFormed(r.subs)
    && (forall k | k in r.endpoints :: r.endpoints[k].process.Some? && CreateKeyForEndpoint(r.endpoints[k]) == k)
    && (forall c, k :: At(r.subs, c, k).Some? ==>
          && k in r.endpoints
          && At(r.subs, c, k).value.data.process.Some?
          && CreateKeyForEndpoint(At(r.subs, c, k).value.data) == k)
  }

  /** All page and frame ids are in the range in which keys are unambiguous. */
  ghost predicate Ranged(r: Renderers)
    requires Sound(r)
  {
    && (forall k | k in r.endpoints :: InRange(r.endpoints[k].process.value))
    && (forall c, k :: At(r.subs, c, k).Some? ==> InRange(At(r.subs, c, k).value.data.process.value))
  }

  lemma EvictAt(r: Renderers, ks: set<Key>)
    requires Sound(r)
    ensures Sound(Evict(r, ks))
    ensures forall c, k :: At(Evict(r, ks).subs, c, k) == if k in ks then None else At(r.subs, c, k)
  {
    RemoveKeysAt(r.subs, ks * r.endpoints.Keys);
  }

  /** Every subscription of the page's frames is gone, and no other page lost anything. */
  ghost predicate PageForgotten(r: Renderers, wcid: int, after: Renderers) {
    && (forall c, k :: At(after.subs, c, k)
          == if At(r.subs, c, k).Some? && OfPage(At(r.subs, c, k).value.data, wcid) then None else At(r.subs, c, k))
    && (forall k | k in r.endpoints && !OfPage(r.endpoints[k], wcid) ::
          k in after.endpoints && after.endpoints[k] == r.endpoints[k])
  }

  /** What is subscribed under a key of the page is subscribed by the page, on every channel. */
  ghost predicate Unmixed(r: Renderers, wcid: int) {
    forall c, k :: k in PageKeys(r, wcid) && At(r.subs, c, k).Some? ==> OfPage(At(r.subs, c, k).value.data, wcid)
  }

  /** And so is the endpoint registered under it. */
  ghost predicate OwnKeys(r: Renderers, wcid: int) {
    Unmixed(r, wcid) && forall k | k in PageKeys(r, wcid) && k in r.endpoints :: OfPage(r.endpoints[k], wcid)
  }

  /**
   Destroying a page takes every subscription of its frames, and nothing from any other
   page, exactly when the keys it subscribed with are its own.
   */
  lemma DestroyForgetsPage(r: Renderers, wcid: int)
    requires Sound(r)
    ensures Sound(Destroy(r, wcid))
    ensures PageForgotten(r, wcid, Destroy(r, wcid)) <==> OwnKeys(r, wcid)
  {
    var ks, after := PageKeys(r, wcid), Destroy(r, wcid);
    EvictAt(r, ks);
    forall c, k | At(r.subs, c, k).Some? && OfPage(At(r.subs, c, k).value.data, wcid) ensures k in ks {
      assert c in r.subs && k in r.subs[c];
    }
    if PageForgotten(r, wcid, after) {
      forall c, k | k in ks && At(r.subs, c, k).Some? ensures OfPage(At(r.subs, c, k).value.data, wcid) {
        assert At(after.subs, c, k) == None;
      }
      forall k | k in ks && k in r.endpoints ensures OfPage(r.endpoints[k], wcid) {
        assert k !in after.endpoints;
      }
    }
  }

  /** In range the keys of a page are its own. */
  lemma RangedKeysAreOwn(r: Renderers, wcid: int)
    requires Sound(r) && Ranged(r)
    ensures OwnKeys(r, wcid) && PageForgotten(r, wcid, Destroy(r, wcid)) && Ranged(Destroy(r, wcid))
  {
    forall k | k in PageKeys(r, wcid)
      ensures k in r.endpoints ==> OfPage(r.endpoints[k], wcid)
      ensures forall c :: At(r.subs, c, k).Some? ==> OfPage(At(r.subs, c, k).value.data, wcid)
    {
      var c0 :| c0 in r.subs && k in r.subs[c0] && OfPage(r.subs[c0][k].data, wcid);
      assert At(r.subs, c0, k).Some?;
      KeyNamesFrame(r.subs[c0][k].data, r.endpoints[k]);
      forall c | At(r.subs, c, k).Some? ensures OfPage(At(r.subs, c, k).value.data, wcid) {
        KeyNamesFrame(r.subs[c0][k].data, At(r.subs, c, k).value.data);
      }
    }
    DestroyForgetsPage(r, wcid);
    EvictAt(r, PageKeys(r, wcid));
  }

  // ----- What each command does ------------------------------------------------------

  /** The effect of every command on every connection of every frame. */
  lemma CommandAt(r: Renderers, command: Command, c: Channel, k: Key)
    requires Sound(r)
    ensures var before, after := At(r.subs, c, k), At(Handle(r, command).subs, c, k);
            match command
            case AddChannelListener(channel, peers) =>
              after == if c == channel && k in r.endpoints
                       then Plus(before, r.endpoints[k], multiset(FrameKeys(peers))[k]) else before
            case RemoveChannelListener(channel, peers) =>
              after == if c == channel then Minus(before, multiset(FrameKeys(peers))[k]) else before
            case RemoveChannelAllListeners(channel, peers) =>
              after == if c == channel && k in FrameKeys(peers) then None else before
            case RemoveListeners(peers) => after == if k in FrameKeys(peers) then None else before
            case Shutdown(peers) => after == if k in FrameKeys(peers) then None else before
            case _ => after == before
  {
    match command
    case AddChannelListener(channel, peers) => SubscribeAt(r.endpoints, r.subs, channel, FrameKeys(peers));
    case RemoveChannelListener(channel, peers) =>
      UnsubscribeAt(r.subs, channel, FrameKeys(peers), ByOne);
      LeftNone(r.subs, ByOne, c == channel, c, k);
    case RemoveChannelAllListeners(channel, peers) => UnsubscribeAt(r.subs, channel, FrameKeys(peers), OfChannel);
    case RemoveListeners(peers) => UnsubscribeAt(r.subs, "", FrameKeys(peers), OfPeer);
    case Shutdown(peers) => EvictAt(r, set key | key in FrameKeys(peers));
    case _ =>
  }

  /** Frames come with a handshake; they go with a shutdown or their page, and with nothing else. */
  lemma FramesComeAndGo(r: Renderers, peer: Peer, command: Command, wcid: int, k: Key)
    ensures k in Shake(r, peer).endpoints <==> k in r.endpoints || k == CreateKeyForEndpoint(peer)
    ensures CreateKeyForEndpoint(peer) in Shake(r, peer).endpoints
            && Shake(r, peer).endpoints[CreateKeyForEndpoint(peer)] == peer && Shake(r, peer).subs == r.subs
    ensures k in Handle(r, command).endpoints
            <==> k in r.endpoints && !(command.Shutdown? && k in FrameKeys(command.peers))
    ensures k in Destroy(r, wcid).endpoints <==> k in r.endpoints && k !in PageKeys(r, wcid)
  {
  }

  // ----- Whole runs ------------------------------------------------------------------

  datatype Input = Handshaken(peer: Peer) | Received(command: Command) | Destroyed(wcid: int)

  function Step(r: Renderers, input: Input): Renderers {
    match input
    case Handshaken(peer) => Shake(r, peer)
    case Received(command) => Handle(r, command)
    case Destroyed(wcid) => Destroy(r, wcid)
  }

  function Run(r: Renderers, inputs: seq<Input>): Renderers {
    if inputs == [] then r else Step(Run(r, inputs[..|inputs| - 1]), inputs[|inputs| - 1])
  }

  predicate Admissible(input: Input) {
    input.Handshaken? ==> input.peer.process.Some? && InRange(input.peer.process.value)
  }

  /** All that is subscribed after an operation carries data of before, or of a registered endpoint. */
  ghost predicate Inherits(r: Renderers, u: Index<Peer>) {
    forall c, k :: At(u, c, k).Some? ==>
      || (At(r.subs, c, k).Some? && At(r.subs, c, k).value.data == At(u, c, k).value.data)
      || (k in r.endpoints && r.endpoints[k] == At(u, c, k).value.data)
  }

  lemma InheritedIsSound(r: Renderers, u: Index<Peer>)
    requires Sound(r) && WellFormed(u) && Inherits(r, u)
    ensures Sound(r.(subs := u))
    ensures Ranged(r) ==> Ranged(r.(subs := u))
  {
  }

  lemma SubscribeInherits(r: Renderers, c: Channel, ks: seq<Key>)
    requires Sound(r)
    ensures WellFormed(Subscribe(r.endpoints, r.subs, c, ks)) && Inherits(r, Subscribe(r.endpoints, r.subs, c, ks))
  {
    SubscribeAt(r.endpoints, r.subs, c, ks);
  }

  lemma UnsubscribeInherits(r: Renderers, c: Channel, ks: seq<Key>, how: Removal)
    requires Sound(r)
    ensures WellFormed(Unsubscribe(r.subs, c, ks, how)) && Inherits(r, Unsubscribe(r.subs, c, ks, how))
  {
    UnsubscribeAt(r.subs, c, ks, how);
  }

  lemma HandleKeepsSound(r: Renderers, command: Command)
    requires Sound(r)
    ensures Sound(Handle(r, command))
    ensures Ranged(r) ==> Ranged(Handle(r, command))
  {
    match command
    case Shutdown(peers) => EvictAt(r, set k | k in FrameKeys(peers));
    case AddChannelListener(c, peers) =>
      SubscribeInherits(r, c, FrameKeys(peers));
      InheritedIsSound(r, Subscribe(r.endpoints, r.subs, c, FrameKeys(peers)));
    case RemoveChannelListener(c, peers) =>
      UnsubscribeInherits(r, c, FrameKeys(peers), ByOne);
      InheritedIsSound(r, Unsubscribe(r.subs, c, FrameKeys(peers), ByOne));
    case RemoveChannelAllListeners(c, peers) =>
      UnsubscribeInherits(r, c, FrameKeys(peers), OfChannel);
      InheritedIsSound(r, Unsubscribe(r.subs, c, FrameKeys(peers), OfChannel));
    case RemoveListeners(peers) =>
      UnsubscribeInherits(r, "", FrameKeys(peers), OfPeer);
      InheritedIsSound(r, Unsubscribe(r.subs, "", FrameKeys(peers), OfPeer));
    case _ =>
  }

  /** After any run of handshakes in range, commands and destroyed pages the page property can be relied on. */
  lemma {:induction false} RunKeepsSound(inputs: seq<Input>)
    requires forall input | input in inputs :: Admissible(input)
    ensures Sound(Run(Renderers(map[], map[]), inputs)) && Ranged(Run(Renderers(map[], map[]), inputs))
  {
    if inputs != [] {
      var init, last := inputs[..|inputs| - 1], inputs[|inputs| - 1];
      RunKeepsSound(init);
      var r := Run(Renderers(map[], map[]), init);
      match last
      case Handshaken(peer) => assert Admissible(last);
      case Received(command) => HandleKeepsSound(r, command);
      case Destroyed(wcid) => RangedKeysAreOwn(r, wcid);
    }
  }

  /**
   Two frames with the same key: the page that subscribed first takes the other page's
   subscription with it, and destroying the other page takes nothing.
   */
  lemma CollidingPagesShareFate(r: Renderers, c: Channel, one: Peer, two: Peer)
    requires Sound(r) && r.subs == map[]
    requires Framed(one) && Framed(two) && one.process.value.wcid != two.process.value.wcid
    requires CreateKeyForEndpoint(one) == CreateKeyForEndpoint(two)
    ensures var k := CreateKeyForEndpoint(two);
            var first := Handle(Shake(r, one), AddChannelListener(c, [one]));
            var both := Handle(Shake(first, two), AddChannelListener(c, [two]));
            && Count(both.subs, c, k) == 2
            && Count(Destroy(both, one.process.value.wcid).subs, c, k) == 0
            && Destroy(both, two.process.value.wcid).subs == both.subs
  {
    var k := CreateKeyForEndpoint(two);
    assert FrameKeys([one]) == [k] && FrameKeys([two]) == [k];
    var r1 := Shake(r, one);
    var first := Handle(r1, AddChannelListener(c, [one]));
    SubscribeAt(r1.endpoints, r1.subs, c, [k]);
    assert At(first.subs, c, k) == Some(Conn(one, 1));
    var r2 := Shake(first, two);
    var both := Handle(r2, AddChannelListener(c, [two]));
    SubscribeAt(r2.endpoints, r2.subs, c, [k]);
    assert At(both.subs, c, k) == Some(Conn(one, 2));
    assert forall c', k' :: At(both.subs, c', k').Some? ==> c' == c && k' == k;
    LoneConnection(both, c, k, one, two.process.value.wcid);
  }

  lemma LoneConnection(r: Renderers, c: Channel, k: Key, data: Peer, wcid: int)
    requires WellFormed(r.subs) && k in r.endpoints && data.process.Some? && data.process.value.wcid != wcid
    requires At(r.subs, c, k).Some? && At(r.subs, c, k).value.data == data
    requires forall c', k' :: At(r.subs, c', k').Some? ==> c' == c && k' == k
    ensures Count(Destroy(r, data.process.value.wcid).subs, c, k) == 0
    ensures Destroy(r, wcid).subs == r.subs
  {
    var ks := PageKeys(r, data.process.value.wcid);
    assert k in ks;
    RemoveKeysAt(r.subs, ks * r.endpoints.Keys);
    assert At(Destroy(r, data.process.value.wcid).subs, c, k) == None;
    forall c', k' | c' in r.subs && k' in r.subs[c'] ensures c' == c && k' == k {
      assert At(r.subs, c', k').Some?;
    }
    assert PageKeys(r, wcid) * r.endpoints.Keys == {};
    RemoveKeysAt(r.subs, {});
    Extensional(RemoveKeys(r.subs, {}), r.subs);
  }
}

/** The renderer bridge, updated in place. */
module RendererBridge {
  import opened Common
  import opened Contract
  import opened ChannelIndex
  import opened ChannelConnectionMaps
  import opened Listeners
  import opened EndpointKeys
  import opened RendererModel
  import Books = QueryState

  class IpcBusRendererBridge {
    var endpoints: map<Key, Peer>
    const subscriptions: ChannelConnectionMap<Peer>

    /** The client of the subscriptions was installed on the empty map. */
    ghost predicate Valid()
      reads this, subscriptions
    {
      subscriptions.Valid() && subscriptions.client && subscriptions.base == {} && Sound(Value())
    }

    function Value(): Renderers
      reads this, subscriptions
    {
      Renderers(endpoints, subscriptions.channels)
    }

    constructor ()
      ensures Valid() && fresh(subscriptions) && Value() == Renderers(map[], map[])
    {
      endpoints := map[];
      subscriptions := new ChannelConnectionMap();
      new;
      subscriptions.Install();
    }

    /** Completes the peer with what only the main process knows. */
    method OnHandshakeReceived(peer: Peer, wcid: int, frameid: int, isMainFrame: bool) returns (realPeer: Peer)
      requires Valid()
      modifies this`endpoints
      ensures Valid()
      ensures realPeer == peer.(process := Some(Process(wcid, frameid, isMainFrame)))
      ensures Value() == Shake(old(Value()), realPeer)
    {
      realPeer := peer.(process := Some(Process(wcid, frameid, isMainFrame)));
      endpoints := endpoints[CreateKeyForEndpoint(realPeer) := realPeer];
    }

    method DeleteEndpointKey(k: Key)
      requires Valid()
      modifies this`endpoints, subscriptions
      ensures Valid()
      ensures Value() == Evict(old(Value()), {k})
    {
      EvictAt(Value(), {k});
      if k in endpoints {
        endpoints := endpoints - {k};
        subscriptions.Remove(k);
        RemoveAt(old(subscriptions.channels), k);
      }
      Extensional(subscriptions.channels, Evict(old(Value()), {k}).subs);
    }

    method DeleteEndpointKeys(ks: set<Key>)
      requires Valid()
      modifies this`endpoints, subscriptions
      ensures Valid()
      ensures Value() == Evict(old(Value()), ks)
    {
      EvictAt(Value(), ks);
      var left := ks;
      while left != {}
        invariant left <= ks && Valid()
        invariant endpoints == old(endpoints) - (ks - left)
        invariant forall c, k ::
                    At(subscriptions.channels, c, k)
                    == if k in ks && k !in left then None else At(old(subscriptions.channels), c, k)
        decreases left
      {
        var k :| k in left;
        left := left - {k};
        EvictAt(Value(), {k});
        DeleteEndpointKey(k);
      }
      Extensional(subscriptions.channels, Evict(old(Value()), ks).subs);
    }

    /**
     The `destroyed` handler looks its frames up among the subscribed connections only, one
     for each key. It never evicts more than the page's keys; unless one of them carries
     data of another page it evicts them all.
     */
    method OnDestroyed(wcid: int)
      requires Valid()
      modifies this`endpoints, subscriptions
      ensures Valid()
      ensures exists ks :: ks <= PageKeys(old(Value()), wcid) && Value() == Evict(old(Value()), ks)
      ensures Unmixed(old(Value()), wcid) ==> Value() == Destroy(old(Value()), wcid)
    {
      var conns := subscriptions.GetConns();
      forall k | k in conns ensures conns[k].process.Some? && CreateKeyForEndpoint(conns[k]) == k {
        var c :| At(subscriptions.channels, c, k).Some? && At(subscriptions.channels, c, k).value.data == conns[k];
      }
      var entries := set k | k in conns && conns[k].process.value.wcid == wcid;
      PageEntries(Value(), conns, wcid, entries);
      DeleteEndpointKeys(entries);
    }

    /** Whatever channel a key's data was taken from, it tells the same page unless the key is mixed. */
    static lemma PageEntries(r: Renderers, conns: map<Key, Peer>, wcid: int, entries: set<Key>)
      requires forall k :: k in conns <==> exists c :: At(r.subs, c, k).Some?
      requires forall k | k in conns ::
                 exists c :: At(r.subs, c, k).Some? && At(r.subs, c, k).value.data == conns[k]
      requires forall k :: k in entries <==> k in conns && OfPage(conns[k], wcid)
      ensures entries <= PageKeys(r, wcid)
      ensures Unmixed(r, wcid) ==> entries == PageKeys(r, wcid)
    {
      forall k | k in entries ensures k in PageKeys(r, wcid) {
        var c :| At(r.subs, c, k).Some? && At(r.subs, c, k).value.data == conns[k];
        assert c in r.subs && k in r.subs[c];
      }
      if Unmixed(r, wcid) {
        forall k | k in PageKeys(r, wcid) ensures k in entries {
          var c :| c in r.subs && k in r.subs[c] && OfPage(r.subs[c][k].data, wcid);
          assert At(r.subs, c, k).Some?;
          var c' :| At(r.subs, c', k).Some? && At(r.subs, c', k).value.data == conns[k];
        }
      }
    }

    method OnIPCCommandReceived(command: Command)
      requires Valid()
      modifies this`endpoints, subscriptions
      ensures Valid()
      ensures Value() == Handle(old(Value()), command)
    {
      HandleKeepsSound(Value(), command);
      match command {
        case Shutdown(peers) => DeleteEndpointKeys(set k | k in FrameKeys(peers));
        case AddChannelListener(c, peers) => AddListeners(c, FrameKeys(peers));
        case RemoveChannelListener(c, peers) => RemoveListeners(c, FrameKeys(peers), ByOne);
        case RemoveChannelAllListeners(c, peers) => RemoveListeners(c, FrameKeys(peers), OfChannel);
        case RemoveListeners(peers) => RemoveListeners("", FrameKeys(peers), OfPeer);
        case _ =>
      }
    }

    /** Two frames may have the same process id, and then share a peer entry. */
    method QueryState(processId: Peer -> Key) returns (channels: map<Channel, nat>, peers: Books.Peers)
      ensures Books.Totals(subscriptions.channels, subscriptions.channels.Keys, channels, peers)
      ensures Books.Shares(subscriptions.channels, processId, subscriptions.channels.Keys, peers)
    {
      channels, peers := Books.Report(subscriptions.channels, processId);
    }

    method AddListeners(c: Channel, ks: seq<Key>)
      requires subscriptions.Valid()
      modifies subscriptions
      ensures subscriptions.Valid()
      ensures subscriptions.channels == Subscribe(endpoints, old(subscriptions.channels), c, ks)
      ensures subscriptions.client == old(subscriptions.client) && subscriptions.base == old(subscriptions.base)
    {
      for i := 0 to |ks|
        invariant subscriptions.Valid()
        invariant subscriptions.channels == Subscribe(endpoints, old(subscriptions.channels), c, ks[..i])
        invariant subscriptions.client == old(subscriptions.client) && subscriptions.base == old(subscriptions.base)
      {
        assert ks[..i + 1][..i] == ks[..i];
        if ks[i] in endpoints {
          var _ := subscriptions.AddRef(c, ks[i], endpoints[ks[i]], 1);
        }
      }
      assert ks[..|ks|] == ks;
    }

    method RemoveListeners(c: Channel, ks: seq<Key>, how: Removal)
      requires subscriptions.Valid()
      modifies subscriptions
      ensures subscriptions.Valid()
      ensures subscriptions.channels == Unsubscribe(old(subscriptions.channels), c, ks, how)
      ensures subscriptions.client == old(subscriptions.client) && subscriptions.base == old(subscriptions.base)
    {
      for i := 0 to |ks|
        invariant subscriptions.Valid()
        invariant subscriptions.channels == Unsubscribe(old(subscriptions.channels), c, ks[..i], how)
        invariant subscriptions.client == old(subscriptions.client) && subscriptions.base == old(subscriptions.base)
      {
        assert ks[..i + 1][..i] == ks[..i];
        RemoveOne(subscriptions, c, ks[i], how);
      }
      assert ks[..|ks|] == ks;
    }
  }
}
