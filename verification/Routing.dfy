/**
 The journey of a message over the broker and the bridge. A `Place` is a process that
 can be handed a copy; a `Hop` is a message on its way to a component that forwards it.
 */
module Routing {
  import opened Common
  import opened Contract
  import opened ChannelIndex
  import opened ChannelCounts
  import opened BrokerModel
  import opened EndpointKeys

  /** A process: its clients with listeners, per channel, and its pending requests. */
  datatype Host = Host(listening: map<Channel, set<Key>>, pending: set<Key>)

  /** The Electron side: renderer endpoints and subscriptions, main transport, socket transport. */
  datatype Bridge = Bridge(
    endpoints: map<Key, Peer>,
    subs: Index<Peer>,
    main: Host,
    socketUp: bool,
    mirror: Counts)

  // ----- Inside one process ----------------------------------------------------------

  /** The client a message is restricted to, if any: an empty target id restricts nothing. */
  function Aim(msg: Message): Option<Key> {
    if msg.target.Some? && msg.target.value.id != "" then Some(msg.target.value.id) else None
  }

  function Listeners(host: Host, c: Channel): set<Key> {
    if c in host.listening then host.listening[c] else {}
  }

  /** The clients whose listeners run when the process is handed a message. */
  function Ran(host: Host, msg: Message): set<Key> {
    if msg.kind != SendMessage then {}
    else if Aim(msg).Some? then Listeners(host, msg.channel) * {Aim(msg).value}
    else Listeners(host, msg.channel)
  }

  /**
   The process keeps the message to itself: its target is here, a client answered the
   request on the spot (`answered`), or it is the response of a pending request.
   */
  function Handled(host: Host, msg: Message, answered: bool): bool {
    match msg.kind
    case SendMessage =>
      Ran(host, msg) != {} && (Aim(msg).Some? || (msg.request.Some? && answered))
    case RequestResponse => msg.channel in host.pending
  }

  /** Being handed the message is of consequence for the process. */
  function Concerned(host: Host, msg: Message): bool {
    match msg.kind
    case SendMessage => msg.channel in host.listening
    case RequestResponse => msg.channel in host.pending
  }

  // ----- The broker --------------------------------------------------------------------

  function Subscribers(b: Broker, c: Channel): set<Socket> {
    if c in b.subs then set k | k in b.subs[c] :: b.subs[c][k].data.socket else {}
  }

  /** The sockets that get one copy each, the bridge apart. */
  function Direct(b: Broker, from: Socket, msg: Message): set<Socket> {
    if msg.target.Some? && IsBridgeTarget(msg.target.value) then {}
    else if msg.target.Some? && msg.target.value.id in b.endpoints then {b.endpoints[msg.target.value.id].socket}
    else if msg.kind == SendMessage then Subscribers(b, msg.channel) - {from}
    else {}
  }

  /** The bridge gets a copy. */
  function Up(b: Broker, from: Socket, msg: Message): bool {
    && b.bridge.Some? && b.bridge.value != from
    && (msg.target.None? || IsBridgeTarget(msg.target.value) || msg.target.value.id !in b.endpoints)
  }

  // ----- The bridge --------------------------------------------------------------------

  /** The renderer bridge decides by the type of the target whether it keeps the message. */
  function KeptByRenderers(msg: Message): bool {
    msg.target.Some? && msg.target.value.kind == Renderer
  }

  /** The frames that get one copy each; a message from a frame does not go back to it. */
  function FrameCopies(bridge: Bridge, local: bool, msg: Message): set<Key> {
    if KeptByRenderers(msg) then
      if CreateKeyForEndpoint(msg.target.value) in bridge.endpoints then {CreateKeyForEndpoint(msg.target.value)} else {}
    else if msg.kind == SendMessage && msg.channel in bridge.subs then
      bridge.subs[msg.channel].Keys - if local then {CreateKeyForEndpoint(msg.peer)} else {}
    else {}
  }

  /** The socket transport is a target: the mirror holds the channel, or a node process is aimed at. */
  function GoesToBroker(bridge: Bridge, msg: Message): bool {
    && bridge.socketUp
    && (msg.channel in bridge.mirror || (msg.target.Some? && IsProcessTarget(msg.target.value)))
  }

  // ----- The whole network ---------------------------------------------------------------

  /**
   `uplink` is the bridge's socket as the broker knows it; `direct` gives the renderer
   peer that a renderer-targeted channel name carries.
   */
  datatype Net = Net(
    broker: Broker,
    bridge: Bridge,
    uplink: Socket,
    nodes: map<Socket, Host>,
    frames: map<Key, Host>,
    direct: map<Channel, Peer>)

  datatype Place = AtNode(socket: Socket) | AtMain | AtFrame(key: Key)

  datatype Hop =
    | ToBroker(from: Socket, msg: Message)
    | ToBridge(msg: Message)
    | FromMain(msg: Message)
    | FromFrame(key: Key, msg: Message, ports: bool)

  /** A frame posts to the page of the target directly when that is the page's main frame. */
  function Shortcut(net: Net, msg: Message, ports: bool): Option<Peer> {
    var target :=
      if msg.target.Some? then if msg.target.value.kind == Renderer then msg.target else None
      else if msg.channel in net.direct then Some(net.direct[msg.channel]) else None;
    if !ports && target.Some? && target.value.process.Some? && target.value.process.value.isMainFrame
    then target else None
  }

  function Nodes(sockets: set<Socket>): multiset<Place> {
    multiset(set s | s in sockets :: AtNode(s))
  }

  function Frames(keys: set<Key>): multiset<Place> {
    multiset(set k | k in keys :: AtFrame(k))
  }

  function InMain(bridge: Bridge, msg: Message): multiset<Place> {
    if Concerned(bridge.main, msg) then multiset{AtMain} else multiset{}
  }

  /** How often a hop can still be forwarded. */
  function Rank(net: Net, hop: Hop): nat {
    match hop
    case ToBridge(_) => 0
    case ToBroker(_, _) => 1
    case FromMain(_) => 2
    case FromFrame(_, _, _) => 2
  }

  /** Every copy handed out on the way; the recursion ends, so nothing is forwarded for ever. */
  function Travel(net: Net, hop: Hop, answered: bool): multiset<Place>
    decreases Rank(net, hop)
  {
    match hop
    case ToBroker(from, msg) =>
      Nodes(Direct(net.broker, from, msg))
      + if Up(net.broker, from, msg) then Travel(net, ToBridge(msg), answered) else multiset{}
    case ToBridge(msg) =>
      InMain(net.bridge, msg)
      + if Handled(net.bridge.main, msg, answered) then multiset{} else Frames(FrameCopies(net.bridge, false, msg))
    case FromMain(msg) =>
      Frames(FrameCopies(net.bridge, false, msg))
      + if !KeptByRenderers(msg) && GoesToBroker(net.bridge, msg)
        then Travel(net, ToBroker(net.uplink, msg), answered) else multiset{}
    case FromFrame(key, msg, ports) =>
      if Shortcut(net, msg, ports).Some? then multiset{AtFrame(CreateKeyForEndpoint(Shortcut(net, msg, ports).value))}
      else
        Frames(FrameCopies(net.bridge, true, msg))
        + (if KeptByRenderers(msg) then multiset{}
           else
             InMain(net.bridge, msg)
             + if !Handled(net.bridge.main, msg, answered) && GoesToBroker(net.bridge, msg)
               then Travel(net, ToBroker(net.uplink, msg), answered) else multiset{})
  }

  function Depart(origin: Place, msg: Message, ports: bool): Hop {
    match origin
    case AtNode(s) => ToBroker(s, msg)
    case AtMain => FromMain(msg)
    case AtFrame(k) => FromFrame(k, msg, ports)
  }

  function HostAt(net: Net, p: Place): Host {
    match p
    case AtNode(s) => if s in net.nodes then net.nodes[s] else Host(map[], {})
    case AtMain => net.bridge.main
    case AtFrame(k) => if k in net.frames then net.frames[k] else Host(map[], {})
  }

  /** The bridge's socket is attached and carries no node process. */
  ghost predicate Attached(net: Net) {
    && net.broker.bridge == Some(net.uplink)
    && net.bridge.socketUp
    && (forall c :: net.uplink !in Subscribers(net.broker, c))
  }

  /** The bridge has applied every channel command of the broker. */
  ghost predicate MirrorDrained(net: Net) {
    forall c :: c in net.bridge.mirror <==> c in net.broker.subs
  }

  /** A frame's messages carry the frame's own peer. */
  predicate Signed(origin: Place, msg: Message) {
    origin.AtFrame? ==> CreateKeyForEndpoint(msg.peer) == origin.key
  }

  // ----- Untargeted messages: one copy for every subscribed process ------------------------

  predicate Untargeted(msg: Message) {
    msg.kind == SendMessage && msg.target == None
  }

  function Subscribed(net: Net, p: Place, c: Channel): bool {
    match p
    case AtNode(s) => s in Subscribers(net.broker, c)
    case AtMain => c in net.bridge.main.listening
    case AtFrame(k) => c in net.bridge.subs && k in net.bridge.subs[c]
  }

  /** The copy does not have to leave Electron, or the mirror tells that it has to. */
  function Reachable(net: Net, origin: Place, p: Place, c: Channel): bool {
    (p.AtNode? && !origin.AtNode?) ==> c in net.bridge.mirror
  }

  lemma NodesAt(sockets: set<Socket>, p: Place)
    ensures Nodes(sockets)[p] == if p.AtNode? && p.socket in sockets then 1 else 0
  {
    var places := set s | s in sockets :: AtNode(s);
    assert p in places <==> p.AtNode? && p.socket in sockets;
  }

  lemma FramesAt(keys: set<Key>, p: Place)
    ensures Frames(keys)[p] == if p.AtFrame? && p.key in keys then 1 else 0
  {
    var places := set k | k in keys :: AtFrame(k);
    assert p in places <==> p.AtFrame? && p.key in keys;
  }

  /** Main answered the request on the spot, and was asked before the other half of the bus. */
  predicate Stopped(net: Net, origin: Place, p: Place, msg: Message, answered: bool) {
    && Handled(net.bridge.main, msg, answered)
    && ((origin.AtNode? && p.AtFrame?) || (origin.AtFrame? && p.AtNode?))
  }

  lemma CopiesFromNode(net: Net, s: Socket, msg: Message, answered: bool, p: Place)
    requires Attached(net) && Untargeted(msg) && s != net.uplink
    ensures Travel(net, ToBroker(s, msg), answered)[p]
            == if p != AtNode(s) && Subscribed(net, p, msg.channel) && !Stopped(net, AtNode(s), p, msg, answered)
               then 1 else 0
  {
    var direct, frames := Direct(net.broker, s, msg), FrameCopies(net.bridge, false, msg);
    var rest := if Handled(net.bridge.main, msg, answered) then multiset{} else Frames(frames);
    assert Travel(net, ToBroker(s, msg), answered) == Nodes(direct) + (InMain(net.bridge, msg) + rest);
    NodesAt(direct, p);
    FramesAt(frames, p);
  }

  lemma CopiesFromMain(net: Net, msg: Message, answered: bool, p: Place)
    requires Attached(net) && Untargeted(msg)
    ensures Travel(net, FromMain(msg), answered)[p]
            == if p != AtMain && Subscribed(net, p, msg.channel) && (p.AtNode? ==> msg.channel in net.bridge.mirror)
               then 1 else 0
  {
    var direct, frames := Direct(net.broker, net.uplink, msg), FrameCopies(net.bridge, false, msg);
    assert Travel(net, ToBroker(net.uplink, msg), answered) == Nodes(direct);
    NodesAt(direct, p);
    FramesAt(frames, p);
  }

  lemma CopiesFromFrame(net: Net, key: Key, msg: Message, ports: bool, answered: bool, p: Place)
    requires Attached(net) && Untargeted(msg)
    requires Shortcut(net, msg, ports) == None && CreateKeyForEndpoint(msg.peer) == key
    ensures Travel(net, FromFrame(key, msg, ports), answered)[p]
            == if p != AtFrame(key) && Subscribed(net, p, msg.channel)
                  && (p.AtNode? ==> msg.channel in net.bridge.mirror)
                  && !Stopped(net, AtFrame(key), p, msg, answered) then 1 else 0
  {
    var direct, frames := Direct(net.broker, net.uplink, msg), FrameCopies(net.bridge, true, msg);
    assert Travel(net, ToBroker(net.uplink, msg), answered) == Nodes(direct);
    var rest := if !Handled(net.bridge.main, msg, answered) && GoesToBroker(net.bridge, msg)
                then Nodes(direct) else multiset{};
    assert Travel(net, FromFrame(key, msg, ports), answered) == Frames(frames) + (InMain(net.bridge, msg) + rest);
    NodesAt(direct, p);
    FramesAt(frames, p);
  }

  /**
   The exact number of copies of an untargeted message, request or not: one for every
   subscribed process but the sender's, as far as the mirror knows the channel and unless
   main answered the request on the way.
   */
  lemma CopiesOfUntargeted(net: Net, origin: Place, msg: Message, ports: bool, answered: bool, p: Place)
    requires Attached(net) && Signed(origin, msg) && Untargeted(msg)
    requires origin.AtNode? ==> origin.socket != net.uplink
    requires origin.AtFrame? ==> Shortcut(net, msg, ports) == None
    ensures Travel(net, Depart(origin, msg, ports), answered)[p]
            == if p != origin && Subscribed(net, p, msg.channel) && Reachable(net, origin, p, msg.channel)
                  && !Stopped(net, origin, p, msg, answered) then 1 else 0
  {
    match origin
    case AtNode(s) => CopiesFromNode(net, s, msg, answered, p);
    case AtMain => CopiesFromMain(net, msg, answered, p);
    case AtFrame(k) => CopiesFromFrame(net, k, msg, ports, answered, p);
  }

  /** Exactly one copy for every other subscribed process, none for the rest. */
  ghost predicate OneCopyEach(net: Net, origin: Place, msg: Message, ports: bool) {
    forall p ::
      Travel(net, Depart(origin, msg, ports), false)[p] == if p != origin && Subscribed(net, p, msg.channel) then 1 else 0
  }

  /** With the mirror drained, and unless a request is answered on the way: one copy each. */
  lemma ExactlyOneCopyEach(net: Net, origin: Place, msg: Message, ports: bool)
    requires Attached(net) && MirrorDrained(net)
    requires Signed(origin, msg) && Untargeted(msg)
    requires origin.AtNode? ==> origin.socket != net.uplink
    requires origin.AtFrame? ==> Shortcut(net, msg, ports) == None
    ensures OneCopyEach(net, origin, msg, ports)
  {
    forall p
      ensures Travel(net, Depart(origin, msg, ports), false)[p]
              == if p != origin && Subscribed(net, p, msg.channel) then 1 else 0
    {
      CopiesOfUntargeted(net, origin, msg, ports, false, p);
    }
  }

  /**
   Down to the clients: when every other process with listeners is subscribed, an
   untargeted message runs every listening client of every process once, the sender's own
   process included. A process may be subscribed without listening any more.
   */
  lemma EveryListenerRunsOnce(net: Net, origin: Place, msg: Message, ports: bool)
    requires Attached(net) && MirrorDrained(net)
    requires Signed(origin, msg) && Untargeted(msg)
    requires origin.AtNode? ==> origin.socket != net.uplink
    requires origin.AtFrame? ==> Shortcut(net, msg, ports) == None
    requires forall p :: p != origin && Listeners(HostAt(net, p), msg.channel) != {} ==> Subscribed(net, p, msg.channel)
    ensures forall p, x ::
              Runs(net, origin, msg, ports, p, x) == if x in Listeners(HostAt(net, p), msg.channel) then 1 else 0
  {
    ExactlyOneCopyEach(net, origin, msg, ports);
  }

  /** A request that main may answer on the way: the other half of the bus gets its copies exactly when main did not. */
  lemma RequestsReachNoMore(net: Net, origin: Place, msg: Message, ports: bool, answered: bool)
    requires Attached(net) && MirrorDrained(net)
    requires Signed(origin, msg) && Untargeted(msg)
    requires origin.AtNode? ==> origin.socket != net.uplink
    requires origin.AtFrame? ==> Shortcut(net, msg, ports) == None
    ensures forall p ::
              Travel(net, Depart(origin, msg, ports), answered)[p]
              == if p != origin && Subscribed(net, p, msg.channel) && !Stopped(net, origin, p, msg, answered) then 1 else 0
  {
    forall p
      ensures Travel(net, Depart(origin, msg, ports), answered)[p]
              == if p != origin && Subscribed(net, p, msg.channel) && !Stopped(net, origin, p, msg, answered) then 1 else 0
    {
      CopiesOfUntargeted(net, origin, msg, ports, answered, p);
    }
  }

  /** A frame's request that a client of main answers on the spot does not leave for the broker. */
  lemma AnsweredRequestStaysInElectron(net: Net, key: Key, msg: Message, ports: bool, s: Socket)
    requires Untargeted(msg) && msg.request.Some? && Listeners(net.bridge.main, msg.channel) != {}
    requires Shortcut(net, msg, ports) == None
    ensures Travel(net, FromFrame(key, msg, ports), true)[AtNode(s)] == 0
  {
    FramesAt(FrameCopies(net.bridge, true, msg), AtNode(s));
  }

  /** Nor does a node's request reach the frames once a client of main has answered it. */
  lemma AnsweredRequestStaysOutOfFrames(net: Net, s: Socket, msg: Message, k: Key)
    requires Untargeted(msg) && msg.request.Some? && Listeners(net.bridge.main, msg.channel) != {}
    ensures Travel(net, ToBroker(s, msg), true)[AtFrame(k)] == 0
  {
    NodesAt(Direct(net.broker, s, msg), AtFrame(k));
  }

  // ----- The two halves apart -----------------------------------------------------------------

  /** Without the socket transport no message of a frame or of main leaves Electron. */
  lemma DetachedElectronKeepsMessages(net: Net, key: Key, msg: Message, ports: bool, answered: bool, s: Socket)
    requires !net.bridge.socketUp
    ensures Travel(net, FromMain(msg), answered)[AtNode(s)] == 0
    ensures Travel(net, FromFrame(key, msg, ports), answered)[AtNode(s)] == 0
  {
    FramesAt(FrameCopies(net.bridge, false, msg), AtNode(s));
    FramesAt(FrameCopies(net.bridge, true, msg), AtNode(s));
  }

  /** Without a bridge at the broker no message of a node reaches Electron. */
  lemma DetachedBrokerKeepsMessages(net: Net, s: Socket, msg: Message, answered: bool, p: Place)
    requires net.broker.bridge == None && !p.AtNode?
    ensures Travel(net, ToBroker(s, msg), answered)[p] == 0
  {
    NodesAt(Direct(net.broker, s, msg), p);
  }

  // ----- The shortcut of a frame --------------------------------------------------------------

  /** Besides the sender the process `p` is subscribed to the channel, and no other is. */
  ghost predicate OnlyOther(net: Net, origin: Place, p: Place, c: Channel) {
    p != origin && Subscribed(net, p, c) && forall q :: q != origin && Subscribed(net, q, c) ==> q == p
  }

  predicate IsMainFrame(peer: Peer) {
    peer.process.Some? && peer.process.value.isMainFrame
  }

  /**
   A frame reaches every other subscribed process once exactly when it sends with ports,
   when the channel does not name the main frame of a page, or when that frame is the only
   one there is to reach.
   */
  lemma FrameReachesAllUnlessShortcut(net: Net, key: Key, msg: Message, ports: bool)
    requires Attached(net) && MirrorDrained(net)
    requires Signed(AtFrame(key), msg) && Untargeted(msg)
    ensures OneCopyEach(net, AtFrame(key), msg, ports)
            <==> || ports
                 || msg.channel !in net.direct
                 || !IsMainFrame(net.direct[msg.channel])
                 || OnlyOther(net, AtFrame(key), AtFrame(CreateKeyForEndpoint(net.direct[msg.channel])), msg.channel)
  {
    match Shortcut(net, msg, ports)
    case None => ExactlyOneCopyEach(net, AtFrame(key), msg, ports);
    case Some(target) =>
      var end := AtFrame(CreateKeyForEndpoint(target));
      var copies := Travel(net, Depart(AtFrame(key), msg, ports), false);
      assert copies == multiset{end};
      forall q ensures copies[q] == if q == end then 1 else 0 {
      }
      if OneCopyEach(net, AtFrame(key), msg, ports) {
        assert copies[end] == if end != AtFrame(key) && Subscribed(net, end, msg.channel) then 1 else 0;
        forall q | q != AtFrame(key) && Subscribed(net, q, msg.channel) ensures q == end {
          assert copies[q] == 1;
        }
      }
  }

  /** A node process that listens on the channel made for a page's main frame hears nothing from a frame. */
  lemma ShortcutSkipsSubscribers(msg: Message, page: Peer)
    requires Untargeted(msg)
    requires page.process.Some? && page.process.value.isMainFrame
    ensures var subs := map[msg.channel := map["n" := Conn(Endpoint("n", Node, 2), 1)]];
            var net := Net(Broker(map[], subs, Some(1), map[]),
                           Bridge(map[], map[], Host(map[], {}), true, map[msg.channel := 1]),
                           1, map[], map[], map[msg.channel := page]);
            && Attached(net) && MirrorDrained(net) && Subscribed(net, AtNode(2), msg.channel)
            && Travel(net, Depart(AtFrame(CreateKeyForEndpoint(msg.peer)), msg, false), false)[AtNode(2)] == 0
            && !OneCopyEach(net, AtFrame(CreateKeyForEndpoint(msg.peer)), msg, false)
  {
    var subs := map[msg.channel := map["n" := Conn(Endpoint("n", Node, 2), 1)]];
    var net := Net(Broker(map[], subs, Some(1), map[]),
                   Bridge(map[], map[], Host(map[], {}), true, map[msg.channel := 1]),
                   1, map[], map[], map[msg.channel := page]);
    assert subs[msg.channel]["n"].data.socket == 2 && "n" in subs[msg.channel];
    assert Subscribed(net, AtNode(2), msg.channel);
    var from := AtFrame(CreateKeyForEndpoint(msg.peer));
    assert Travel(net, Depart(from, msg, false), false) == multiset{AtFrame(CreateKeyForEndpoint(page))};
    assert Travel(net, Depart(from, msg, false), false)[AtNode(2)] == 0;
  }

  // ----- Targeted messages: the target's listeners, once --------------------------------------

  /** The target is registered where the bus looks for it. */
  predicate RegisteredAt(net: Net, home: Place, target: Peer) {
    match home
    case AtNode(s) => IsProcessTarget(target) && target.id in net.broker.endpoints
                      && net.broker.endpoints[target.id].socket == s
    case AtMain => target.kind == Main
    case AtFrame(k) => target.kind == Renderer && CreateKeyForEndpoint(target) == k && k in net.bridge.endpoints
  }

  /** How often the listeners of client `x` of process `p` run for one send, local delivery included. */
  function Runs(net: Net, origin: Place, msg: Message, ports: bool, p: Place, x: Key): nat {
    var here := HostAt(net, origin);
    var local := if p == origin && x in Ran(here, msg) then 1 else 0;
    if Handled(here, msg, false) then local
    else local + Travel(net, Depart(origin, msg, ports), false)[p] * (if x in Ran(HostAt(net, p), msg) then 1 else 0)
  }


  /** A message or a response for a peer that is registered at `home` and concerns no other process. */
  ghost predicate Addressed(net: Net, home: Place, msg: Message) {
    && msg.target.Some? && msg.target.value.id != ""
    && RegisteredAt(net, home, msg.target.value)
    && Taken(net, home, msg)
    && forall p :: p != home ==> !Taken(net, p, msg)
  }

  /** The target listens in this process, or the answered request is pending there. */
  predicate Taken(net: Net, p: Place, msg: Message) {
    match msg.kind
    case SendMessage => msg.target.Some? && msg.target.value.id in Listeners(HostAt(net, p), msg.channel)
    case RequestResponse => msg.channel in HostAt(net, p).pending
  }

  lemma AddressedFromNode(net: Net, s: Socket, home: Place, msg: Message)
    requires Attached(net) && Addressed(net, home, msg) && home != AtNode(s) && s != net.uplink
    ensures Travel(net, ToBroker(s, msg), false)[home] == 1
  {
    var direct, frames := Direct(net.broker, s, msg), FrameCopies(net.bridge, false, msg);
    NodesAt(direct, home);
    FramesAt(frames, home);
    assert !home.AtMain? ==> !Taken(net, AtMain, msg);
    if IsBridgeTarget(msg.target.value) {
      assert Travel(net, ToBroker(s, msg), false) == Nodes(direct) + Travel(net, ToBridge(msg), false);
    } else {
      assert Travel(net, ToBroker(s, msg), false) == Nodes({home.socket});
    }
  }

  lemma AddressedFromMain(net: Net, home: Place, msg: Message)
    requires Attached(net) && Addressed(net, home, msg) && home != AtMain
    ensures Travel(net, FromMain(msg), false)[home] == 1
  {
    var direct, frames := Direct(net.broker, net.uplink, msg), FrameCopies(net.bridge, false, msg);
    NodesAt(direct, home);
    FramesAt(frames, home);
    assert Travel(net, ToBroker(net.uplink, msg), false) == Nodes(direct);
  }

  lemma AddressedToFrameFromFrame(net: Net, key: Key, home: Place, msg: Message, ports: bool)
    requires Attached(net) && Addressed(net, home, msg) && home.AtFrame?
    ensures Travel(net, FromFrame(key, msg, ports), false)[home] == 1
  {
    if Shortcut(net, msg, ports) == None {
      var frames := FrameCopies(net.bridge, true, msg);
      assert frames == {home.key};
      FramesAt(frames, home);
      assert Travel(net, FromFrame(key, msg, ports), false) == Frames(frames) + multiset{};
    }
  }

  lemma AddressedToMainFromFrame(net: Net, key: Key, msg: Message, ports: bool)
    requires Attached(net) && Addressed(net, AtMain, msg)
    ensures Travel(net, FromFrame(key, msg, ports), false)[AtMain] == 1
  {
    assert Shortcut(net, msg, ports) == None && !KeptByRenderers(msg);
    assert Taken(net, AtMain, msg);
    assert msg.kind == SendMessage ==> msg.target.value.id in Ran(net.bridge.main, msg);
    assert Handled(net.bridge.main, msg, false) && Concerned(net.bridge.main, msg);
    var frames := FrameCopies(net.bridge, true, msg);
    assert Travel(net, FromFrame(key, msg, ports), false) == Frames(frames) + (multiset{AtMain} + multiset{});
    FramesAt(frames, AtMain);
  }

  lemma AddressedToNodeFromFrame(net: Net, key: Key, home: Place, msg: Message, ports: bool)
    requires Attached(net) && Addressed(net, home, msg) && home.AtNode?
    ensures Travel(net, FromFrame(key, msg, ports), false)[home] == 1
  {
    assert Shortcut(net, msg, ports) == None && !KeptByRenderers(msg);
    assert !Taken(net, AtMain, msg);
    assert !Handled(net.bridge.main, msg, false) && GoesToBroker(net.bridge, msg);
    var direct, frames := Direct(net.broker, net.uplink, msg), FrameCopies(net.bridge, true, msg);
    assert direct == {home.socket};
    assert Travel(net, ToBroker(net.uplink, msg), false) == Nodes(direct);
    assert Travel(net, FromFrame(key, msg, ports), false)
        == Frames(frames) + (InMain(net.bridge, msg) + Nodes(direct));
    NodesAt(direct, home);
    FramesAt(frames, home);
  }

  lemma AddressedArrivesOnce(net: Net, origin: Place, home: Place, msg: Message, ports: bool)
    requires Attached(net) && Addressed(net, home, msg) && origin != home
    requires origin.AtNode? ==> origin.socket != net.uplink
    ensures Travel(net, Depart(origin, msg, ports), false)[home] == 1
  {
    match origin
    case AtNode(s) => AddressedFromNode(net, s, home, msg);
    case AtMain => AddressedFromMain(net, home, msg);
    case AtFrame(k) =>
      match home {
        case AtFrame(_) => AddressedToFrameFromFrame(net, k, home, msg, ports);
        case AtMain => AddressedToMainFromFrame(net, k, msg, ports);
        case AtNode(_) => AddressedToNodeFromFrame(net, k, home, msg, ports);
      }
  }

  /**
   Whom a targeted message bothers besides its home: no other node process, no frame when a
   renderer is the target, and no process twice.
   */
  lemma AddressedBothersFew(net: Net, origin: Place, home: Place, msg: Message, ports: bool, p: Place)
    requires Attached(net) && Addressed(net, home, msg) && p != home
    requires origin.AtNode? ==> origin.socket != net.uplink && home != origin
    ensures var copies := Travel(net, Depart(origin, msg, ports), false)[p];
            && copies <= 1
            && (p.AtNode? || (p.AtFrame? && home.AtFrame?) ==> copies == 0)
  {
    match origin
    case AtNode(s) => FromNodeBothersFew(net, s, home, msg, p);
    case AtMain => FromMainBothersFew(net, home, msg, p);
    case AtFrame(k) => FromFrameBothersFew(net, k, home, msg, ports, p);
  }

  lemma FromNodeBothersFew(net: Net, s: Socket, home: Place, msg: Message, p: Place)
    requires Attached(net) && Addressed(net, home, msg) && p != home && s != net.uplink
    ensures var copies := Travel(net, ToBroker(s, msg), false)[p];
            copies <= 1 && (p.AtNode? || (p.AtFrame? && home.AtFrame?) ==> copies == 0)
  {
    var direct, frames := Direct(net.broker, s, msg), FrameCopies(net.bridge, false, msg);
    NodesAt(direct, p);
    FramesAt(frames, p);
    if IsBridgeTarget(msg.target.value) {
      assert Travel(net, ToBroker(s, msg), false) == Nodes(direct) + Travel(net, ToBridge(msg), false);
    } else {
      assert Travel(net, ToBroker(s, msg), false) == Nodes(direct);
    }
  }

  lemma FromMainBothersFew(net: Net, home: Place, msg: Message, p: Place)
    requires Attached(net) && Addressed(net, home, msg) && p != home
    ensures var copies := Travel(net, FromMain(msg), false)[p];
            copies <= 1 && (p.AtNode? || (p.AtFrame? && home.AtFrame?) ==> copies == 0)
  {
    var direct, frames := Direct(net.broker, net.uplink, msg), FrameCopies(net.bridge, false, msg);
    NodesAt(direct, p);
    FramesAt(frames, p);
    assert Travel(net, ToBroker(net.uplink, msg), false) == Nodes(direct);
  }

  lemma FromFrameBothersFew(net: Net, key: Key, home: Place, msg: Message, ports: bool, p: Place)
    requires Attached(net) && Addressed(net, home, msg) && p != home
    ensures var copies := Travel(net, FromFrame(key, msg, ports), false)[p];
            copies <= 1 && (p.AtNode? || (p.AtFrame? && home.AtFrame?) ==> copies == 0)
  {
    if Shortcut(net, msg, ports) == None {
      if home.AtFrame? {
        FrameToFrameBothersFew(net, key, home, msg, ports, p);
      } else {
        FrameToOtherBothersFew(net, key, home, msg, ports, p);
      }
    }
  }

  lemma FrameToFrameBothersFew(net: Net, key: Key, home: Place, msg: Message, ports: bool, p: Place)
    requires Addressed(net, home, msg) && p != home && home.AtFrame? && Shortcut(net, msg, ports) == None
    ensures Travel(net, FromFrame(key, msg, ports), false)[p] == 0
  {
    var frames := FrameCopies(net.bridge, true, msg);
    FramesAt(frames, p);
    assert frames == {home.key} && Travel(net, FromFrame(key, msg, ports), false) == Frames(frames) + multiset{};
  }

  lemma FrameToOtherBothersFew(net: Net, key: Key, home: Place, msg: Message, ports: bool, p: Place)
    requires Attached(net) && Addressed(net, home, msg) && p != home && !home.AtFrame?
    requires Shortcut(net, msg, ports) == None
    ensures var copies := Travel(net, FromFrame(key, msg, ports), false)[p];
            copies <= 1 && (p.AtNode? ==> copies == 0)
  {
    var frames, leaving := FrameCopies(net.bridge, true, msg), FromFrameToBroker(net, msg);
    FramesAt(frames, p);
    FromFrameToBrokerBothersNobody(net, home, msg, p);
    assert Travel(net, FromFrame(key, msg, ports), false) == Frames(frames) + (InMain(net.bridge, msg) + leaving);
  }

  /** The copies of a frame's message that are made behind the broker. */
  function FromFrameToBroker(net: Net, msg: Message): multiset<Place> {
    if !Handled(net.bridge.main, msg, false) && GoesToBroker(net.bridge, msg)
    then Travel(net, ToBroker(net.uplink, msg), false) else multiset{}
  }

  lemma FromFrameToBrokerBothersNobody(net: Net, home: Place, msg: Message, p: Place)
    requires Attached(net) && Addressed(net, home, msg) && p != home && !home.AtFrame?
    ensures FromFrameToBroker(net, msg)[p] == 0
  {
    var direct := Direct(net.broker, net.uplink, msg);
    NodesAt(direct, p);
    assert Travel(net, ToBroker(net.uplink, msg), false) == Nodes(direct);
  }

  /** A message for a renderer that is not registered is dropped in Electron: no frame and no node gets it. */
  lemma LostRendererGetsNothing(net: Net, key: Key, msg: Message, ports: bool, answered: bool)
    requires msg.target.Some? && msg.target.value.kind == Renderer && !IsMainFrame(msg.target.value)
    requires CreateKeyForEndpoint(msg.target.value) !in net.bridge.endpoints
    ensures Travel(net, FromMain(msg), answered) == multiset{}
    ensures Travel(net, FromFrame(key, msg, ports), answered) == multiset{}
  {
  }

  /** The target is a node process that the broker does not know, and no client of main. */
  predicate Lost(net: Net, msg: Message) {
    && msg.target.Some? && IsProcessTarget(msg.target.value) && msg.target.value.id != ""
    && msg.target.value.id !in net.broker.endpoints
    && msg.target.value.id !in Listeners(net.bridge.main, msg.channel)
  }

  /** A node's message for an unknown node process travels as if it had no target. */
  lemma LostProcessIsBroadcast(net: Net, s: Socket, msg: Message)
    requires Attached(net) && s != net.uplink && Lost(net, msg) && msg.kind == SendMessage
    ensures Travel(net, ToBroker(s, msg), false) == Travel(net, ToBroker(s, msg.(target := None)), false)
  {
    LostAtBridge(net, msg);
  }

  lemma LostAtBridge(net: Net, msg: Message)
    requires Lost(net, msg) && msg.kind == SendMessage
    ensures Travel(net, ToBridge(msg), false) == Travel(net, ToBridge(msg.(target := None)), false)
  {
    var open := msg.(target := None);
    assert FrameCopies(net.bridge, false, msg) == FrameCopies(net.bridge, false, open);
    assert !Handled(net.bridge.main, msg, false) && !Handled(net.bridge.main, open, false);
  }

  /** A response for one reaches no node and no frame. */
  lemma LostResponseIsDropped(net: Net, s: Socket, msg: Message, p: Place)
    requires Attached(net) && s != net.uplink && Lost(net, msg) && msg.kind == RequestResponse && p != AtMain
    ensures Travel(net, ToBroker(s, msg), false)[p] == 0
  {
    NodesAt(Direct(net.broker, s, msg), p);
    FramesAt(FrameCopies(net.bridge, false, msg), p);
  }

  /**
   From any process to any registered and listening client: the listeners of that client
   run exactly once, and those of no other client of any process run at all.
   */
  lemma TargetRunsExactlyOnce(net: Net, origin: Place, home: Place, msg: Message, ports: bool)
    requires Attached(net) && Addressed(net, home, msg) && msg.kind == SendMessage
    requires origin.AtNode? ==> origin.socket != net.uplink
    ensures forall p, x ::
              Runs(net, origin, msg, ports, p, x) == if p == home && x == msg.target.value.id then 1 else 0
  {
    if origin != home {
      AddressedArrivesOnce(net, origin, home, msg, ports);
      assert !Taken(net, origin, msg);
    }
    forall p, x
      ensures Runs(net, origin, msg, ports, p, x) == if p == home && x == msg.target.value.id then 1 else 0
    {
      if p != home {
        assert !Taken(net, p, msg);
        assert x !in Ran(HostAt(net, p), msg);
      }
    }
  }

  /** A response is handed exactly once to the process that waits for it, and no other process can take it. */
  lemma ResponseTakenByRequester(net: Net, origin: Place, home: Place, msg: Message, ports: bool)
    requires Attached(net) && Addressed(net, home, msg) && msg.kind == RequestResponse && origin != home
    requires origin.AtNode? ==> origin.socket != net.uplink
    ensures forall p ::
              Travel(net, Depart(origin, msg, ports), false)[p] * (if Concerned(HostAt(net, p), msg) then 1 else 0)
              == if p == home then 1 else 0
  {
    AddressedArrivesOnce(net, origin, home, msg, ports);
    forall p
      ensures Travel(net, Depart(origin, msg, ports), false)[p] * (if Concerned(HostAt(net, p), msg) then 1 else 0)
              == if p == home then 1 else 0
    {
      if p != home {
        assert !Taken(net, p, msg);
      }
    }
  }
}
