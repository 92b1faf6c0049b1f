/**
 One shared transport, its connections and the broker: whatever its clients do, the broker
 routes to its socket every channel the transport holds, apart from those it `missed`.
 */
module Subscribers {
  import opened Common
  import opened Contract
  import opened ChannelIndex
  import opened Listeners
  import opened BrokerModel
  import opened TransportMulti
  import Routing

  /**
   `channels` are the channels the transport holds, once it is `installed`; `up` says that
   it is connected. `peers` are the peers it speaks for, `shaken` those whose handshake was
   sent on this connection, `flight` the commands not yet read.

   A channel is missed when its first subscription was announced for peers none of whom
   had sent a handshake, or when it was held while the transport was not connected.
   */
  datatype System = System(
    channels: set<Channel>,
    missed: set<Channel>,
    installed: bool,
    up: bool,
    peers: seq<Peer>,
    shaken: set<Key>,
    broker: Broker,
    flight: seq<Command>)

  /**
   The socket of the transport and the ids its peers will ever have; ids are never shared.
   A new connection may have the number of an old one, which the broker has forgotten.
   */
  datatype Home = Home(socket: Socket, ids: set<Key>)

  datatype Move =
    | Join(peer: Peer)
    | Leave(peer: Peer)
    | Connect
    | Lose
    | Shake(peer: Peer)
    | Change(channels: set<Channel>, notes: seq<Note>)
    | BrokerReads
    | Elsewhere(input: Input)

  /** Some listed peer has sent its handshake. */
  predicate Spoken(s: System) {
    exists p | p in s.peers :: p.id in s.shaken
  }

  /** Commands of other transports name other peers, and other sockets are lost. */
  predicate Foreign(home: Home, input: Input) {
    && input.socket != home.socket
    && (input.Received? ==> forall k | k in PeersOf(input.command) :: k !in home.ids)
  }

  function PeersOf(command: Command): seq<Key> {
    match command
    case Handshake(peers) => Ids(peers)
    case Shutdown(peers) => Ids(peers)
    case AddChannelListener(_, peers) => Ids(peers)
    case RemoveChannelListener(_, peers) => Ids(peers)
    case RemoveChannelAllListeners(_, peers) => Ids(peers)
    case RemoveListeners(peers) => Ids(peers)
    case _ => []
  }

  /** The transport's index changes with the notifications that explain the change. */
  predicate Enabled(s: System, m: Move, home: Home) {
    match m
    case Join(peer) => peer.id in home.ids
    case Leave(peer) => s.installed
    case Connect => !s.up
    case Lose => s.up
    case Shake(peer) => s.up && peer.id in home.ids
    case Change(channels, notes) => s.installed && Replay(s.channels, notes) == Some(channels)
    case BrokerReads => s.flight != []
    case Elsewhere(input) => Foreign(home, input)
  }

  function Mentioned(notes: seq<Note>): set<Channel> {
    set note | note in notes :: note.channel
  }

  function Next(s: System, m: Move, home: Home): System {
    match m
    case Join(peer) => if peer.id in Ids(s.peers) then s else s.(peers := s.peers + [peer])
    case Leave(peer) =>
      if Except(s.peers, peer) != [] then s.(peers := Except(s.peers, peer))
      else Disconnect(s, home).(channels := {}, missed := {}, installed := false)
    case Connect => s.(up := true, installed := true, missed := s.channels)
    case Lose => Disconnect(s, home)
    case Shake(peer) => s.(shaken := s.shaken + {peer.id}, flight := s.flight + [Handshake([peer])])
    case Change(channels, notes) =>
      if !s.up then s.(channels := channels, missed := channels)
      else
        s.(channels := channels,
           missed := channels * if Spoken(s) then s.missed - Mentioned(notes) else s.missed + Mentioned(notes),
           flight := s.flight + TellAll(notes, s.peers))
    case BrokerReads =>
      if s.flight == [] then s
      else s.(broker := Handle(s.broker, home.socket, s.flight[0]), flight := s.flight[1..])
    case Elsewhere(input) => s.(broker := Step(s.broker, input))
  }

  /** The connection ends, and both ends have seen it; the subscriptions stay. */
  function Disconnect(s: System, home: Home): System {
    s.(up := false, peers := [], shaken := {}, flight := [],
       broker := if s.up then CleanUp(s.broker, home.socket) else s.broker)
  }

  // ----- The broker once it has read everything -----------------------------------------

  function Drain(b: Broker, socket: Socket, flight: seq<Command>): Broker {
    if flight == [] then b
    else Handle(Drain(b, socket, flight[..|flight| - 1]), socket, flight[|flight| - 1])
  }

  lemma {:induction false} DrainFirst(b: Broker, socket: Socket, flight: seq<Command>)
    requires flight != []
    ensures Drain(b, socket, flight) == Drain(Handle(b, socket, flight[0]), socket, flight[1..])
  {
    if |flight| == 1 {
      assert flight[..0] == [] && flight[1..] == [];
    } else {
      var init := flight[..|flight| - 1];
      DrainFirst(b, socket, init);
      assert flight[1..][..|flight[1..]| - 1] == init[1..];
    }
  }

  lemma DrainOne(b: Broker, socket: Socket, flight: seq<Command>, command: Command)
    ensures Drain(b, socket, flight + [command]) == Handle(Drain(b, socket, flight), socket, command)
  {
    assert (flight + [command])[..|flight + [command]| - 1] == flight;
  }

  /** The transport's own entries, and only those, are registered and subscribed through its socket. */
  ghost predicate Homed(b: Broker, home: Home) {
    && WellFormed(b.subs)
    && (forall k | k in b.endpoints :: k in home.ids <==> b.endpoints[k].socket == home.socket)
    && (forall c, k :: At(b.subs, c, k).Some? ==> (k in home.ids <==> At(b.subs, c, k).value.data.socket == home.socket))
    && (forall c, k :: At(b.subs, c, k).Some? && k in home.ids ==> k in b.endpoints)
  }

  /** Some entry of the transport routes the channel to its socket. */
  ghost predicate Covered(b: Broker, home: Home, c: Channel) {
    exists k :: k in home.ids && At(b.subs, c, k).Some?
  }

  lemma CoveredIsRouted(b: Broker, home: Home, c: Channel)
    requires Homed(b, home)
    ensures Covered(b, home, c) <==> home.socket in Routing.Subscribers(b, c)
  {
    if k :| k in home.ids && At(b.subs, c, k).Some? {
      assert b.subs[c][k].data.socket == home.socket;
    }
    if home.socket in Routing.Subscribers(b, c) {
      var k :| k in b.subs[c] && b.subs[c][k].data.socket == home.socket;
      assert At(b.subs, c, k).Some?;
    }
  }

  /** The two brokers agree on everything that concerns the transport. */
  ghost predicate Agree(b: Broker, b': Broker, home: Home) {
    && WellFormed(b.subs) && WellFormed(b'.subs)
    && (forall k | k in home.ids :: (k in b.endpoints <==> k in b'.endpoints))
    && (forall k | k in home.ids && k in b.endpoints && k in b'.endpoints :: b.endpoints[k] == b'.endpoints[k])
    && (forall c, k :: k in home.ids ==> At(b.subs, c, k) == At(b'.subs, c, k))
  }

  /** The commands a transport sends. */
  predicate Own(command: Command, home: Home) {
    match command
    case Handshake(peers) => forall k | k in Ids(peers) :: k in home.ids
    case AddChannelListener(_, peers) => forall k | k in Ids(peers) :: k in home.ids
    case RemoveChannelListener(_, peers) => forall k | k in Ids(peers) :: k in home.ids
    case _ => false
  }

  // ----- One command --------------------------------------------------------------------

  lemma HandshakeKeepsHome(b: Broker, home: Home, peers: seq<Peer>)
    requires Homed(b, home) && Own(Handshake(peers), home)
    ensures Homed(Handle(b, home.socket, Handshake(peers)), home)
    ensures forall k :: k in b.endpoints || k in Ids(peers) ==>
              k in Handle(b, home.socket, Handshake(peers)).endpoints
  {
    HandshakeKeepsEndpoints(b, home, home.socket, peers);
  }

  /** A handshake keeps the endpoints apart when it names the transport's peers exactly if it comes from its socket. */
  lemma HandshakeKeepsEndpoints(b: Broker, home: Home, socket: Socket, peers: seq<Peer>)
    requires Homed(b, home) && forall k | k in Ids(peers) :: k in home.ids <==> socket == home.socket
    ensures Homed(Handle(b, socket, Handshake(peers)), home)
    ensures forall k :: k in b.endpoints || k in Ids(peers) <==> k in Register(b.endpoints, socket, peers)
  {
    var after := Register(b.endpoints, socket, peers);
    forall k ensures k in b.endpoints || k in Ids(peers) <==> k in after {
      RegisterAt(b.endpoints, socket, peers, k);
    }
    forall k | k in after ensures k in home.ids <==> after[k].socket == home.socket {
      RegisterAt(b.endpoints, socket, peers, k);
    }
  }

  /**
   The first subscription of a channel the broker does not know the transport for is
   routed to its socket exactly when some peer it is sent for is registered.
   */
  lemma AddCovers(b: Broker, home: Home, c: Channel, peers: seq<Peer>)
    requires Homed(b, home) && Own(AddChannelListener(c, peers), home)
    ensures var after := Handle(b, home.socket, AddChannelListener(c, peers));
            && Homed(after, home)
            && (Covered(after, home, c) <==> Covered(b, home, c) || exists k :: k in Ids(peers) && k in b.endpoints)
            && (forall c' :: c' != c ==> (Covered(after, home, c') <==> Covered(b, home, c')))
  {
    SubscribeAt(b.endpoints, b.subs, c, Ids(peers));
    var after := Handle(b, home.socket, AddChannelListener(c, peers));
    if k :| k in Ids(peers) && k in b.endpoints {
      assert At(after.subs, c, k).Some?;
    }
    if k :| k in home.ids && At(b.subs, c, k).Some? {
      assert At(after.subs, c, k).Some?;
    }
    forall c' | c' != c ensures Covered(after, home, c') <==> Covered(b, home, c') {
      assert forall k :: At(after.subs, c', k) == At(b.subs, c', k);
    }
  }

  lemma RemoveUncoversOnly(b: Broker, home: Home, c: Channel, peers: seq<Peer>)
    requires Homed(b, home) && Own(RemoveChannelListener(c, peers), home)
    ensures var after := Handle(b, home.socket, RemoveChannelListener(c, peers));
            && Homed(after, home)
            && (forall c' :: c' != c ==> (Covered(after, home, c') <==> Covered(b, home, c')))
  {
    UnsubscribeAt(b.subs, c, Ids(peers), ByOne);
    var after := Handle(b, home.socket, RemoveChannelListener(c, peers));
    forall c' | c' != c ensures Covered(after, home, c') <==> Covered(b, home, c') {
      assert forall k :: At(after.subs, c', k) == At(b.subs, c', k);
    }
  }

  lemma MentionedSnoc(init: seq<Note>, last: Note)
    ensures Mentioned(init + [last]) == Mentioned(init) + {last.channel}
  {
    assert last in init + [last];
  }

  lemma TellAllSnoc(init: seq<Note>, last: Note, peers: seq<Peer>)
    ensures TellAll(init + [last], peers) == TellAll(init, peers) + [Tell(last, peers)]
  {
  }

  lemma DrainTold(b: Broker, socket: Socket, flight: seq<Command>, init: seq<Note>, last: Note, peers: seq<Peer>)
    ensures Drain(b, socket, flight + TellAll(init + [last], peers))
            == Handle(Drain(b, socket, flight + TellAll(init, peers)), socket, Tell(last, peers))
  {
    var before, told := flight + TellAll(init, peers), Tell(last, peers);
    TellAllSnoc(init, last, peers);
    assert flight + (TellAll(init, peers) + [told]) == before + [told];
    DrainOne(b, socket, before, told);
  }

  /**
   Notifications keep a channel they do not mention covered; one they mention and that is
   held in the end is covered if a listed peer `k` is registered.
   */
  lemma {:induction false} TellingKeepsCover(
    b: Broker, home: Home, known: set<Channel>, notes: seq<Note>, peers: seq<Peer>, flight: seq<Command>, k: Key,
    c: Channel)
    requires Homed(Drain(b, home.socket, flight), home)
    requires Replay(known, notes).Some? && forall k' | k' in Ids(peers) :: k' in home.ids
    ensures var d, d' := Drain(b, home.socket, flight), Drain(b, home.socket, flight + TellAll(notes, peers));
            && Homed(d', home) && d'.endpoints == d.endpoints
            && (c !in Mentioned(notes) && Covered(d, home, c) ==> Covered(d', home, c))
            && (k in Ids(peers) && k in d.endpoints && c in Mentioned(notes) && c in Replay(known, notes).value ==>
                  Covered(d', home, c))
  {
    if notes == [] {
      assert flight + TellAll(notes, peers) == flight;
    } else {
      var init, last := notes[..|notes| - 1], notes[|notes| - 1];
      assert notes == init + [last];
      TellingKeepsCover(b, home, known, init, peers, flight, k, c);
      DrainTold(b, home.socket, flight, init, last, peers);
      MentionedSnoc(init, last);
      TellingOneKeepsCover(Drain(b, home.socket, flight + TellAll(init, peers)), home, last, peers, k, c);
    }
  }

  lemma TellingOneKeepsCover(b: Broker, home: Home, note: Note, peers: seq<Peer>, k: Key, c: Channel)
    requires Homed(b, home) && forall k' | k' in Ids(peers) :: k' in home.ids
    ensures var after := Handle(b, home.socket, Tell(note, peers));
            && Homed(after, home) && after.endpoints == b.endpoints
            && (c != note.channel ==> (Covered(after, home, c) <==> Covered(b, home, c)))
            && (note == Added(c) && k in Ids(peers) && k in b.endpoints ==> Covered(after, home, c))
  {
    match note
    case Added(added) => AddCovers(b, home, added, peers);
    case Removed(removed) => RemoveUncoversOnly(b, home, removed, peers);
  }

  // ----- What happens elsewhere -----------------------------------------------------------

  lemma OwnCommandsAgree(b: Broker, b': Broker, home: Home, command: Command)
    requires Agree(b, b', home) && Own(command, home)
    ensures Agree(Handle(b, home.socket, command), Handle(b', home.socket, command), home)
  {
    match command
    case Handshake(peers) =>
      forall k
        ensures k in Register(b.endpoints, home.socket, peers) <==> k in b.endpoints || k in Ids(peers)
        ensures k in Register(b'.endpoints, home.socket, peers) <==> k in b'.endpoints || k in Ids(peers)
      {
        RegisterAt(b.endpoints, home.socket, peers, k);
        RegisterAt(b'.endpoints, home.socket, peers, k);
      }
      forall k | k in home.ids && k in Register(b.endpoints, home.socket, peers)
        ensures Register(b.endpoints, home.socket, peers)[k] == Register(b'.endpoints, home.socket, peers)[k]
      {
        SameRegistration(b.endpoints, b'.endpoints, home.socket, peers, k);
      }
    case AddChannelListener(c, peers) =>
      SubscribeAt(b.endpoints, b.subs, c, Ids(peers));
      SubscribeAt(b'.endpoints, b'.subs, c, Ids(peers));
    case RemoveChannelListener(c, peers) =>
      UnsubscribeAt(b.subs, c, Ids(peers), ByOne);
      UnsubscribeAt(b'.subs, c, Ids(peers), ByOne);
  }

  lemma {:induction false} SameRegistration(
    e: map<Key, Endpoint>, e': map<Key, Endpoint>, socket: Socket, peers: seq<Peer>, k: Key)
    requires (k in e <==> k in e') && (k in e ==> e[k] == e'[k])
    ensures k in Register(e, socket, peers) <==> k in Register(e', socket, peers)
    ensures k in Register(e, socket, peers) ==> Register(e, socket, peers)[k] == Register(e', socket, peers)[k]
  {
    if peers != [] {
      SameRegistration(e, e', socket, peers[..|peers| - 1], k);
    }
  }

  lemma {:induction false} DrainAgrees(b: Broker, b': Broker, home: Home, flight: seq<Command>)
    requires Agree(b, b', home) && forall command | command in flight :: Own(command, home)
    ensures Agree(Drain(b, home.socket, flight), Drain(b', home.socket, flight), home)
  {
    if flight != [] {
      var init := flight[..|flight| - 1];
      DrainAgrees(b, b', home, init);
      OwnCommandsAgree(Drain(b, home.socket, init), Drain(b', home.socket, init), home, flight[|flight| - 1]);
    }
  }

  /** Nothing that other sockets send or suffer touches the transport's entries. */
  lemma ForeignInputAgrees(b: Broker, home: Home, input: Input)
    requires Homed(b, home) && Foreign(home, input)
    ensures Agree(b, Step(b, input), home) && Homed(Step(b, input), home)
  {
    match input
    case Lost(socket) => RemoveKeysAt(b.subs, KeysOf(b, socket));
    case Received(socket, command) =>
      match command
      case Handshake(peers) => ForeignHandshakeAgrees(b, home, socket, peers);
      case Shutdown(peers) => ForeignRemovalAgrees(b, home, "", Ids(peers), OfPeer);
      case AddChannelListener(c, peers) => ForeignAdditionAgrees(b, home, c, Ids(peers));
      case RemoveChannelListener(c, peers) => ForeignRemovalAgrees(b, home, c, Ids(peers), ByOne);
      case RemoveChannelAllListeners(c, peers) => ForeignRemovalAgrees(b, home, c, Ids(peers), OfChannel);
      case RemoveListeners(peers) => ForeignRemovalAgrees(b, home, "", Ids(peers), OfPeer);
      case _ =>
  }

  lemma ForeignHandshakeAgrees(b: Broker, home: Home, socket: Socket, peers: seq<Peer>)
    requires Homed(b, home) && socket != home.socket && forall k | k in Ids(peers) :: k !in home.ids
    ensures var after := Handle(b, socket, Handshake(peers));
            Agree(b, after, home) && Homed(after, home)
  {
    HandshakeKeepsEndpoints(b, home, socket, peers);
    forall k | k in home.ids
      ensures k in Register(b.endpoints, socket, peers) <==> k in b.endpoints
      ensures k in b.endpoints ==> Register(b.endpoints, socket, peers)[k] == b.endpoints[k]
    {
      RegisterAt(b.endpoints, socket, peers, k);
    }
  }

  lemma ForeignAdditionAgrees(b: Broker, home: Home, c: Channel, ks: seq<Key>)
    requires Homed(b, home) && forall k | k in ks :: k !in home.ids
    ensures var after := b.(subs := Subscribe(b.endpoints, b.subs, c, ks));
            Agree(b, after, home) && Homed(after, home)
  {
    SubscribeAt(b.endpoints, b.subs, c, ks);
  }

  lemma ForeignRemovalAgrees(b: Broker, home: Home, c: Channel, ks: seq<Key>, how: Removal)
    requires Homed(b, home) && forall k | k in ks :: k !in home.ids
    ensures Agree(b, b.(subs := Unsubscribe(b.subs, c, ks, how)), home)
    ensures Homed(b.(subs := Unsubscribe(b.subs, c, ks, how)), home)
  {
    UnsubscribeAt(b.subs, c, ks, how);
    forall c', k | k in home.ids ensures At(Unsubscribe(b.subs, c, ks, how), c', k) == At(b.subs, c', k) {
      LeftNone(b.subs, how, c' == c, c', k);
    }
  }

  // ----- Losing the connection ------------------------------------------------------------

  /** The broker knows nothing of the transport. */
  ghost predicate Forgotten(b: Broker, home: Home) {
    && WellFormed(b.subs)
    && (forall k | k in home.ids :: k !in b.endpoints)
    && (forall c, k :: k in home.ids ==> At(b.subs, c, k) == None)
  }

  lemma LossForgets(b: Broker, home: Home)
    requires Homed(b, home)
    ensures Homed(CleanUp(b, home.socket), home) && Forgotten(CleanUp(b, home.socket), home)
  {
    RemoveKeysAt(b.subs, KeysOf(b, home.socket));
  }

  // ----- Whole runs ----------------------------------------------------------------------------

  /** While the connection is up every held channel that is not missed is covered. */
  ghost predicate Inv(s: System, home: Home) {
    var d := Drain(s.broker, home.socket, s.flight);
    && Homed(s.broker, home) && Homed(d, home)
    && (forall k | k in Ids(s.peers) :: k in home.ids)
    && (forall command | command in s.flight :: Own(command, home))
    && (forall k | k in s.shaken :: k in home.ids && k in d.endpoints)
    && (!s.installed ==> !s.up && s.channels == {})
    && (s.up ==> forall c | c in s.channels && c !in s.missed :: Covered(d, home, c))
    && (!s.up ==> s.flight == [] && s.shaken == {} && Forgotten(s.broker, home))
  }

  lemma OwnKeepsHome(b: Broker, home: Home, command: Command)
    requires Homed(b, home) && Own(command, home)
    ensures Homed(Handle(b, home.socket, command), home)
  {
    match command
    case Handshake(peers) => HandshakeKeepsHome(b, home, peers);
    case AddChannelListener(c, peers) => AddCovers(b, home, c, peers);
    case RemoveChannelListener(c, peers) => RemoveUncoversOnly(b, home, c, peers);
  }

  lemma {:induction false} DrainKeepsHome(b: Broker, home: Home, flight: seq<Command>)
    requires Homed(b, home) && forall command | command in flight :: Own(command, home)
    ensures Homed(Drain(b, home.socket, flight), home)
  {
    if flight != [] {
      DrainKeepsHome(b, home, flight[..|flight| - 1]);
      OwnKeepsHome(Drain(b, home.socket, flight[..|flight| - 1]), home, flight[|flight| - 1]);
    }
  }

  lemma ChangeKeepsInv(s: System, m: Move, home: Home)
    requires Inv(s, home) && Enabled(s, m, home) && m.Change? && s.up
    ensures Inv(Next(s, m, home), home)
  {
    var k := "";
    if Spoken(s) {
      var p :| p in s.peers && p.id in s.shaken;
      var i :| 0 <= i < |s.peers| && s.peers[i] == p;
      k := Ids(s.peers)[i];
    }
    TellingKeepsCover(s.broker, home, s.channels, m.notes, s.peers, s.flight, k, "");
    var after := Next(s, m, home);
    forall c | c in m.channels && c !in after.missed ensures Covered(Drain(s.broker, home.socket, after.flight), home, c) {
      TellingKeepsCover(s.broker, home, s.channels, m.notes, s.peers, s.flight, k, c);
      if c !in Mentioned(m.notes) {
        UnmentionedWasHeld(s.channels, m.notes, c);
      }
    }
    forall command | command in Next(s, m, home).flight ensures Own(command, home) {
      if command in TellAll(m.notes, s.peers) {
        var i :| 0 <= i < |m.notes| && command == Tell(m.notes[i], s.peers);
      }
    }
  }

  lemma {:induction false} UnmentionedWasHeld(known: set<Channel>, notes: seq<Note>, c: Channel)
    requires Replay(known, notes).Some? && c !in Mentioned(notes)
    ensures c in Replay(known, notes).value <==> c in known
  {
    if notes != [] {
      var init, last := notes[..|notes| - 1], notes[|notes| - 1];
      assert notes == init + [last];
      MentionedSnoc(init, last);
      UnmentionedWasHeld(known, init, c);
    }
  }

  lemma {:induction false} ExceptKeeps(peers: seq<Peer>, peer: Peer)
    ensures forall p | p in Except(peers, peer) :: p in peers
  {
    if peers != [] && peers[0] != peer {
      ExceptKeeps(peers[1..], peer);
    }
  }

  lemma ElsewhereKeepsInv(s: System, m: Move, home: Home)
    requires Inv(s, home) && Enabled(s, m, home) && m.Elsewhere?
    ensures Inv(Next(s, m, home), home)
  {
    ForeignInputAgrees(s.broker, home, m.input);
    DrainAgrees(s.broker, Step(s.broker, m.input), home, s.flight);
    DrainKeepsHome(Step(s.broker, m.input), home, s.flight);
    var d, d' := Drain(s.broker, home.socket, s.flight), Drain(Step(s.broker, m.input), home.socket, s.flight);
    forall c | Covered(d, home, c) ensures Covered(d', home, c) {
      var k :| k in home.ids && At(d.subs, c, k).Some?;
      assert At(d'.subs, c, k).Some?;
    }
  }

  lemma ShakeKeepsInv(s: System, peer: Peer, home: Home)
    requires Inv(s, home) && Enabled(s, Shake(peer), home)
    ensures Inv(Next(s, Shake(peer), home), home)
  {
    assert Ids([peer]) == [peer.id];
    DrainOne(s.broker, home.socket, s.flight, Handshake([peer]));
    var d := Drain(s.broker, home.socket, s.flight);
    HandshakeKeepsHome(d, home, [peer]);
    assert forall c, k :: At(Handle(d, home.socket, Handshake([peer])).subs, c, k) == At(d.subs, c, k);
  }

  lemma DisconnectKeepsInv(s: System, home: Home)
    requires Inv(s, home) && s.installed
    ensures Inv(Disconnect(s, home), home)
  {
    LossForgets(s.broker, home);
  }

  lemma NextKeepsInv(s: System, m: Move, home: Home)
    requires Inv(s, home) && Enabled(s, m, home)
    ensures Inv(Next(s, m, home), home)
  {
    match m
    case Join(peer) =>
      assert Ids(s.peers + [peer]) == Ids(s.peers) + [peer.id];
    case Leave(peer) =>
      ExceptKeeps(s.peers, peer);
      var left := Except(s.peers, peer);
      forall k | k in Ids(left) ensures k in home.ids {
        var i :| 0 <= i < |left| && left[i].id == k;
        assert left[i] in s.peers;
        var j :| 0 <= j < |s.peers| && s.peers[j] == left[i];
        assert Ids(s.peers)[j] == k;
      }
      DisconnectKeepsInv(s, home);
    case Connect =>
    case Lose => DisconnectKeepsInv(s, home);
    case Shake(peer) => ShakeKeepsInv(s, peer, home);
    case Change(channels, notes) =>
      if s.up {
        ChangeKeepsInv(s, m, home);
      }
    case BrokerReads =>
      DrainFirst(s.broker, home.socket, s.flight);
      OwnKeepsHome(s.broker, home, s.flight[0]);
    case Elsewhere(input) => ElsewhereKeepsInv(s, m, home);
  }

  predicate Possible(s: System, moves: seq<Move>, home: Home)
    decreases |moves|
  {
    moves == [] || (Enabled(s, moves[0], home) && Possible(Next(s, moves[0], home), moves[1..], home))
  }

  function Run(s: System, moves: seq<Move>, home: Home): System
    decreases |moves|
  {
    if moves == [] then s else Run(Next(s, moves[0], home), moves[1..], home)
  }

  lemma {:induction false} RunKeepsInv(s: System, moves: seq<Move>, home: Home)
    requires Inv(s, home) && Possible(s, moves, home)
    ensures Inv(Run(s, moves, home), home)
    decreases |moves|
  {
    if moves != [] {
      NextKeepsInv(s, moves[0], home);
      RunKeepsInv(Next(s, moves[0], home), moves[1..], home);
    }
  }

  /** A fresh transport, and a broker that knows neither its ids nor its socket. */
  ghost predicate Init(s: System, home: Home) {
    && s.channels == {} && s.peers == [] && s.shaken == {} && s.flight == [] && !s.installed && !s.up
    && Homed(s.broker, home) && Forgotten(s.broker, home)
  }

  /** The broker, once it has read the commands in flight, routes the channel to the transport's socket. */
  ghost predicate Served(s: System, home: Home, c: Channel) {
    home.socket in Routing.Subscribers(Drain(s.broker, home.socket, s.flight), c)
  }

  /** On any run: while the transport is connected, every channel it holds and did not miss is served. */
  lemma NobodyForgotten(start: System, moves: seq<Move>, home: Home)
    requires Init(start, home) && Possible(start, moves, home)
    ensures var s := Run(start, moves, home);
            s.up ==> forall c | c in s.channels && c !in s.missed :: Served(s, home, c)
  {
    RunKeepsInv(start, moves, home);
    var s := Run(start, moves, home);
    if s.up {
      forall c | c in s.channels && c !in s.missed ensures Served(s, home, c) {
        CoveredIsRouted(Drain(s.broker, home.socket, s.flight), home, c);
      }
    }
  }

  /** A connection serves all that is held exactly when nothing was held before it. */
  lemma ReconnectForgets(start: System, moves: seq<Move>, home: Home)
    requires Init(start, home) && Possible(start, moves, home) && !Run(start, moves, home).up
    ensures var s := Run(start, moves, home);
            var again := Next(s, Connect, home);
            && (forall c :: !Served(again, home, c))
            && ((forall c | c in again.channels :: Served(again, home, c)) <==> s.channels == {})
  {
    RunKeepsInv(start, moves, home);
    var s := Run(start, moves, home);
    var again := Next(s, Connect, home);
    forall c ensures !Served(again, home, c) {
      CoveredIsRouted(s.broker, home, c);
    }
    if s.channels != {} {
      var c :| c in again.channels;
      assert !Served(again, home, c);
    }
  }

  // ----- When nothing is missed -------------------------------------------------------------

  /** Connections are made while nothing is held, and first subscriptions when a listed peer has sent its handshake. */
  predicate Careful(s: System, m: Move) {
    match m
    case Connect => s.channels == {}
    case Change(_, notes) => !s.up || Spoken(s) || forall note | note in notes :: note.Removed?
    case _ => true
  }

  predicate AllCareful(s: System, moves: seq<Move>, home: Home)
    decreases |moves|
  {
    moves == [] || (Careful(s, moves[0]) && AllCareful(Next(s, moves[0], home), moves[1..], home))
  }

  lemma {:induction false} RemovedIsGone(known: set<Channel>, notes: seq<Note>, c: Channel)
    requires Replay(known, notes).Some? && c in Mentioned(notes)
    requires forall note | note in notes :: note.Removed?
    ensures c !in Replay(known, notes).value
  {
    var init, last := notes[..|notes| - 1], notes[|notes| - 1];
    assert notes == init + [last] && last in notes;
    if last.channel != c {
      MentionedSnoc(init, last);
      RemovedIsGone(known, init, c);
    }
  }

  lemma {:induction false} CarefulMissesNothing(s: System, moves: seq<Move>, home: Home)
    requires Possible(s, moves, home) && AllCareful(s, moves, home)
    requires s.up ==> s.missed == {}
    ensures Run(s, moves, home).up ==> Run(s, moves, home).missed == {}
    decreases |moves|
  {
    if moves != [] {
      if moves[0].Change? && s.up && !Spoken(s) {
        forall c | c in Mentioned(moves[0].notes) ensures c !in moves[0].channels {
          RemovedIsGone(s.channels, moves[0].notes, c);
        }
      }
      CarefulMissesNothing(Next(s, moves[0], home), moves[1..], home);
    }
  }

  // ----- When nothing is served in vain ------------------------------------------------------

  /** Telling a loss takes back what telling the gain gave, for the same peers, registered or not. */
  lemma LossUndoesGain(b: Broker, socket: Socket, c: Channel, peers: seq<Peer>)
    requires BrokerModel.Inv(b)
    ensures Handle(Handle(b, socket, Tell(Added(c), peers)), socket, Tell(Removed(c), peers)) == b
  {
    RemovalUndoesAddition(b, socket, c, peers);
  }

  /** The broker has one reference at most for each listed peer, on the channels `known` only. */
  ghost predicate Exact(b: Broker, home: Home, known: set<Channel>, peers: seq<Peer>) {
    && WellFormed(b.subs)
    && (forall k :: multiset(Ids(peers))[k] <= 1)
    && (forall c, k :: k in home.ids && At(b.subs, c, k).Some? ==>
          c in known && k in Ids(peers) && At(b.subs, c, k).value.refCount == 1)
  }

  lemma TellingOneStaysExact(b: Broker, home: Home, known: set<Channel>, note: Note, peers: seq<Peer>)
    requires Exact(b, home, known, peers) && Hear(known, note).Some?
    ensures Exact(Handle(b, home.socket, Tell(note, peers)), home, Hear(known, note).value, peers)
  {
    match note
    case Added(c) => SubscribeAt(b.endpoints, b.subs, c, Ids(peers));
    case Removed(c) => UnsubscribeAt(b.subs, c, Ids(peers), ByOne);
  }

  lemma {:induction false} TellingStaysExact(
    b: Broker, home: Home, known: set<Channel>, notes: seq<Note>, peers: seq<Peer>, flight: seq<Command>)
    requires Exact(Drain(b, home.socket, flight), home, known, peers) && Replay(known, notes).Some?
    ensures Exact(Drain(b, home.socket, flight + TellAll(notes, peers)), home, Replay(known, notes).value, peers)
  {
    if notes == [] {
      assert flight + TellAll(notes, peers) == flight;
    } else {
      var init, last := notes[..|notes| - 1], notes[|notes| - 1];
      assert notes == init + [last];
      TellingStaysExact(b, home, known, init, peers, flight);
      DrainTold(b, home.socket, flight, init, last, peers);
      TellingOneStaysExact(Drain(b, home.socket, flight + TellAll(init, peers)), home, Replay(known, init).value, last, peers);
    }
  }

  /** While the connection is up the broker will have references of listed peers and held channels only. */
  ghost predicate Tidy(s: System, home: Home) {
    && (forall k :: multiset(Ids(s.peers))[k] <= 1)
    && (s.up ==> Exact(Drain(s.broker, home.socket, s.flight), home, s.channels, s.peers))
  }

  /** Nobody leaves while somebody else is listed. */
  predicate Stays(s: System, m: Move) {
    m.Leave? ==> Except(s.peers, m.peer) == [] || Except(s.peers, m.peer) == s.peers
  }

  lemma JoinStaysTidy(s: System, peer: Peer, home: Home)
    requires Tidy(s, home)
    ensures Tidy(Next(s, Join(peer), home), home)
  {
    assert Ids(s.peers + [peer]) == Ids(s.peers) + [peer.id];
  }

  lemma ShakeStaysTidy(s: System, peer: Peer, home: Home)
    requires Tidy(s, home) && s.up
    ensures Tidy(Next(s, Shake(peer), home), home)
  {
    DrainOne(s.broker, home.socket, s.flight, Handshake([peer]));
  }

  lemma ElsewhereStaysTidy(s: System, input: Input, home: Home)
    requires Inv(s, home) && Tidy(s, home) && Foreign(home, input)
    ensures Tidy(Next(s, Elsewhere(input), home), home)
  {
    if s.up {
      ForeignInputAgrees(s.broker, home, input);
      DrainAgrees(s.broker, Step(s.broker, input), home, s.flight);
      var d, d' := Drain(s.broker, home.socket, s.flight), Drain(Step(s.broker, input), home.socket, s.flight);
      assert forall c, k :: k in home.ids ==> At(d.subs, c, k) == At(d'.subs, c, k);
    }
  }

  lemma NextStaysTidy(s: System, m: Move, home: Home)
    requires Inv(s, home) && Tidy(s, home) && Enabled(s, m, home) && Stays(s, m)
    ensures Tidy(Next(s, m, home), home)
  {
    match m
    case Join(peer) => JoinStaysTidy(s, peer, home);
    case Leave(peer) => assert Ids([]) == [];
    case Connect =>
    case Lose => assert Ids([]) == [];
    case Shake(peer) => ShakeStaysTidy(s, peer, home);
    case Change(channels, notes) =>
      if s.up {
        TellingStaysExact(s.broker, home, s.channels, notes, s.peers, s.flight);
      }
    case BrokerReads => DrainFirst(s.broker, home.socket, s.flight);
    case Elsewhere(input) => ElsewhereStaysTidy(s, input, home);
  }

  predicate AllStay(s: System, moves: seq<Move>, home: Home)
    decreases |moves|
  {
    moves == [] || (Stays(s, moves[0]) && AllStay(Next(s, moves[0], home), moves[1..], home))
  }

  lemma {:induction false} RunStaysTidy(s: System, moves: seq<Move>, home: Home)
    requires Inv(s, home) && Tidy(s, home) && Possible(s, moves, home) && AllStay(s, moves, home)
    ensures Tidy(Run(s, moves, home), home)
    decreases |moves|
  {
    if moves != [] {
      NextKeepsInv(s, moves[0], home);
      NextStaysTidy(s, moves[0], home);
      RunStaysTidy(Next(s, moves[0], home), moves[1..], home);
    }
  }

  /**
   On a run in which clients stay until the last one leaves, a connected transport is served
   the channels it holds only; when nothing is missed either, exactly those.
   */
  lemma ServedExactlyWhatIsHeld(start: System, moves: seq<Move>, home: Home)
    requires Init(start, home) && Possible(start, moves, home) && AllStay(start, moves, home)
    requires Run(start, moves, home).up
    ensures var s := Run(start, moves, home);
            && (forall c :: Served(s, home, c) ==> c in s.channels)
            && (AllCareful(start, moves, home) ==> forall c :: Served(s, home, c) <==> c in s.channels)
  {
    assert Ids([]) == [];
    RunKeepsInv(start, moves, home);
    RunStaysTidy(start, moves, home);
    var s := Run(start, moves, home);
    forall c ensures Served(s, home, c) <==> Covered(Drain(s.broker, home.socket, s.flight), home, c) {
      CoveredIsRouted(Drain(s.broker, home.socket, s.flight), home, c);
    }
    if AllCareful(start, moves, home) {
      CarefulMissesNothing(start, moves, home);
      NobodyForgotten(start, moves, home);
    }
  }

  /**
   A client may leave the others behind without leaving references behind exactly when the
   broker will have none of its own; none of its channels' losses will name it.
   */
  lemma LeavingStaysTidy(s: System, peer: Peer, home: Home)
    requires Inv(s, home) && Tidy(s, home) && s.up && peer in s.peers && Except(s.peers, peer) != []
    ensures Tidy(Next(s, Leave(peer), home), home)
            <==> forall c :: At(Drain(s.broker, home.socket, s.flight).subs, c, peer.id) == None
  {
    ListedAtHome(s, peer, home);
    LeavingStaysTidyAtHome(s, peer, home);
  }

  lemma ListedAtHome(s: System, peer: Peer, home: Home)
    requires Inv(s, home) && peer in s.peers
    ensures peer.id in home.ids
  {
    var i :| 0 <= i < |s.peers| && s.peers[i] == peer;
    assert Ids(s.peers)[i] == peer.id;
  }

  lemma LeavingStaysTidyAtHome(s: System, peer: Peer, home: Home)
    requires Tidy(s, home) && s.up && peer in s.peers && peer.id in home.ids && Except(s.peers, peer) != []
    ensures Tidy(Next(s, Leave(peer), home), home)
            <==> forall c :: At(Drain(s.broker, home.socket, s.flight).subs, c, peer.id) == None
  {
    TidyIsExact(s, home);
    ExactWithout(Drain(s.broker, home.socket, s.flight), home, s.channels, s.peers, peer);
    TidyIsExact(Next(s, Leave(peer), home), home);
  }

  lemma TidyIsExact(s: System, home: Home)
    requires s.up
    ensures Tidy(s, home) <==> Exact(Drain(s.broker, home.socket, s.flight), home, s.channels, s.peers)
  {
  }

  lemma ExactWithout(b: Broker, home: Home, known: set<Channel>, peers: seq<Peer>, peer: Peer)
    requires Exact(b, home, known, peers) && peer in peers && peer.id in home.ids
    ensures Exact(b, home, known, Except(peers, peer)) <==> forall c :: At(b.subs, c, peer.id) == None
  {
    LeftIds(peers, peer);
    FewerPeersStayExact(b, home, known, peers, Except(peers, peer), peer.id);
  }

  lemma FewerPeersStayExact(
    b: Broker, home: Home, known: set<Channel>, peers: seq<Peer>, left: seq<Peer>, gone: Key)
    requires Exact(b, home, known, peers) && gone in home.ids && gone !in Ids(left)
    requires forall k :: multiset(Ids(left))[k] <= 1
    requires forall k | k in Ids(peers) && k != gone :: k in Ids(left)
    ensures Exact(b, home, known, left) <==> forall c :: At(b.subs, c, gone) == None
  {
  }

  /** The peer goes, and with unique ids its id. */
  lemma LeftIds(peers: seq<Peer>, peer: Peer)
    requires peer in peers && forall k :: multiset(Ids(peers))[k] <= 1
    ensures peer.id !in Ids(Except(peers, peer)) && forall k :: multiset(Ids(Except(peers, peer)))[k] <= 1
    ensures forall k | k in Ids(peers) && k != peer.id :: k in Ids(Except(peers, peer))
    ensures peer.id in Ids(peers)
  {
    ExceptIds(peers, peer);
    var ids, left := multiset(Ids(peers)), multiset(Ids(Except(peers, peer)));
    assert forall k :: left[k] == ids[k] - if k == peer.id then 1 else 0;
    assert peer.id in ids && peer.id !in left;
    forall k | k in Ids(peers) && k != peer.id ensures k in Ids(Except(peers, peer)) {
      assert k in left;
    }
  }

  lemma {:induction false} ExceptIds(peers: seq<Peer>, peer: Peer)
    requires peer in peers
    ensures multiset(Ids(Except(peers, peer))) == multiset(Ids(peers)) - multiset{peer.id}
    ensures peer.id in Ids(peers)
  {
    var rest := peers[1..];
    assert Ids(peers) == [peers[0].id] + Ids(rest);
    if peers[0] != peer {
      ExceptIds(rest, peer);
      assert Ids(Except(peers, peer)) == [peers[0].id] + Ids(Except(rest, peer));
    }
  }

  // ----- Runs in which a channel is missed -----------------------------------------------------

  /** A run given state by state. */
  lemma {:induction false} RunThrough(states: seq<System>, moves: seq<Move>, home: Home)
    requires |states| == |moves| + 1
    requires forall i | 0 <= i < |moves| :: Enabled(states[i], moves[i], home) && states[i + 1] == Next(states[i], moves[i], home)
    ensures Possible(states[0], moves, home) && Run(states[0], moves, home) == states[|moves|]
    decreases |moves|
  {
    if moves != [] {
      RunThrough(states[1..], moves[1..], home);
    }
  }

  const FRESH := System({}, {}, false, false, [], {}, EMPTY, [])

  lemma FreshIsInit(home: Home)
    ensures Init(FRESH, home) && Inv(FRESH, home)
  {
  }

  lemma FirstAddition(c: Channel)
    ensures Replay({}, [Added(c)]) == Some({c})
  {
    HearOne({}, [], Added(c));
    assert [] + [Added(c)] == [Added(c)] && {} + {c} == {c};
  }

  lemma TellOne(c: Channel, peers: seq<Peer>)
    ensures TellAll([Added(c)], peers) == [AddChannelListener(c, peers)]
  {
  }

  lemma {:induction false} RunSplit(s: System, first: seq<Move>, second: seq<Move>, home: Home)
    requires Possible(s, first, home) && Possible(Run(s, first, home), second, home)
    ensures Possible(s, first + second, home)
    ensures Run(s, first + second, home) == Run(Run(s, first, home), second, home)
    decreases |first|
  {
    if first == [] {
      assert first + second == second;
    } else {
      RunSplit(Next(s, first[0], home), first[1..], second, home);
      assert (first + second)[1..] == first[1..] + second;
    }
  }

  /** The first client connects, subscribes, and the connection is lost. */
  lemma UpToLoss(a: Peer, home: Home)
    requires a.id in home.ids
    ensures var moves := [Join(a), Connect, Shake(a), Change({"c"}, [Added("c")]), BrokerReads, BrokerReads, Lose];
            && Possible(FRESH, moves, home)
            && var s := Run(FRESH, moves, home);
               s == System({"c"}, {}, true, false, [], {}, s.broker, [])
  {
    var moves := [Join(a), Connect, Shake(a), Change({"c"}, [Added("c")]), BrokerReads, BrokerReads, Lose];
    FirstAddition("c");
    TellOne("c", [a]);
    var shake, add := Handshake([a]), AddChannelListener("c", [a]);
    var b1 := Handle(EMPTY, home.socket, shake);
    var b2 := Handle(b1, home.socket, add);
    var states := [
      FRESH,
      System({}, {}, false, false, [a], {}, EMPTY, []),
      System({}, {}, true, true, [a], {}, EMPTY, []),
      System({}, {}, true, true, [a], {a.id}, EMPTY, [shake]),
      System({"c"}, {}, true, true, [a], {a.id}, EMPTY, [shake, add]),
      System({"c"}, {}, true, true, [a], {a.id}, b1, [add]),
      System({"c"}, {}, true, true, [a], {a.id}, b2, []),
      System({"c"}, {}, true, false, [], {}, CleanUp(b2, home.socket), [])];
    assert Next(states[0], moves[0], home) == states[1];
    assert Spoken(states[3]) by {
      assert a in states[3].peers && a.id in states[3].shaken;
    }
    assert Next(states[3], moves[3], home) == states[4];
    RunThrough(states, moves, home);
  }

  /** Another client connects and sends its handshake, which the broker reads. */
  lemma AfterLoss(s: System, b: Peer, home: Home)
    requires b.id in home.ids && !s.up && s.peers == [] && s.shaken == {} && s.flight == []
    ensures var moves := [Join(b), Connect, Shake(b), BrokerReads];
            && Possible(s, moves, home)
            && Run(s, moves, home)
               == System(s.channels, s.channels, true, true, [b], {b.id}, Handle(s.broker, home.socket, Handshake([b])), [])
  {
    var shake := Handshake([b]);
    var states := [
      s,
      s.(peers := [b]),
      s.(peers := [b], installed := true, up := true, missed := s.channels),
      s.(peers := [b], installed := true, up := true, missed := s.channels, shaken := {b.id}, flight := [shake]),
      System(s.channels, s.channels, true, true, [b], {b.id}, Handle(s.broker, home.socket, shake), [])];
    RunThrough(states, [Join(b), Connect, Shake(b), BrokerReads], home);
  }

  /** The connection is lost while a channel is held; another client connects and sends its handshake: nothing is served. */
  lemma LossIsMissed(a: Peer, b: Peer, home: Home)
    requires a.id in home.ids && b.id in home.ids
    ensures var moves := [Join(a), Connect, Shake(a), Change({"c"}, [Added("c")]), BrokerReads, BrokerReads, Lose]
                         + [Join(b), Connect, Shake(b), BrokerReads];
            && Possible(FRESH, moves, home)
            && var s := Run(FRESH, moves, home);
               s.up && s.flight == [] && b.id in s.shaken && s.channels == {"c"} && !Served(s, home, "c")
  {
    var first := [Join(a), Connect, Shake(a), Change({"c"}, [Added("c")]), BrokerReads, BrokerReads, Lose];
    var second := [Join(b), Connect, Shake(b), BrokerReads];
    FreshIsInit(home);
    UpToLoss(a, home);
    RunKeepsInv(FRESH, first, home);
    var lost := Run(FRESH, first, home);
    AfterLoss(lost, b, home);
    RunSplit(FRESH, first, second, home);
    assert Ids([b]) == [b.id];
    HandshakeKeepsHome(lost.broker, home, [b]);
    CoveredIsRouted(Handle(lost.broker, home.socket, Handshake([b])), home, "c");
  }

  /** The broker when it reads a handshake of one peer and a first subscription of another. */
  lemma UnknownPeerIsDropped(a: Peer, b: Peer, home: Home)
    requires a.id in home.ids && b.id in home.ids && a.id != b.id
    ensures var known := Handle(EMPTY, home.socket, Handshake([a]));
            Handle(known, home.socket, AddChannelListener("c", [b])) == known
  {
    var known := Handle(EMPTY, home.socket, Handshake([a]));
    assert Ids([a]) == [a.id] && Ids([b]) == [b.id];
    RegisterAt(EMPTY.endpoints, home.socket, [a], b.id);
    assert [b.id][..0] == [] && Subscribe(known.endpoints, known.subs, "c", []) == known.subs;
  }

  /** A second client is listed, the first leaves, and a channel is subscribed before the second sends its handshake. */
  lemma UpToEarlySubscription(a: Peer, b: Peer, home: Home)
    requires a.id in home.ids && b.id in home.ids && a.id != b.id
    ensures var moves := [Join(a), Connect, Shake(a), Join(b), Leave(a), Change({"c"}, [Added("c")])];
            && Possible(FRESH, moves, home)
            && Run(FRESH, moves, home)
               == System({"c"}, {"c"}, true, true, [b], {a.id}, EMPTY, [Handshake([a]), AddChannelListener("c", [b])])
  {
    var moves := [Join(a), Connect, Shake(a), Join(b), Leave(a), Change({"c"}, [Added("c")])];
    FirstAddition("c");
    TellOne("c", [b]);
    assert Ids([a]) == [a.id] && Except([a, b], a) == [b];
    var shake := Handshake([a]);
    var states := [
      FRESH,
      System({}, {}, false, false, [a], {}, EMPTY, []),
      System({}, {}, true, true, [a], {}, EMPTY, []),
      System({}, {}, true, true, [a], {a.id}, EMPTY, [shake]),
      System({}, {}, true, true, [a, b], {a.id}, EMPTY, [shake]),
      System({}, {}, true, true, [b], {a.id}, EMPTY, [shake]),
      System({"c"}, {"c"}, true, true, [b], {a.id}, EMPTY, [shake, AddChannelListener("c", [b])])];
    assert Next(states[5], moves[5], home) == states[6];
    RunThrough(states, moves, home);
  }

  lemma AfterEarlySubscription(s: System, a: Peer, b: Peer, home: Home)
    requires a.id in home.ids && b.id in home.ids && a.id != b.id
    requires s == System({"c"}, {"c"}, true, true, [b], {a.id}, EMPTY, [Handshake([a]), AddChannelListener("c", [b])])
    ensures var moves := [BrokerReads, BrokerReads, Shake(b), BrokerReads];
            && Possible(s, moves, home)
            && Run(s, moves, home)
               == s.(shaken := {a.id, b.id}, flight := [],
                     broker := Handle(Handle(EMPTY, home.socket, Handshake([a])), home.socket, Handshake([b])))
  {
    UnknownPeerIsDropped(a, b, home);
    var known := Handle(EMPTY, home.socket, Handshake([a]));
    var states := [
      s,
      s.(broker := known, flight := [AddChannelListener("c", [b])]),
      s.(broker := known, flight := []),
      s.(broker := known, flight := [Handshake([b])], shaken := {a.id, b.id}),
      s.(broker := Handle(known, home.socket, Handshake([b])), flight := [], shaken := {a.id, b.id})];
    RunThrough(states, [BrokerReads, BrokerReads, Shake(b), BrokerReads], home);
  }

  /** A client subscribes before its handshake, and the only other one has left: the subscription is dropped, and not repeated. */
  lemma EarlySubscriptionIsMissed(a: Peer, b: Peer, home: Home)
    requires a.id in home.ids && b.id in home.ids && a.id != b.id
    ensures var moves := [Join(a), Connect, Shake(a), Join(b), Leave(a), Change({"c"}, [Added("c")])]
                         + [BrokerReads, BrokerReads, Shake(b), BrokerReads];
            && Possible(FRESH, moves, home)
            && var s := Run(FRESH, moves, home);
               s.up && s.flight == [] && b.id in s.shaken && s.channels == {"c"} && !Served(s, home, "c")
  {
    var first := [Join(a), Connect, Shake(a), Join(b), Leave(a), Change({"c"}, [Added("c")])];
    UpToEarlySubscription(a, b, home);
    AfterEarlySubscription(Run(FRESH, first, home), a, b, home);
    RunSplit(FRESH, first, [BrokerReads, BrokerReads, Shake(b), BrokerReads], home);
  }

  /** The first client connects and subscribes, and the broker reads it. */
  lemma UpToSubscription(a: Peer, home: Home)
    requires a.id in home.ids
    ensures var moves := [Join(a), Connect, Shake(a), Change({"c"}, [Added("c")]), BrokerReads, BrokerReads];
            && Possible(FRESH, moves, home)
            && var s := Run(FRESH, moves, home);
               s == System({"c"}, {}, true, true, [a], {a.id}, s.broker, []) && At(s.broker.subs, "c", a.id).Some?
  {
    var moves := [Join(a), Connect, Shake(a), Change({"c"}, [Added("c")]), BrokerReads, BrokerReads];
    FirstAddition("c");
    TellOne("c", [a]);
    var shake, add := Handshake([a]), AddChannelListener("c", [a]);
    var b1 := Handle(EMPTY, home.socket, shake);
    var b2 := Handle(b1, home.socket, add);
    var states := [
      FRESH,
      System({}, {}, false, false, [a], {}, EMPTY, []),
      System({}, {}, true, true, [a], {}, EMPTY, []),
      System({}, {}, true, true, [a], {a.id}, EMPTY, [shake]),
      System({"c"}, {}, true, true, [a], {a.id}, EMPTY, [shake, add]),
      System({"c"}, {}, true, true, [a], {a.id}, b1, [add]),
      System({"c"}, {}, true, true, [a], {a.id}, b2, [])];
    assert Spoken(states[3]) by {
      assert a in states[3].peers && a.id in states[3].shaken;
    }
    assert Next(states[3], moves[3], home) == states[4];
    RunThrough(states, moves, home);
    assert Ids([a]) == [a.id];
    CommandRegisters(EMPTY, home.socket, shake, a.id);
    CommandAt(b1, home.socket, add, "c", a.id);
  }

  /** Another client is listed, the first leaves, the channel is lost, and the broker reads it. */
  lemma AfterLeaving(broker: Broker, a: Peer, b: Peer, home: Home)
    requires b.id in home.ids && a.id != b.id
    ensures var moves := [Join(b), Leave(a), Change({}, [Removed("c")]), BrokerReads];
            var s := System({"c"}, {}, true, true, [a], {a.id}, broker, []);
            && Possible(s, moves, home)
            && Run(s, moves, home)
               == System({}, {}, true, true, [b], {a.id}, Handle(broker, home.socket, RemoveChannelListener("c", [b])), [])
  {
    var moves := [Join(b), Leave(a), Change({}, [Removed("c")]), BrokerReads];
    var remove := RemoveChannelListener("c", [b]);
    LastRemoval("c");
    TellLoss("c", [b]);
    assert Ids([a]) == [a.id] && Except([a, b], a) == [b];
    var states := [
      System({"c"}, {}, true, true, [a], {a.id}, broker, []),
      System({"c"}, {}, true, true, [a, b], {a.id}, broker, []),
      System({"c"}, {}, true, true, [b], {a.id}, broker, []),
      System({}, {}, true, true, [b], {a.id}, broker, [remove]),
      System({}, {}, true, true, [b], {a.id}, Handle(broker, home.socket, remove), [])];
    assert Next(states[2], moves[2], home) == states[3];
    RunThrough(states, moves, home);
  }

  lemma LastRemoval(c: Channel)
    ensures Replay({c}, [Removed(c)]) == Some({})
  {
    HearOne({c}, [], Removed(c));
    assert [] + [Removed(c)] == [Removed(c)] && {c} - {c} == {};
  }

  lemma TellLoss(c: Channel, peers: seq<Peer>)
    ensures TellAll([Removed(c)], peers) == [RemoveChannelListener(c, peers)]
  {
  }

  /** The subscriber leaves a client behind, and the channel is lost afterwards: the transport is still served what it does not hold. */
  lemma LeaverStaysServed(a: Peer, b: Peer, home: Home)
    requires a.id in home.ids && b.id in home.ids && a.id != b.id
    ensures var moves := [Join(a), Connect, Shake(a), Change({"c"}, [Added("c")]), BrokerReads, BrokerReads]
                         + [Join(b), Leave(a), Change({}, [Removed("c")]), BrokerReads];
            && Possible(FRESH, moves, home)
            && var s := Run(FRESH, moves, home);
               s.up && s.flight == [] && s.channels == {} && Served(s, home, "c")
  {
    var first := [Join(a), Connect, Shake(a), Change({"c"}, [Added("c")]), BrokerReads, BrokerReads];
    var second := [Join(b), Leave(a), Change({}, [Removed("c")]), BrokerReads];
    FreshIsInit(home);
    UpToSubscription(a, home);
    var held := Run(FRESH, first, home);
    AfterLeaving(held.broker, a, b, home);
    RunSplit(FRESH, first, second, home);
    RunKeepsInv(FRESH, first, home);
    RunKeepsInv(FRESH, first + second, home);
    assert Ids([b]) == [b.id];
    var lost := Handle(held.broker, home.socket, RemoveChannelListener("c", [b]));
    CommandAt(held.broker, home.socket, RemoveChannelListener("c", [b]), "c", a.id);
    assert At(lost.subs, "c", a.id).Some?;
    CoveredIsRouted(lost, home, "c");
  }
}
