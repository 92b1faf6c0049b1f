/** The transport that the clients of one process share, updated in place. */
module TransportMulti {
  import opened Common
  import opened Contract
  import opened ChannelIndex
  import opened ChannelConnectionMaps
  import opened RequestLedger
  import opened Requests
  import Routing
  import Books = QueryState

  /** The command that tells the other end about a first or last subscriber, in the name of all peers. */
  function Tell(note: Note, peers: seq<Peer>): Command {
    match note
    case Added(c) => AddChannelListener(c, peers)
    case Removed(c) => RemoveChannelListener(c, peers)
  }

  function TellAll(notes: seq<Note>, peers: seq<Peer>): seq<Command> {
    seq(|notes|, i requires 0 <= i < |notes| => Tell(notes[i], peers))
  }

  /** Without the first occurrence of the peer. */
  function Except(peers: seq<Peer>, peer: Peer): seq<Peer> {
    if peers == [] then []
    else if peers[0] == peer then peers[1..]
    else [peers[0]] + Except(peers[1..], peer)
  }

  lemma {:induction false} ExceptAt(peers: seq<Peer>, peer: Peer, at: nat)
    requires at <= |peers| && forall j | 0 <= j < at :: peers[j] != peer
    requires at < |peers| ==> peers[at] == peer
    ensures Except(peers, peer) == if at < |peers| then peers[..at] + peers[at + 1..] else peers
  {
    if at > 0 {
      var rest := peers[1..];
      assert forall j | 0 <= j < at - 1 :: rest[j] == peers[j + 1];
      ExceptAt(rest, peer, at - 1);
      assert peers == [peers[0]] + rest;
    }
  }

  // ----- A client closes -----------------------------------------------------------------

  /** What the clients of one process share. */
  datatype Shared = Shared(subs: Index<Client>, ledger: Ledger, peers: seq<Peer>)

  /**
   When nobody is listed any more the subscriptions are cleared, and the connector is shut
   down: if that reaches the transport (`cancels`), every request is rejected.
   */
  function CloseClient(s: Shared, client: Client, peer: Peer, cancels: bool): Shared {
    var left := Except(s.peers, peer);
    var ledger := Step(s.ledger, Cancel(Some(client)));
    if left != [] then Shared(Remove(s.subs, peer.id), ledger, left)
    else Shared(map[], if cancels then Step(ledger, Cancel(None)) else ledger, [])
  }

  ghost predicate OthersUntouched(before: Shared, after: Shared, client: Client, key: Key) {
    && (forall c, k | k != key :: At(after.subs, c, k) == At(before.subs, c, k))
    && (forall id | id in before.ledger.issued && before.ledger.issued[id] != client ::
          Owner(after.ledger, id) == Owner(before.ledger, id) && Fate(after.ledger, id) == Fate(before.ledger, id))
  }

  /** No other client has a subscription or, where that matters, a pending request. */
  ghost predicate HoldsAlone(s: Shared, client: Client, key: Key, cancels: bool) {
    && (forall c, k :: At(s.subs, c, k).Some? ==> k == key)
    && (cancels ==> forall id | id in s.ledger.table :: s.ledger.table[id] == client)
  }

  lemma CloseTakesOwn(s: Shared, client: Client, peer: Peer, cancels: bool)
    requires WellFormed(s.subs) && Balanced(s.ledger)
    ensures var after := CloseClient(s, client, peer, cancels);
            && WellFormed(after.subs) && Balanced(after.ledger)
            && (forall c :: At(after.subs, c, peer.id) == None)
            && (forall id | id in after.ledger.table :: after.ledger.table[id] != client)
  {
    RemoveAt(s.subs, peer.id);
    LeavingCancelsOwn(s.ledger, client);
    ShutdownCancelsAll(Step(s.ledger, Cancel(Some(client))));
    StepKeepsBalance(Step(s.ledger, Cancel(Some(client))), Cancel(None));
  }

  /**
   A client that closes leaves the others alone exactly when another client is still
   listed, or when no other client holds anything.
   */
  lemma CloseSparesOthers(s: Shared, client: Client, peer: Peer, cancels: bool)
    requires WellFormed(s.subs) && Balanced(s.ledger)
    ensures OthersUntouched(s, CloseClient(s, client, peer, cancels), client, peer.id)
            <==> Except(s.peers, peer) != [] || HoldsAlone(s, client, peer.id, cancels)
  {
    var after := CloseClient(s, client, peer, cancels);
    var own := Step(s.ledger, Cancel(Some(client)));
    RemoveAt(s.subs, peer.id);
    LeavingCancelsOwn(s.ledger, client);
    ShutdownCancelsAll(own);
    if Except(s.peers, peer) == [] {
      if c, k :| At(s.subs, c, k).Some? && k != peer.id {
        assert At(after.subs, c, k) != At(s.subs, c, k);
      }
      if cancels {
        if id :| id in s.ledger.table && s.ledger.table[id] != client {
          assert Owner(after.ledger, id) != Owner(s.ledger, id);
        } else {
          assert own.table == map[];
          StepKeepsBalance(own, Cancel(None));
        }
      }
    }
  }

  class IpcBusTransportMulti {
    var peers: seq<Peer>
    const subscriptions: ChannelConnectionMap<Client>
    const requests: RequestTable
    // The post functions are bound to a connector; otherwise posting is a no-op.
    var alive: bool
    var posted: seq<Command>
    // The connector is connected, and serves the transport; the one of main serves none.
    var connected: bool
    const served: bool

    /** Without a client of the subscriptions there are none. */
    ghost predicate Valid()
      reads this, subscriptions, requests, requests.issued.Values
    {
      && subscriptions.Valid() && requests.Valid()
      && (!subscriptions.client ==> subscriptions.channels == map[])
    }

    ghost function Value(): Shared
      reads this, subscriptions, requests
    {
      Shared(subscriptions.channels, requests.ledger, peers)
    }

    constructor (served: bool)
      ensures Valid() && fresh(subscriptions) && fresh(requests) && this.served == served
      ensures Value() == Shared(map[], EMPTY, [])
      ensures !alive && !connected && posted == [] && !subscriptions.client && requests.issued == map[]
    {
      peers, alive, posted, connected, this.served := [], false, [], false, served;
      subscriptions := new ChannelConnectionMap();
      requests := new RequestTable();
    }

    /** What the subscriptions announced since `before` goes out, one command each. */
    method PostNotes(before: nat)
      requires before <= |subscriptions.notified|
      modifies this`posted
      ensures posted == old(posted) + if alive then TellAll(subscriptions.notified[before..], peers) else []
    {
      if alive {
        var notes := subscriptions.notified[before..];
        for i := 0 to |notes|
          invariant posted == old(posted) + TellAll(notes, peers)[..i]
        {
          posted := posted + [Tell(notes[i], peers)];
        }
      }
    }

    // ----- Connecting --------------------------------------------------------------------

    /** The peer is listed before its handshake completes. */
    method Join(peer: Peer)
      modifies this`peers
      ensures peers == if exists i :: 0 <= i < |old(peers)| && old(peers)[i].id == peer.id then old(peers)
                       else old(peers) + [peer]
    {
      var known := false;
      for i := 0 to |peers|
        invariant known <==> exists j :: 0 <= j < i && peers[j].id == peer.id
      {
        known := known || peers[i].id == peer.id;
      }
      if !known {
        peers := peers + [peer];
      }
    }

    method OnHandshakeDone()
      requires Valid()
      modifies this`alive, this`connected, subscriptions
      ensures Valid() && alive && connected && subscriptions.client
      ensures subscriptions.channels == old(subscriptions.channels)
    {
      alive, connected := true, true;
      if subscriptions.Empty() {
        subscriptions.Install();
      }
    }

    // ----- Channels ------------------------------------------------------------------------

    method AddChannel(client: Client, peer: Option<Key>, c: Channel, count: nat)
      requires Valid() && count >= 1
      modifies this`posted, subscriptions
      ensures Valid() && subscriptions.client == old(subscriptions.client)
      ensures subscriptions.channels
              == if subscriptions.client && peer.Some?
                 then AddRef(old(subscriptions.channels), c, peer.value, client, count)
                 else old(subscriptions.channels)
      ensures posted == old(posted)
                + if subscriptions.client && alive && peer.Some? && c !in old(subscriptions.channels)
                  then [AddChannelListener(c, peers)] else []
    {
      if subscriptions.Empty() || peer.None? {
        return;
      }
      var before := |subscriptions.notified|;
      var _ := subscriptions.AddRef(c, peer.value, client, count);
      assert subscriptions.notified[before..] == if c in old(subscriptions.channels) then [] else [Added(c)];
      PostNotes(before);
    }

    /** An absent or empty channel name stands for every channel of the client. */
    method RemoveChannel(peer: Option<Key>, c: Option<Channel>, all: bool) returns (ghost notes: seq<Note>)
      requires Valid()
      modifies this`posted, subscriptions
      ensures Valid() && subscriptions.client == old(subscriptions.client)
      ensures subscriptions.channels == Released(old(subscriptions.channels), peer, c, all)
      ensures posted == old(posted) + if alive then TellAll(notes, peers) else []
      ensures subscriptions.client ==>
                Replay(old(subscriptions.channels).Keys, notes) == Some(subscriptions.channels.Keys)
    {
      notes := [];
      if subscriptions.Empty() || peer.None? {
        return;
      }
      var before := |subscriptions.notified|;
      notes := TakeAway(subscriptions, peer.value, c, all);
      assert subscriptions.notified[before..] == notes;
      PostNotes(before);
    }

    static method TakeAway(subscriptions: ChannelConnectionMap<Client>, peer: Key, c: Option<Channel>, all: bool)
      returns (ghost notes: seq<Note>)
      requires subscriptions.Valid()
      modifies subscriptions
      ensures subscriptions.Valid() && subscriptions.client == old(subscriptions.client)
      ensures subscriptions.channels == Released(old(subscriptions.channels), Some(peer), c, all)
      ensures subscriptions.notified == old(subscriptions.notified) + notes
      ensures subscriptions.client ==>
                Replay(old(subscriptions.channels).Keys, notes) == Some(subscriptions.channels.Keys)
    {
      ghost var base, told := subscriptions.base, subscriptions.notified;
      if c.Some? && c.value != "" {
        var _ := subscriptions.ReleaseChannel(c.value, peer, all);
      } else {
        subscriptions.Remove(peer);
      }
      notes := subscriptions.notified[|told|..];
      assert subscriptions.notified == told + notes;
      if subscriptions.client {
        ReplayAppend(base, told, notes);
      }
    }

    static function Released(t: Index<Client>, peer: Option<Key>, c: Option<Channel>, all: bool): Index<Client> {
      if peer.None? then t
      else if c.None? || c.value == "" then Remove(t, peer.value)
      else if all then ReleaseAll(t, c.value, peer.value)
      else Release(t, c.value, peer.value)
    }

    // ----- Messages ------------------------------------------------------------------------

    /** The clients that are subscribed, have listeners, and are not excluded by the target. */
    function Eligible(msg: Message, listening: set<Key>): set<Key>
      reads this, subscriptions
    {
      if msg.channel !in subscriptions.channels then {}
      else set k | k in subscriptions.channels[msg.channel] && k in listening
                   && (Routing.Aim(msg) == None || Routing.Aim(msg) == Some(k))
    }

    /** A client that runs handles the message when it is the target, or answers the request on the spot. */
    static function Handling(msg: Message, listening: set<Key>, answering: set<Key>): set<Key> {
      if Routing.Aim(msg).Some? then listening else if msg.request.Some? then answering else {}
    }

    /** Runs the subscribed clients in some order until one of them handles the message. */
    method OnMessageReceived(msg: Message, listening: set<Key>, answering: set<Key>)
      returns (ran: seq<Key>, handled: bool)
      ensures handled <==> ran != [] && (Routing.Aim(msg).Some? || (msg.request.Some? && ran[|ran| - 1] in answering))
      ensures RanInTurn(ran, handled, Eligible(msg, listening), Handling(msg, listening, answering))
    {
      var conns := if msg.channel in subscriptions.channels then subscriptions.channels[msg.channel].Keys else {};
      ran, handled := RunInTurn(conns, Eligible(msg, listening), Handling(msg, listening, answering));
      assert ran != [] ==> ran[|ran| - 1] in Eligible(msg, listening);
    }

    /** Nobody runs twice or after a client that handled the message; without one, all run. */
    static ghost predicate RanInTurn(ran: seq<Key>, handled: bool, eligible: set<Key>, handling: set<Key>) {
      && (forall i, j | 0 <= i < j < |ran| :: ran[i] != ran[j])
      && (forall k | k in ran :: k in eligible)
      && (!handled ==> forall k | k in eligible :: k in ran)
      && (forall i | 0 <= i < |ran| - 1 :: ran[i] !in handling)
      && (handled <==> ran != [] && ran[|ran| - 1] in handling)
    }

    static method RunInTurn(conns: set<Key>, eligible: set<Key>, handling: set<Key>)
      returns (ran: seq<Key>, handled: bool)
      requires eligible <= conns
      ensures RanInTurn(ran, handled, eligible, handling)
    {
      ran, handled := [], false;
      var unvisited := conns;
      assert eligible - unvisited == {};
      while unvisited != {}
        invariant unvisited <= conns
        invariant RanInTurn(ran, handled, eligible - unvisited, handling)
        decreases unvisited
      {
        var k :| k in unvisited;
        unvisited := unvisited - {k};
        if !handled && k in eligible {
          ran := ran + [k];
          handled := k in handling;
        }
      }
      assert eligible - unvisited == eligible;
    }

    /** The process as routing sees it; `listening` tells who has listeners of a channel. */
    function AsHost(listening: Channel -> set<Key>): Routing.Host
      reads this, subscriptions, requests
    {
      Routing.Host(map c | c in subscriptions.channels :: subscriptions.channels[c].Keys * listening(c),
                   requests.requestFunctions.Keys)
    }

    /** The clients that may run are the ones routing lets run. */
    lemma EligibleAsRouted(msg: Message, listening: Channel -> set<Key>)
      requires msg.kind == SendMessage
      ensures Eligible(msg, listening(msg.channel)) == Routing.Ran(AsHost(listening), msg)
    {
      var here := if msg.channel in subscriptions.channels
                  then subscriptions.channels[msg.channel].Keys * listening(msg.channel) else {};
      assert Routing.Listeners(AsHost(listening), msg.channel) == here;
      if Routing.Aim(msg).Some? {
        assert Eligible(msg, listening(msg.channel)) == here * {Routing.Aim(msg).value};
      } else {
        assert Eligible(msg, listening(msg.channel)) == here;
      }
    }

    /**
     Routing is right about the process, `answered` telling whether a client that ran answered
     the request on the spot: it keeps the message in the cases routing names, only clients
     routing names run, and all of them unless a request was answered before their turn.
     */
    lemma RunsAsRouted(
      msg: Message, listening: Channel -> set<Key>, answering: set<Key>, ran: seq<Key>, handled: bool, answered: bool)
      requires msg.kind == SendMessage
      requires RanInTurn(ran, handled, Eligible(msg, listening(msg.channel)),
                         Handling(msg, listening(msg.channel), answering))
      requires answered <==> exists k | k in ran :: k in answering
      ensures handled == Routing.Handled(AsHost(listening), msg, answered)
      ensures forall k | k in ran :: k in Routing.Ran(AsHost(listening), msg)
      ensures Routing.Aim(msg).Some? || msg.request == None || !answered ==>
                forall k | k in Routing.Ran(AsHost(listening), msg) :: k in ran
    {
      EligibleAsRouted(msg, listening);
      var eligible := Routing.Ran(AsHost(listening), msg);
      if handled {
        assert ran[|ran| - 1] in eligible;
      } else if Routing.Aim(msg).Some? && eligible != {} {
        assert false;
      }
    }

    /** A response is kept exactly when its request is pending here. */
    lemma ResponsesAsRouted(msg: Message, listening: Channel -> set<Key>, answered: bool)
      requires msg.kind == RequestResponse
      ensures Routing.Handled(AsHost(listening), msg, answered) <==> msg.channel in requests.requestFunctions
      ensures Routing.Concerned(AsHost(listening), msg) <==> msg.channel in requests.requestFunctions
    {
    }

    /** A target without an id restricts nothing. */
    lemma EmptyTargetIsNone(msg: Message, listening: set<Key>, answering: set<Key>)
      requires msg.target.Some? && msg.target.value.id == ""
      ensures Eligible(msg, listening) == Eligible(msg.(target := None), listening)
      ensures Handling(msg, listening, answering) == Handling(msg.(target := None), listening, answering)
    {
    }

    /** What handling a message means: the target has run, or a client has answered the request, and nobody runs after it. */
    lemma HandledMeans(
      msg: Message, listening: set<Key>, answering: set<Key>, ran: seq<Key>, handled: bool)
      requires RanInTurn(ran, handled, Eligible(msg, listening), Handling(msg, listening, answering))
      ensures Routing.Aim(msg).Some? ==>
                (forall k | k in ran :: k == Routing.Aim(msg).value)
                && |ran| <= 1 && (handled <==> |ran| == 1)
      ensures Routing.Aim(msg) == None && msg.request.Some? ==>
                (forall i | 0 <= i < |ran| - 1 :: ran[i] !in answering)
                && (handled <==> exists k | k in ran :: k in answering)
      ensures Routing.Aim(msg) == None && msg.request == None ==> !handled
    {
      assert |ran| > 1 ==> ran[0] != ran[1];
      forall i | 0 <= i < |ran| ensures ran[i] in Eligible(msg, listening) {
        assert ran[i] in ran;
      }
    }

    // ----- Leaving ---------------------------------------------------------------------------

    method Leave(peer: Peer)
      modifies this`peers
      ensures peers == Except(old(peers), peer)
      ensures multiset(peers) == multiset(old(peers)) - multiset{peer}
    {
      var i := 0;
      while i < |peers| && peers[i] != peer
        invariant i <= |peers| && forall j | 0 <= j < i :: peers[j] != peer
      {
        i := i + 1;
      }
      ExceptAt(peers, peer, i);
      if i < |peers| {
        RemovedOne(peers, i);
        peers := peers[..i] + peers[i + 1..];
      }
    }

    /** What the client held is withdrawn (`notes`); with the last listed client everything goes, unannounced. */
    method Close(client: Client, peer: Peer) returns (ghost notes: seq<Note>)
      requires Valid()
      modifies this, subscriptions, requests`requestFunctions, requests`ledger, requests.issued.Values
      ensures Valid()
      ensures Value() == if old(subscriptions.client)
                         then CloseClient(old(Value()), client, peer, old(connected) && served)
                         else old(Value())
      ensures old(subscriptions.client) && peers == [] ==> !connected && !subscriptions.client
      ensures old(subscriptions.client) ==>
                Replay(old(subscriptions.channels).Keys, notes) == Some(Remove(old(subscriptions.channels), peer.id).Keys)
      ensures peers != [] || !served ==> posted == old(posted) + if old(alive) then TellAll(notes, old(peers)) else []
    {
      notes := [];
      if !subscriptions.Empty() {
        notes := Withdraw(client, peer);
        if peers == [] {
          ShutDownConnector();
          subscriptions.Clear();
        }
      }
    }

    method Withdraw(client: Client, peer: Peer) returns (ghost notes: seq<Note>)
      requires Valid() && subscriptions.client
      modifies this`posted, this`peers, subscriptions
      modifies requests`requestFunctions, requests`ledger, requests.issued.Values
      ensures Valid() && subscriptions.client
      ensures Value() == Shared(Remove(old(subscriptions.channels), peer.id),
                                Step(old(requests.ledger), Cancel(Some(client))), Except(old(peers), peer))
      ensures Replay(old(subscriptions.channels).Keys, notes) == Some(subscriptions.channels.Keys)
      ensures posted == old(posted) + if alive then TellAll(notes, old(peers)) else []
    {
      requests.CancelRequest(Some(client));
      assert subscriptions.Valid() && requests.Valid();
      notes := RemoveChannel(Some(peer.id), None, false);
      assert requests.Valid();
      Leave(peer);
    }

    /** A connector that serves the transport tells it before and after; the peers it shuts down are those still listed. */
    method ShutDownConnector()
      requires Valid()
      modifies this, subscriptions, requests`requestFunctions, requests`ledger, requests.issued.Values
      ensures Valid() && !connected
      ensures requests.ledger == if old(connected) && served then Step(old(requests.ledger), Cancel(None))
                                 else old(requests.ledger)
      ensures old(connected) && served ==> peers == [] && !alive && subscriptions.channels == map[]
      ensures !(old(connected) && served) ==>
                alive == old(alive) && posted == old(posted) && Value() == old(Value())
                && subscriptions.client == old(subscriptions.client)
      ensures old(connected) && served ==>
                posted == old(posted) + (if old(alive) then [RemoveListeners(old(peers))] else []) + [Shutdown(old(peers))]
    {
      if connected && served {
        OnConnectorBeforeShutdown();
        posted := posted + [Shutdown(peers)];
        OnConnectorShutdown();
      }
      connected := false;
    }

    method QueryState(peerOf: Client -> Key) returns (channels: map<Channel, nat>, peerEntries: Books.Peers)
      ensures Books.Totals(subscriptions.channels, subscriptions.channels.Keys, channels, peerEntries)
      ensures Books.Shares(subscriptions.channels, peerOf, subscriptions.channels.Keys, peerEntries)
    {
      channels, peerEntries := Books.Report(subscriptions.channels, peerOf);
    }

    /** The connector is about to shut down: every request is rejected, every subscription forgotten. */
    method OnConnectorBeforeShutdown()
      requires Valid()
      modifies this`posted, subscriptions, requests`requestFunctions, requests`ledger, requests.issued.Values
      ensures Valid() && subscriptions.channels == map[] && !subscriptions.client
      ensures requests.ledger == Step(old(requests.ledger), Cancel(None))
      ensures requests.requestFunctions == map[]
      ensures posted == old(posted) + if alive then [RemoveListeners(peers)] else []
    {
      requests.CancelRequest(None);
      assert requests.requestFunctions.Keys == {};
      subscriptions.Clear();
      if alive {
        posted := posted + [RemoveListeners(peers)];
      }
    }

    /** The connection is gone: nothing can be posted any more. */
    method OnConnectorShutdown()
      requires Valid()
      modifies this`alive, this`peers, this`connected
      ensures Valid() && !alive && !connected && peers == []
    {
      alive, connected := false, false;
      peers := [];
    }
  }

  /**
   The first client connects, the second adds a listener to the live transport without
   connecting, the first closes: the second is forgotten.
   */
  method CloseForgetsListener(first: Peer, second: Key, served: bool) returns (held: Index<Client>, left: Index<Client>)
    requires first.id != second
    ensures held == map["c" := map[second := Conn(2, 1)]]
    ensures left == map[]
  {
    var transport := new IpcBusTransportMulti(served);
    transport.Join(first);
    transport.OnHandshakeDone();
    transport.AddChannel(2, Some(second), "c", 1);
    held := transport.subscriptions.channels;
    ghost var _ := transport.Close(1, first);
    left := transport.subscriptions.channels;
  }
}
