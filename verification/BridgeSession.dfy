/**
 The life of one bridge connection after another: the broker and the bridge tell each
 other their channels over a FIFO link that either end can lose at any moment.
 */
module BridgeSession {
  import opened Common
  import opened Contract
  import opened ChannelIndex
  import opened ChannelCounts
  import opened BrokerModel
  import Routing

  /** Which ends still have the socket. */
  datatype Link = Down | Up | BridgeGone | BrokerGone

  /**
   `toBridge` and `toBroker` are the channel commands in flight, oldest first. `socketUp`
   says that the bridge has a socket transport to announce its channels to.
   */
  datatype Session = Session(
    broker: Broker,
    toBridge: seq<Note>,
    renderers: set<Channel>,
    main: set<Channel>,
    socketUp: bool,
    mirror: Counts,
    toBroker: seq<Command>,
    link: Link)

  function Announce(note: Note): Command {
    match note
    case Added(c) => BridgeAddChannelListener(c)
    case Removed(c) => BridgeRemoveChannelListener(c)
  }

  function Announcements(notes: seq<Note>): seq<Command> {
    seq(|notes|, i requires 0 <= i < |notes| => Announce(notes[i]))
  }

  /** What can happen; notes are the ones the changing index sends its client, in any order that explains the change. */
  datatype Move =
    | NodeCommand(socket: Socket, command: Command, notes: seq<Note>)
    | NodeLost(socket: Socket, notes: seq<Note>)
    | RenderersChange(renderers: set<Channel>, notes: seq<Note>)
    | MainChange(main: set<Channel>, notes: seq<Note>)
    | Connect(channels: seq<Channel>)
    | Close
    | BrokerReads(notes: seq<Note>)
    | BridgeReads
    | BridgeSeesEnd
    | BrokerSeesEnd
    | BrokerResets

  predicate FromNode(command: Command) {
    !(command.BridgeConnect? || command.BridgeClose?
      || command.BridgeAddChannelListener? || command.BridgeRemoveChannelListener?)
  }

  predicate Enabled(s: Session, m: Move, uplink: Socket) {
    match m
    case NodeCommand(socket, command, notes) =>
      && socket != uplink && FromNode(command)
      && Replay(s.broker.subs.Keys, notes) == Some(Handle(s.broker, socket, command).subs.Keys)
    case NodeLost(socket, notes) =>
      && socket != uplink
      && Replay(s.broker.subs.Keys, notes) == Some(CleanUp(s.broker, socket).subs.Keys)
    case RenderersChange(renderers, notes) => Replay(s.renderers, notes) == Some(renderers)
    case MainChange(main, notes) => Replay(s.main, notes) == Some(main)
    case Connect(channels) => s.link == Down && multiset(channels) == multiset(s.renderers) + multiset(s.main)
    case Close => s.socketUp
    case BrokerReads(notes) =>
      && s.toBroker != [] && (s.link == Up || s.link == BridgeGone)
      && (s.toBroker[0].BridgeConnect? ==> Replay({}, notes) == Some(s.broker.subs.Keys))
    case BridgeReads => s.toBridge != [] && (s.link == Up || s.link == BrokerGone)
    case BridgeSeesEnd => s.link == Up || s.link == BrokerGone
    case BrokerSeesEnd => s.link == Up || s.link == BridgeGone
    case BrokerResets => true
  }

  /** The broker writes its notes to the bridge it is attached to. */
  function Told(s: Session, notes: seq<Note>): seq<Note> {
    if s.broker.bridge.Some? && s.link == Up then s.toBridge + notes else s.toBridge
  }

  /** The bridge posts on its socket transport; a socket the broker has lost swallows it. */
  function Posted(s: Session, commands: seq<Command>): seq<Command> {
    if s.socketUp && s.link == Up then s.toBroker + commands else s.toBroker
  }

  function BrokerLeaves(link: Link): Link {
    if link == Up then BrokerGone else if link == BridgeGone then Down else link
  }

  function Next(s: Session, m: Move, uplink: Socket): Session
    requires Enabled(s, m, uplink)
  {
    match m
    case NodeCommand(socket, command, notes) =>
      s.(broker := Handle(s.broker, socket, command), toBridge := Told(s, notes))
    case NodeLost(socket, notes) => s.(broker := CleanUp(s.broker, socket), toBridge := Told(s, notes))
    case RenderersChange(renderers, notes) =>
      s.(renderers := renderers, toBroker := Posted(s, Announcements(notes)))
    case MainChange(main, notes) => s.(main := main, toBroker := Posted(s, Announcements(notes)))
    case Connect(channels) =>
      s.(socketUp := true, mirror := map[], toBroker := [BridgeConnect(channels)], link := Up)
    case Close => s.(socketUp := false, toBroker := Posted(s, [BridgeClose]))
    case BrokerReads(notes) =>
      var broker := Handle(s.broker, uplink, s.toBroker[0]);
      var attaches := s.broker.bridge.None? && broker.bridge.Some?;
      s.(broker := broker, toBroker := s.toBroker[1..],
         toBridge := if attaches && s.link == Up then s.toBridge + notes else s.toBridge)
    case BridgeReads => s.(mirror := Follow(s.mirror, [s.toBridge[0]]), toBridge := s.toBridge[1..])
    case BridgeSeesEnd =>
      s.(socketUp := false, mirror := map[], toBridge := [],
         link := if s.link == Up then BridgeGone else Down)
    case BrokerSeesEnd =>
      s.(broker := CleanUp(s.broker, uplink), toBroker := [], link := BrokerLeaves(s.link))
    case BrokerResets =>
      s.(broker := CloseBridge(s.broker, None).(subs := map[]), toBroker := [], link := BrokerLeaves(s.link))
  }

  // ----- Settling the commands in flight ------------------------------------------------

  /** The part of the broker that the bridge's commands change. */
  datatype Attachment = Attachment(attached: bool, mirror: Counts)

  function Attach(b: Broker): Attachment {
    Attachment(b.bridge.Some?, b.mirror)
  }

  function Settle1(a: Attachment, command: Command): Attachment {
    match command
    case BridgeConnect(channels) => if a.attached then a else Attachment(true, AddAll(a.mirror, channels))
    case BridgeAddChannelListener(c) => a.(mirror := Add(a.mirror, c))
    case BridgeRemoveChannelListener(c) => a.(mirror := Take(a.mirror, c))
    case BridgeClose => if a.attached then Attachment(false, map[]) else a
    case _ => a
  }

  /** The attachment once every command in flight has been read. */
  function Settle(a: Attachment, commands: seq<Command>): Attachment {
    if commands == [] then a
    else Settle1(Settle(a, commands[..|commands| - 1]), commands[|commands| - 1])
  }

  lemma {:induction false} SettleAppend(a: Attachment, p: seq<Command>, q: seq<Command>)
    ensures Settle(a, p + q) == Settle(Settle(a, p), q)
  {
    if q == [] {
      assert p + q == p;
    } else {
      SettleAppend(a, p, q[..|q| - 1]);
      assert (p + q)[..|p + q| - 1] == p + q[..|q| - 1];
    }
  }

  lemma SettleFirst(a: Attachment, commands: seq<Command>)
    requires commands != []
    ensures Settle(a, commands) == Settle(Settle1(a, commands[0]), commands[1..])
  {
    var head := [commands[0]];
    assert head[..0] == [] && Settle(a, head) == Settle1(a, commands[0]);
    assert commands == head + commands[1..];
    SettleAppend(a, head, commands[1..]);
  }

  lemma {:induction false} SettleAnnouncements(a: Attachment, notes: seq<Note>)
    ensures Settle(a, Announcements(notes)) == Attachment(a.attached, Follow(a.mirror, notes))
  {
    if notes != [] {
      var init := notes[..|notes| - 1];
      SettleAnnouncements(a, init);
      assert Announcements(notes)[..|notes| - 1] == Announcements(init);
    }
  }

  // ----- The invariant --------------------------------------------------------------------

  /** The commands in flight make a session: connect, announcements, close. */
  predicate Shaped(attached: bool, commands: seq<Command>)
    decreases |commands|
  {
    commands == [] ||
    match commands[0]
    case BridgeConnect(_) => !attached && Shaped(true, commands[1..])
    case BridgeAddChannelListener(_) => attached && Shaped(attached, commands[1..])
    case BridgeRemoveChannelListener(_) => attached && Shaped(attached, commands[1..])
    case BridgeClose => attached && commands[1..] == []
    case _ => false
  }

  function Sources(s: Session, c: Channel): nat {
    Holds(s.renderers, c) + Holds(s.main, c)
  }

  /** What the bridge will know counts every channel of the broker once, and no other. */
  ghost predicate BrokerMirrored(s: Session) {
    forall c :: Get(Follow(s.mirror, s.toBridge), c) == Holds(s.broker.subs.Keys, c)
  }

  /** What the broker will know counts every channel once per source that holds it. */
  ghost predicate BridgeMirrored(s: Session) {
    var settled := Settle(Attach(s.broker), s.toBroker);
    settled.attached && forall c :: Get(settled.mirror, c) == Sources(s, c)
  }

  ghost predicate Inv(s: Session, uplink: Socket) {
    && Positive(s.mirror) && Positive(Settle(Attach(s.broker), s.toBroker).mirror)
    && Positive(Follow(s.mirror, s.toBridge))
    && (s.broker.bridge == None || s.broker.bridge == Some(uplink))
    && (s.broker.bridge == None ==> s.broker.mirror == map[])
    && Shaped(s.broker.bridge.Some?, s.toBroker)
    && (s.socketUp ==> s.link == Up || s.link == BrokerGone)
    && (match s.link
        case Up =>
          && (s.broker.bridge.Some? ==> BrokerMirrored(s))
          && (s.broker.bridge.None? && s.toBroker != [] ==> s.toBridge == [] && s.mirror == map[])
          && (s.socketUp ==> BridgeMirrored(s))
          && (!s.socketUp ==> Settle(Attach(s.broker), s.toBroker) == Attachment(false, map[]))
        case BridgeGone => s.toBridge == [] && !s.socketUp
        case BrokerGone => s.broker.bridge == None && s.toBroker == []
        case Down => s.broker.bridge == None && s.toBroker == [] && s.toBridge == [] && !s.socketUp)
  }

  ghost predicate Init(s: Session) {
    && s.broker.bridge == None && s.broker.mirror == map[]
    && s.toBridge == [] && s.toBroker == [] && s.mirror == map[]
    && !s.socketUp && s.link == Down
  }

  // ----- Preservation -----------------------------------------------------------------------

  lemma {:induction false} ShapedAppend(a: Attachment, q: seq<Command>, extra: seq<Command>)
    requires Shaped(a.attached, q) && Settle(a, q).attached && Shaped(true, extra)
    ensures Shaped(a.attached, q + extra)
    decreases |q|
  {
    if q == [] {
      assert q + extra == extra;
    } else {
      SettleFirst(a, q);
      assert (q + extra)[0] == q[0] && (q + extra)[1..] == q[1..] + extra;
      if !q[0].BridgeClose? {
        ShapedAppend(Settle1(a, q[0]), q[1..], extra);
      }
    }
  }

  lemma {:induction false} AnnouncementsShaped(notes: seq<Note>)
    ensures Shaped(true, Announcements(notes))
  {
    if notes != [] {
      AnnouncementsShaped(notes[1..]);
      assert Announcements(notes)[1..] == Announcements(notes[1..]);
    }
  }

  /** Announcements of one source move the settled count of that source and of nothing else. */
  lemma SourceChanges(s: Session, known: set<Channel>, notes: seq<Note>, uplink: Socket)
    requires Inv(s, uplink) && s.socketUp && s.link == Up
    requires Replay(known, notes).Some? && (known == s.renderers || known == s.main)
    ensures var settled := Settle(Attach(s.broker), Posted(s, Announcements(notes)));
            && Shaped(s.broker.bridge.Some?, Posted(s, Announcements(notes)))
            && settled.attached && Positive(settled.mirror)
            && forall c :: Get(settled.mirror, c)
                 == Sources(s, c) - Holds(known, c) + Holds(Replay(known, notes).value, c)
  {
    var a, q := Attach(s.broker), s.toBroker;
    SettleAppend(a, q, Announcements(notes));
    SettleAnnouncements(Settle(a, q), notes);
    forall c | c in known ensures c in Settle(a, q).mirror {
      assert Get(Settle(a, q).mirror, c) == Sources(s, c);
    }
    FollowTracksSource(Settle(a, q).mirror, known, notes);
    AnnouncementsShaped(notes);
    ShapedAppend(a, q, Announcements(notes));
  }

  lemma RenderersChangeKeepsInv(s: Session, m: Move, uplink: Socket)
    requires Inv(s, uplink) && Enabled(s, m, uplink) && m.RenderersChange?
    ensures Inv(Next(s, m, uplink), uplink)
  {
    if s.socketUp && s.link == Up {
      SourceChanges(s, s.renderers, m.notes, uplink);
    }
  }

  lemma MainChangeKeepsInv(s: Session, m: Move, uplink: Socket)
    requires Inv(s, uplink) && Enabled(s, m, uplink) && m.MainChange?
    ensures Inv(Next(s, m, uplink), uplink)
  {
    if s.socketUp && s.link == Up {
      SourceChanges(s, s.main, m.notes, uplink);
    }
  }

  /** Whatever the index of the broker announces reaches the settled mirror of the bridge. */
  lemma BrokerChanges(s: Session, broker: Broker, notes: seq<Note>, uplink: Socket)
    requires Inv(s, uplink) && Attach(broker) == Attach(s.broker) && broker.bridge == s.broker.bridge
    requires Replay(s.broker.subs.Keys, notes) == Some(broker.subs.Keys)
    ensures Inv(s.(broker := broker, toBridge := Told(s, notes)), uplink)
  {
    if s.broker.bridge.Some? && s.link == Up {
      FollowAppend(s.mirror, s.toBridge, notes);
      var m := Follow(s.mirror, s.toBridge);
      forall c | c in s.broker.subs.Keys ensures c in m {
        assert Get(m, c) == 1;
      }
      FollowTracksSource(m, s.broker.subs.Keys, notes);
    }
  }

  lemma ConnectKeepsInv(s: Session, m: Move, uplink: Socket)
    requires Inv(s, uplink) && Enabled(s, m, uplink) && m.Connect?
    ensures Inv(Next(s, m, uplink), uplink)
  {
    var q := [BridgeConnect(m.channels)];
    assert q[..0] == [] && q[1..] == [];
    assert Settle(Attach(s.broker), q) == Attachment(true, AddAll(map[], m.channels));
    AddAllGet(map[], m.channels);
    forall c ensures multiset(m.channels)[c] == Sources(s, c) {
      assert (multiset(s.renderers) + multiset(s.main))[c] == Sources(s, c);
    }
  }

  lemma CloseKeepsInv(s: Session, uplink: Socket)
    requires Inv(s, uplink) && Enabled(s, Close, uplink)
    ensures Inv(Next(s, Close, uplink), uplink)
  {
    if s.link == Up {
      var a, q := Attach(s.broker), s.toBroker;
      var close := [BridgeClose];
      SettleAppend(a, q, close);
      assert close[..0] == [] && Settle(Settle(a, q), close) == Attachment(false, map[]);
      assert Shaped(true, close);
      ShapedAppend(a, q, close);
    }
  }

  lemma BrokerReadsKeepsInv(s: Session, m: Move, uplink: Socket)
    requires Inv(s, uplink) && Enabled(s, m, uplink) && m.BrokerReads?
    ensures Inv(Next(s, m, uplink), uplink)
  {
    var command := s.toBroker[0];
    var broker := Handle(s.broker, uplink, command);
    SettleFirst(Attach(s.broker), s.toBroker);
    assert Attach(broker) == Settle1(Attach(s.broker), command);
    if command.BridgeConnect? && s.link == Up {
      assert s.toBridge + m.notes == m.notes;
      FollowTracksSource(map[], {}, m.notes);
    }
  }

  lemma BridgeReadsKeepsInv(s: Session, uplink: Socket)
    requires Inv(s, uplink) && Enabled(s, BridgeReads, uplink)
    ensures Inv(Next(s, BridgeReads, uplink), uplink)
  {
    var head := [s.toBridge[0]];
    assert s.toBridge == head + s.toBridge[1..];
    FollowAppend(s.mirror, head, s.toBridge[1..]);
    assert head[..0] == [] && Follow(s.mirror, []) == s.mirror;
  }

  lemma NextKeepsInv(s: Session, m: Move, uplink: Socket)
    requires Inv(s, uplink) && Enabled(s, m, uplink)
    ensures Inv(Next(s, m, uplink), uplink)
  {
    match m
    case NodeCommand(socket, command, notes) => BrokerChanges(s, Handle(s.broker, socket, command), notes, uplink);
    case NodeLost(socket, notes) => BrokerChanges(s, CleanUp(s.broker, socket), notes, uplink);
    case RenderersChange(renderers, notes) => RenderersChangeKeepsInv(s, m, uplink);
    case MainChange(main, notes) => MainChangeKeepsInv(s, m, uplink);
    case Connect(channels) => ConnectKeepsInv(s, m, uplink);
    case Close => CloseKeepsInv(s, uplink);
    case BrokerReads(notes) => BrokerReadsKeepsInv(s, m, uplink);
    case BridgeReads => BridgeReadsKeepsInv(s, uplink);
    case BridgeSeesEnd =>
    case BrokerSeesEnd => assert Settle(Attach(Next(s, m, uplink).broker), []).mirror == map[];
    case BrokerResets => assert Settle(Attach(Next(s, m, uplink).broker), []).mirror == map[];
  }

  // ----- Reachable states ----------------------------------------------------------------------

  ghost predicate Possible(s: Session, moves: seq<Move>, uplink: Socket)
    decreases |moves|
  {
    moves == [] || (Enabled(s, moves[0], uplink) && Possible(Next(s, moves[0], uplink), moves[1..], uplink))
  }

  ghost function Run(s: Session, moves: seq<Move>, uplink: Socket): Session
    requires Possible(s, moves, uplink)
    decreases |moves|
  {
    if moves == [] then s else Run(Next(s, moves[0], uplink), moves[1..], uplink)
  }

  lemma {:induction false} RunKeepsInv(s: Session, moves: seq<Move>, uplink: Socket)
    requires Inv(s, uplink) && Possible(s, moves, uplink)
    ensures Inv(Run(s, moves, uplink), uplink)
    decreases |moves|
  {
    if moves != [] {
      NextKeepsInv(s, moves[0], uplink);
      RunKeepsInv(Next(s, moves[0], uplink), moves[1..], uplink);
    }
  }

  /**
   In every reachable state: while the bridge is attached over a live link, the bridge's
   mirror with the commands in flight applied counts each channel of the broker once and
   nothing else; while the bridge has its socket, the broker's mirror with the commands in
   flight applied counts each channel once per source; and without a bridge it is empty.
   */
  lemma MirrorsAgree(start: Session, moves: seq<Move>, uplink: Socket)
    requires Init(start) && Possible(start, moves, uplink)
    ensures var s := Run(start, moves, uplink);
            && (s.link == Up && s.broker.bridge.Some? ==> BrokerMirrored(s))
            && (s.link == Up && s.socketUp ==> BridgeMirrored(s))
            && (s.broker.bridge == None ==> s.broker.mirror == map[])
  {
    RunKeepsInv(start, moves, uplink);
  }

  /** A drained link gives routing the mirror it relies on. */
  lemma DrainedLinkDrainsMirror(start: Session, moves: seq<Move>, uplink: Socket, net: Routing.Net)
    requires Init(start) && Possible(start, moves, uplink)
    requires var s := Run(start, moves, uplink);
             && s.link == Up && s.broker.bridge.Some? && s.toBridge == []
             && net.broker == s.broker && net.bridge.mirror == s.mirror
    ensures Routing.MirrorDrained(net)
  {
    RunKeepsInv(start, moves, uplink);
    var s := Run(start, moves, uplink);
    forall c ensures c in s.mirror <==> c in s.broker.subs {
      assert Get(Follow(s.mirror, []), c) == Holds(s.broker.subs.Keys, c);
    }
  }

  // ----- The main transport's silent clear ---------------------------------------------------------

  /** Main clearing its subscriptions without a word does no harm exactly when there are none. */
  lemma SilentClear(s: Session, uplink: Socket)
    requires Inv(s, uplink) && s.link == Up && s.socketUp
    ensures BridgeMirrored(s.(main := {})) <==> s.main == {}
  {
    if s.main != {} {
      var c :| c in s.main;
      assert Get(Settle(Attach(s.broker), s.toBroker).mirror, c) == Sources(s, c);
    }
  }

  /**
   When its last connected client leaves, the main transport withdraws what that client
   held, with notifications, and clears the rest without. The agreement survives exactly
   when no other client held anything; `t` is the transport's index.
   */
  lemma LastLeaveOfMain<T>(s: Session, t: Index<T>, key: Key, notes: seq<Note>, uplink: Socket)
    requires Inv(s, uplink) && s.link == Up && s.socketUp
    requires WellFormed(t) && t.Keys == s.main && Replay(t.Keys, notes) == Some(Remove(t, key).Keys)
    ensures var withdraw := MainChange(Remove(t, key).Keys, notes);
            && Enabled(s, withdraw, uplink)
            && (BridgeMirrored(Next(s, withdraw, uplink).(main := {}))
                <==> forall c, k :: At(t, c, k).Some? ==> k == key)
  {
    var withdraw := MainChange(Remove(t, key).Keys, notes);
    NextKeepsInv(s, withdraw, uplink);
    SilentClear(Next(s, withdraw, uplink), uplink);
    RemoveAt(t, key);
    if c :| c in Remove(t, key) {
      var k :| k in Remove(t, key)[c];
      assert At(Remove(t, key), c, k).Some?;
      assert At(t, c, k).Some? && k != key;
    }
    if c, k :| At(t, c, k).Some? && k != key {
      assert At(Remove(t, key), c, k).Some?;
    }
  }

  /** Main subscribes to a channel and the bridge connects. */
  lemma MainSubscribedSession(c: Channel, uplink: Socket)
    ensures var start := Session(EMPTY, [], {}, {}, false, map[], [], Down);
            var subscribe, connect := MainChange({c}, [Added(c)]), Connect([c]);
            var subscribed := start.(main := {c});
            var session := Session(EMPTY, [], {}, {c}, true, map[], [BridgeConnect([c])], Up);
            && Init(start)
            && Enabled(start, subscribe, uplink) && Next(start, subscribe, uplink) == subscribed
            && Enabled(subscribed, connect, uplink) && Next(subscribed, connect, uplink) == session
            && Inv(session, uplink)
  {
    var start := Session(EMPTY, [], {}, {}, false, map[], [], Down);
    HearOne({}, [], Added(c));
    assert [] + [Added(c)] == [Added(c)] && {} + {c} == {c};
    assert Replay({}, [Added(c)]) == Some({c});
    NextKeepsInv(start, MainChange({c}, [Added(c)]), uplink);
    NextKeepsInv(start.(main := {c}), Connect([c]), uplink);
  }

  /**
   In that session the channel is held by a client that never connected. The connected one
   leaves: main clears a channel that the broker goes on counting.
   */
  lemma SilentClearIsMissed(first: Key, second: Key, uplink: Socket)
    requires first != second
    ensures var session := Session(EMPTY, [], {}, {"c"}, true, map[], [BridgeConnect(["c"])], Up);
            var leave := MainChange(Remove(map["c" := map[second := Conn(2, 1)]], first).Keys, []);
            && Enabled(session, leave, uplink)
            && !BridgeMirrored(Next(session, leave, uplink).(main := {}))
  {
    var t := map["c" := map[second := Conn(2, 1)]];
    MainSubscribedSession("c", uplink);
    assert second in t["c"] && At(t, "c", second).Some? && t.Keys == {"c"};
    RemoveAt(t, first);
    assert At(Remove(t, first), "c", second).Some?;
    assert Remove(t, first).Keys == t.Keys;
    LastLeaveOfMain(Session(EMPTY, [], {}, {"c"}, true, map[], [BridgeConnect(["c"])], Up), t, first, [], uplink);
  }
}
