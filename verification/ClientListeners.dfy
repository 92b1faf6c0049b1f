/**
 A client keeps its listeners in an event emitter and a reference per listener in the
 shared transport; the two books are compared here.
 */
module ClientListeners {
  import opened Common
  import opened ChannelIndex
  import RequestLedger
  import opened TransportMulti

  type Client = RequestLedger.Client

  type Listener = nat

  /** The registered listeners of every event, in order. */
  type Emitter = map<Channel, seq<Listener>>

  function Heard(e: Emitter, c: Channel): seq<Listener> {
    if c in e then e[c] else []
  }

  ghost predicate Lean(e: Emitter) {
    forall c | c in e :: e[c] != []
  }

  function On(e: Emitter, c: Channel, l: Listener): Emitter {
    e[c := Heard(e, c) + [l]]
  }

  /** Removes the most recently added instance of the listener. */
  function RemoveLast(s: seq<Listener>, l: Listener): (r: seq<Listener>)
    ensures |r| == if l in s then |s| - 1 else |s|
  {
    if s == [] then []
    else if s[|s| - 1] == l then s[..|s| - 1]
    else
      assert s == s[..|s| - 1] + [s[|s| - 1]];
      RemoveLast(s[..|s| - 1], l) + [s[|s| - 1]]
  }

  /** Exactly the most recent instance goes; the others keep their order. */
  lemma {:induction false} RemoveLastAt(s: seq<Listener>, l: Listener, at: nat)
    requires at < |s| && s[at] == l && forall j | at < j < |s| :: s[j] != l
    ensures RemoveLast(s, l) == s[..at] + s[at + 1..]
  {
    if at < |s| - 1 {
      var init, last := s[..|s| - 1], s[|s| - 1];
      RemoveLastAt(init, l, at);
      assert s[..at] + s[at + 1..] == init[..at] + init[at + 1..] + [last];
    }
  }

  lemma {:induction false} RemoveLastAbsent(s: seq<Listener>, l: Listener)
    requires l !in s
    ensures RemoveLast(s, l) == s
  {
    if s != [] {
      assert s == s[..|s| - 1] + [s[|s| - 1]];
      RemoveLastAbsent(s[..|s| - 1], l);
    }
  }

  function Off(e: Emitter, c: Channel, l: Listener): Emitter {
    var left := RemoveLast(Heard(e, c), l);
    if left == [] then e - {c} else e[c := left]
  }

  /** Removing a listener right after it was added gives back the same emitter, order included. */
  lemma OffUndoesOn(e: Emitter, c: Channel, l: Listener)
    requires Lean(e)
    ensures Off(On(e, c, l), c, l) == e
  {
    var heard := Heard(e, c);
    RemoveLastAt(heard + [l], l, |heard|);
    assert Heard(On(e, c, l), c) == heard + [l];
    assert RemoveLast(heard + [l], l) == heard;
    if heard == [] {
      assert c !in e;
    }
  }

  /** `clears` tells whether the emitter takes an explicit undefined for all of its events. */
  function Cleared(e: Emitter, which: Option<Channel>, clears: bool): Emitter {
    if which.Some? then e - {which.value} else if clears then map[] else e - {"undefined"}
  }

  /** One client (`owner`, with peer id `key`) of a live transport. */
  datatype Side = Side(emitter: Emitter, subs: Index<Client>)

  datatype Op =
    | AddListener(channel: Channel, listener: Listener)
    | RemoveListener(channel: Channel, listener: Listener)
    | RemoveAllListeners(which: Option<Channel>)

  function Step(s: Side, op: Op, owner: Client, key: Key, clears: bool): Side {
    match op
    case AddListener(c, l) => Side(On(s.emitter, c, l), AddRef(s.subs, c, key, owner, 1))
    case RemoveListener(c, l) =>
      Side(Off(s.emitter, c, l), IpcBusTransportMulti.Released(s.subs, Some(key), Some(c), false))
    case RemoveAllListeners(which) =>
      Side(Cleared(s.emitter, which, clears),
           IpcBusTransportMulti.Released(s.subs, Some(key), which, true))
  }

  /** One reference in the transport for every listener in the emitter. */
  ghost predicate InStep(s: Side, key: Key) {
    forall c :: Count(s.subs, c, key) == |Heard(s.emitter, c)|
  }

  /**
   What the operation needs to keep the books in step: a removed listener is registered,
   the empty channel name, which the transport takes for all channels, is used only when
   nothing else is listened to, and an emitter that clears nothing has nothing to clear.
   */
  predicate Safe(s: Side, op: Op, clears: bool) {
    match op
    case AddListener(_, _) => true
    case RemoveListener(c, l) =>
      if c == "" then Off(s.emitter, c, l).Keys == {} else l in Heard(s.emitter, c) || c !in s.emitter
    case RemoveAllListeners(which) =>
      if which == None then clears || s.emitter.Keys <= {"undefined"}
      else which.value != "" || s.emitter.Keys <= {""}
  }

  lemma CountsVanish(s: Side, key: Key)
    requires Lean(s.emitter) && forall c :: Count(s.subs, c, key) == 0
    ensures InStep(s, key) <==> s.emitter.Keys == {}
  {
    if s.emitter.Keys != {} {
      var c :| c in s.emitter;
      assert Count(s.subs, c, key) == 0 && |Heard(s.emitter, c)| > 0;
    }
  }

  lemma RemoveZeroes(t: Index<Client>, key: Key)
    requires WellFormed(t)
    ensures forall c :: Count(Remove(t, key), c, key) == 0
  {
    RemoveAt(t, key);
    forall c ensures Count(Remove(t, key), c, key) == 0 {
      assert At(Remove(t, key), c, key) == None;
    }
  }

  /** Reads the count of (c, key) off the view. */
  lemma CountAt(t: Index<Client>, c: Channel, key: Key)
    ensures Count(t, c, key) == if At(t, c, key).Some? then At(t, c, key).value.refCount else 0
  {
  }

  lemma AddStaysInStep(s: Side, c: Channel, l: Listener, owner: Client, key: Key, clears: bool)
    requires WellFormed(s.subs) && Lean(s.emitter) && InStep(s, key)
    ensures var after := Step(s, AddListener(c, l), owner, key, clears);
            WellFormed(after.subs) && Lean(after.emitter) && InStep(after, key)
  {
    AddRefAt(s.subs, c, key, owner, 1);
    var after := Step(s, AddListener(c, l), owner, key, clears);
    forall c' ensures Count(after.subs, c', key) == |Heard(after.emitter, c')| {
      CountAt(s.subs, c', key);
      CountAt(after.subs, c', key);
      assert Count(s.subs, c', key) == |Heard(s.emitter, c')|;
      assert At(s.subs, c, key).Some? ==> At(s.subs, c, key).value.refCount >= 1;
    }
  }

  lemma RemoveInStep(s: Side, c: Channel, l: Listener, owner: Client, key: Key, clears: bool)
    requires WellFormed(s.subs) && Lean(s.emitter) && InStep(s, key)
    ensures var after := Step(s, RemoveListener(c, l), owner, key, clears);
            && WellFormed(after.subs) && Lean(after.emitter)
            && (InStep(after, key) <==> Safe(s, RemoveListener(c, l), clears))
  {
    var after := Step(s, RemoveListener(c, l), owner, key, clears);
    if c == "" {
      RemoveAt(s.subs, key);
      RemoveZeroes(s.subs, key);
      CountsVanish(after, key);
    } else {
      ReleaseAt(s.subs, c, key);
      assert Count(s.subs, c, key) == |Heard(s.emitter, c)|;
      CountAt(s.subs, c, key);
      CountAt(after.subs, c, key);
      forall c' | c' != c ensures Count(after.subs, c', key) == |Heard(after.emitter, c')| {
        assert Count(s.subs, c', key) == |Heard(s.emitter, c')|;
        CountAt(s.subs, c', key);
        CountAt(after.subs, c', key);
      }
    }
  }

  lemma RemoveAllInStep(s: Side, which: Option<Channel>, owner: Client, key: Key, clears: bool)
    requires WellFormed(s.subs) && Lean(s.emitter) && InStep(s, key)
    ensures var after := Step(s, RemoveAllListeners(which), owner, key, clears);
            && WellFormed(after.subs) && Lean(after.emitter)
            && (InStep(after, key) <==> Safe(s, RemoveAllListeners(which), clears))
  {
    var after := Step(s, RemoveAllListeners(which), owner, key, clears);
    if which == None || which.value == "" {
      RemoveAt(s.subs, key);
      RemoveZeroes(s.subs, key);
      CountsVanish(after, key);
      assert s.emitter.Keys - {""} == {} <==> s.emitter.Keys <= {""};
      assert s.emitter.Keys - {"undefined"} == {} <==> s.emitter.Keys <= {"undefined"};
    } else {
      var c := which.value;
      ReleaseAllAt(s.subs, c, key);
      forall c' ensures Count(after.subs, c', key) == |Heard(after.emitter, c')| {
        assert Count(s.subs, c', key) == |Heard(s.emitter, c')|;
        CountAt(s.subs, c', key);
        CountAt(after.subs, c', key);
      }
    }
  }

  /** An operation keeps the books in step exactly when it is safe. */
  lemma StepInStep(s: Side, op: Op, owner: Client, key: Key, clears: bool)
    requires WellFormed(s.subs) && Lean(s.emitter) && InStep(s, key)
    ensures var after := Step(s, op, owner, key, clears);
            && WellFormed(after.subs) && Lean(after.emitter)
            && (InStep(after, key) <==> Safe(s, op, clears))
  {
    match op
    case AddListener(c, l) => AddStaysInStep(s, c, l, owner, key, clears);
    case RemoveListener(c, l) => RemoveInStep(s, c, l, owner, key, clears);
    case RemoveAllListeners(which) => RemoveAllInStep(s, which, owner, key, clears);
  }

  /** Removing a listener of the empty channel drops the references of every other channel. */
  lemma EmptyNameDropsEverything(owner: Client, key: Key, clears: bool)
    ensures var s := Side(map["a" := [1], "" := [2]], map["a" := map[key := Conn(owner, 1)], "" := map[key := Conn(owner, 1)]]);
            var after := Step(s, RemoveListener("", 2), owner, key, clears);
            && InStep(s, key) && Heard(after.emitter, "a") == [1] && Count(after.subs, "a", key) == 0
  {
    var s := Side(map["a" := [1], "" := [2]], map["a" := map[key := Conn(owner, 1)], "" := map[key := Conn(owner, 1)]]);
    assert key in s.subs["a"] && key in s.subs[""];
    RemoveZeroes(s.subs, key);
  }

  /** Removing a listener that was never added takes the reference of the one that was. */
  lemma StrangerTakesReference(owner: Client, key: Key, clears: bool)
    ensures var s := Side(map["a" := [1]], map["a" := map[key := Conn(owner, 1)]]);
            var after := Step(s, RemoveListener("a", 2), owner, key, clears);
            && InStep(s, key) && Heard(after.emitter, "a") == [1] && Count(after.subs, "a", key) == 0
  {
    var left := RemoveLast([1], 2);
    assert left == RemoveLast([1][..0], 2) + [1] == [1];
  }

  predicate AllSafe(s: Side, ops: seq<Op>, owner: Client, key: Key, clears: bool)
    decreases |ops|
  {
    ops == [] || (Safe(s, ops[0], clears) && AllSafe(Step(s, ops[0], owner, key, clears), ops[1..], owner, key, clears))
  }

  function Run(s: Side, ops: seq<Op>, owner: Client, key: Key, clears: bool): Side
    decreases |ops|
  {
    if ops == [] then s else Run(Step(s, ops[0], owner, key, clears), ops[1..], owner, key, clears)
  }

  /** Over any run of safe operations every listener has its reference. */
  lemma {:induction false} RunInStep(s: Side, ops: seq<Op>, owner: Client, key: Key, clears: bool)
    requires WellFormed(s.subs) && Lean(s.emitter) && InStep(s, key)
    requires AllSafe(s, ops, owner, key, clears)
    ensures InStep(Run(s, ops, owner, key, clears), key)
    decreases |ops|
  {
    if ops != [] {
      StepInStep(s, ops[0], owner, key, clears);
      RunInStep(Step(s, ops[0], owner, key, clears), ops[1..], owner, key, clears);
    }
  }

  /** What connecting announces: every listener registered so far. */
  ghost predicate Announced(before: Index<Client>, after: Index<Client>, e: Emitter, owner: Client, key: Key) {
    forall c, k ::
      At(after, c, k) == if k == key then Plus(At(before, c, k), owner, |Heard(e, c)|) else At(before, c, k)
  }

  /**
   Connecting brings the books in step exactly when the transport held nothing for the
   client yet, that is, when none of its listeners was added while the transport was live.
   */
  lemma ConnectInStep(before: Index<Client>, after: Index<Client>, e: Emitter, owner: Client, key: Key)
    requires WellFormed(before) && WellFormed(after) && Announced(before, after, e, owner, key)
    ensures InStep(Side(e, after), key) <==> forall c :: Count(before, c, key) == 0
  {
    forall c ensures Count(after, c, key) == Count(before, c, key) + |Heard(e, c)| {
      CountAt(before, c, key);
      CountAt(after, c, key);
      assert At(after, c, key) == Plus(At(before, c, key), owner, |Heard(e, c)|);
    }
    if InStep(Side(e, after), key) {
      forall c ensures Count(before, c, key) == 0 {
        assert Count(after, c, key) == |Heard(e, c)|;
      }
    }
  }
}

/** The client of a shared transport, updated in place. */
module BusClient {
  import opened Common
  import opened ChannelIndex
  import opened TransportMulti
  import opened ClientListeners

  class IpcBusClientImpl {
    const owner: Client
    var peer: Option<Key>
    var emitter: Emitter
    const transport: IpcBusTransportMulti
    const clears: bool

    ghost predicate Valid()
      reads this, transport, transport.subscriptions, transport.requests, transport.requests.issued.Values
    {
      transport.Valid() && Lean(emitter)
    }

    function Value(): Side
      reads this, transport, transport.subscriptions
    {
      Side(emitter, transport.subscriptions.channels)
    }

    constructor (owner: Client, key: Key, transport: IpcBusTransportMulti, clears: bool)
      requires transport.Valid()
      ensures Valid() && this.owner == owner && peer == Some(key) && emitter == map[]
      ensures this.transport == transport && this.clears == clears
    {
      this.owner, peer, emitter, this.transport, this.clears := owner, Some(key), map[], transport, clears;
    }

    /** The part of `connect` after the transport connected. */
    method OnConnected()
      requires Valid() && peer.Some? && transport.subscriptions.client
      modifies transport`posted, transport.subscriptions
      ensures Valid()
      ensures Announced(old(transport.subscriptions.channels), transport.subscriptions.channels, emitter, owner, peer.value)
    {
      ghost var before := transport.subscriptions.channels;
      var unvisited := emitter.Keys;
      while unvisited != {}
        invariant Valid() && transport.subscriptions.client && unvisited <= emitter.Keys
        invariant Announced(before, transport.subscriptions.channels, emitter - unvisited, owner, peer.value)
        decreases unvisited
      {
        var c :| c in unvisited;
        ghost var last := unvisited;
        AddRefAt(transport.subscriptions.channels, c, peer.value, owner, |emitter[c]|);
        unvisited := unvisited - {c};
        transport.AddChannel(owner, peer, c, |emitter[c]|);
        assert Heard(emitter - last, c) == [] && Heard(emitter - unvisited, c) == emitter[c];
        assert forall c' | c' != c :: Heard(emitter - last, c') == Heard(emitter - unvisited, c');
      }
      assert emitter - unvisited == emitter;
    }

    method AddListener(c: Channel, l: Listener)
      requires Valid()
      modifies this`emitter, transport`posted, transport.subscriptions
      ensures Valid()
      ensures peer.Some? && transport.subscriptions.client ==>
                Value() == Step(old(Value()), Op.AddListener(c, l), owner, peer.value, clears)
      ensures !(peer.Some? && transport.subscriptions.client) ==>
                Value() == old(Value()).(emitter := On(old(emitter), c, l))
    {
      transport.AddChannel(owner, peer, c, 1);
      emitter := emitter[c := Heard(emitter, c) + [l]];
    }

    method RemoveListener(c: Channel, l: Listener)
      requires Valid()
      modifies this`emitter, transport`posted, transport.subscriptions
      ensures Valid()
      ensures peer.Some? && transport.subscriptions.client ==>
                Value() == Step(old(Value()), Op.RemoveListener(c, l), owner, peer.value, clears)
      ensures !(peer.Some? && transport.subscriptions.client) ==>
                Value() == old(Value()).(emitter := Off(old(emitter), c, l))
    {
      ghost var _ := transport.RemoveChannel(peer, Some(c), false);
      var left := RemoveLast(Heard(emitter, c), l);
      emitter := if left == [] then emitter - {c} else emitter[c := left];
    }

    method RemoveAllListeners(which: Option<Channel>)
      requires Valid()
      modifies this`emitter, transport`posted, transport.subscriptions
      ensures Valid()
      ensures peer.Some? && transport.subscriptions.client ==>
                Value() == Step(old(Value()), Op.RemoveAllListeners(which), owner, peer.value, clears)
      ensures !(peer.Some? && transport.subscriptions.client) ==>
                Value() == old(Value()).(emitter := Cleared(old(emitter), which, clears))
    {
      ghost var _ := transport.RemoveChannel(peer, which, true);
      if which.Some? {
        emitter := emitter - {which.value};
      } else if clears {
        emitter := map[];
      } else {
        emitter := emitter - {"undefined"};
      }
    }
  }
}
