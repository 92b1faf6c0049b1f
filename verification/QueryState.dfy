/**
 The query-state report of the broker, of a transport and of the renderer bridge: how
 often each channel is referenced, in all and per peer. They differ only in how the
 peer entry of a connection is named, which may send several keys to one entry.
 */
module QueryState {
  import opened Common
  import opened ChannelIndex

  /** A peer's entry: references per channel. */
  type Peers = map<Key, map<Channel, nat>>

  // ----- Sums ---------------------------------------------------------------------------

  ghost function Sum(m: map<Key, nat>): nat
    decreases |m|
  {
    if m == map[] then 0
    else
      var k :| k in m;
      m[k] + Sum(m - {k})
  }

  lemma {:induction false} SumSplit(m: map<Key, nat>, k: Key)
    requires k in m
    ensures Sum(m) == m[k] + Sum(m - {k})
    decreases |m|
  {
    var k' :| k' in m && Sum(m) == m[k'] + Sum(m - {k'});
    if k' != k {
      SumSplit(m - {k'}, k);
      SumSplit(m - {k}, k');
      assert m - {k} - {k'} == m - {k'} - {k};
    }
  }

  lemma SumUpdate(m: map<Key, nat>, k: Key, v: nat)
    ensures Sum(m[k := v]) == Sum(m - {k}) + v
    ensures k in m ==> Sum(m[k := v]) == Sum(m) - m[k] + v
    ensures k !in m ==> Sum(m[k := v]) == Sum(m) + v
  {
    SumSplit(m[k := v], k);
    assert m[k := v] - {k} == m - {k};
    if k in m {
      SumSplit(m, k);
    } else {
      assert m - {k} == m;
    }
  }

  // ----- The books ------------------------------------------------------------------------

  /** The references of the connections whose key is in `ks`. */
  ghost function Refs<T>(conns: Conns<T>, ks: set<Key>): map<Key, nat> {
    map k | k in conns && k in ks :: conns[k].refCount
  }

  /** The references of the connections that belong to the peer entry. */
  ghost function RefsOf<T>(conns: Conns<T>, ks: set<Key>, id: T -> Key, peer: Key): map<Key, nat> {
    map k | k in conns && k in ks && id(conns[k].data) == peer :: conns[k].refCount
  }

  function Entry(peers: Peers, peer: Key, c: Channel): nat {
    if peer in peers && c in peers[peer] then peers[peer][c] else 0
  }

  /** Every peer's entry for the channel. */
  ghost function Entries(peers: Peers, c: Channel): map<Key, nat> {
    map p | p in peers :: Entry(peers, p, c)
  }

  function Bump(peers: Peers, peer: Key, c: Channel, n: nat): Peers {
    var channels := if peer in peers then peers[peer] else map[];
    peers[peer := channels[c := n + if c in channels then channels[c] else 0]]
  }

  lemma BumpEntries(peers: Peers, peer: Key, c: Channel, n: nat)
    ensures forall p, c' ::
              Entry(Bump(peers, peer, c, n), p, c')
              == Entry(peers, p, c') + if p == peer && c' == c then n else 0
    ensures forall c' ::
              Sum(Entries(Bump(peers, peer, c, n), c')) == Sum(Entries(peers, c')) + if c' == c then n else 0
  {
    var bumped := Bump(peers, peer, c, n);
    forall c' ensures Sum(Entries(bumped, c')) == Sum(Entries(peers, c')) + if c' == c then n else 0 {
      var before := Entries(peers, c');
      assert Entries(bumped, c') == before[peer := Entry(bumped, peer, c')];
      SumUpdate(before, peer, Entry(bumped, peer, c'));
    }
  }

  lemma RefsGrow<T>(conns: Conns<T>, ks: set<Key>, id: T -> Key, k: Key)
    requires k in conns && k !in ks
    ensures Sum(Refs(conns, ks + {k})) == Sum(Refs(conns, ks)) + conns[k].refCount
    ensures forall p ::
              Sum(RefsOf(conns, ks + {k}, id, p))
              == Sum(RefsOf(conns, ks, id, p)) + if p == id(conns[k].data) then conns[k].refCount else 0
  {
    assert Refs(conns, ks + {k}) == Refs(conns, ks)[k := conns[k].refCount];
    SumUpdate(Refs(conns, ks), k, conns[k].refCount);
    forall p
      ensures Sum(RefsOf(conns, ks + {k}, id, p))
              == Sum(RefsOf(conns, ks, id, p)) + if p == id(conns[k].data) then conns[k].refCount else 0
    {
      if p == id(conns[k].data) {
        assert RefsOf(conns, ks + {k}, id, p) == RefsOf(conns, ks, id, p)[k := conns[k].refCount];
        SumUpdate(RefsOf(conns, ks, id, p), k, conns[k].refCount);
      } else {
        assert RefsOf(conns, ks + {k}, id, p) == RefsOf(conns, ks, id, p);
      }
    }
  }

  /** Books one channel: its total, and the share of each peer. */
  method CountChannel<T>(conns: Conns<T>, id: T -> Key, c: Channel, before: Peers) returns (total: nat, peers: Peers)
    ensures total == Sum(Refs(conns, conns.Keys))
    ensures forall p, c' ::
              Entry(peers, p, c')
              == Entry(before, p, c') + if c' == c then Sum(RefsOf(conns, conns.Keys, id, p)) else 0
    ensures forall c' :: Sum(Entries(peers, c')) == Sum(Entries(before, c')) + if c' == c then total else 0
  {
    total, peers := 0, before;
    var unvisited := conns.Keys;
    assert Refs(conns, conns.Keys - unvisited) == map[];
    forall p ensures RefsOf(conns, conns.Keys - unvisited, id, p) == map[] {
    }
    while unvisited != {}
      invariant unvisited <= conns.Keys
      invariant total == Sum(Refs(conns, conns.Keys - unvisited))
      invariant forall p, c' ::
                  Entry(peers, p, c')
                  == Entry(before, p, c')
                     + if c' == c then Sum(RefsOf(conns, conns.Keys - unvisited, id, p)) else 0
      invariant forall c' :: Sum(Entries(peers, c')) == Sum(Entries(before, c')) + if c' == c then total else 0
      decreases unvisited
    {
      var k :| k in unvisited;
      RefsGrow(conns, conns.Keys - unvisited, id, k);
      assert conns.Keys - (unvisited - {k}) == conns.Keys - unvisited + {k};
      unvisited := unvisited - {k};
      total := total + conns[k].refCount;
      BumpEntries(peers, id(conns[k].data), c, conns[k].refCount);
      peers := Bump(peers, id(conns[k].data), c, conns[k].refCount);
    }
    assert conns.Keys - unvisited == conns.Keys;
  }

  /** The books of the channels counted so far. */
  ghost predicate Shares<T(!new)>(t: Index<T>, id: T -> Key, done: set<Channel>, peers: Peers) {
    forall p, c :: Entry(peers, p, c) == if c in t && c in done then Sum(RefsOf(t[c], t[c].Keys, id, p)) else 0
  }

  ghost predicate Totals<T(!new)>(t: Index<T>, done: set<Channel>, channels: map<Channel, nat>, peers: Peers) {
    && channels.Keys == done <= t.Keys
    && (forall c | c in done :: channels[c] == Sum(Refs(t[c], t[c].Keys)))
    && (forall c :: Sum(Entries(peers, c)) == if c in done then channels[c] else 0)
  }

  lemma SharesStep<T(!new)>(t: Index<T>, id: T -> Key, done: set<Channel>, peers: Peers, c: Channel, counted: Peers)
    requires Shares(t, id, done, peers) && c in t && c !in done
    requires forall p, c' ::
               Entry(counted, p, c')
               == Entry(peers, p, c') + if c' == c then Sum(RefsOf(t[c], t[c].Keys, id, p)) else 0
    ensures Shares(t, id, done + {c}, counted)
  {
  }

  lemma TotalsStep<T(!new)>(
    t: Index<T>, done: set<Channel>, channels: map<Channel, nat>, peers: Peers, c: Channel, total: nat, counted: Peers)
    requires Totals(t, done, channels, peers) && c in t && c !in done
    requires total == Sum(Refs(t[c], t[c].Keys))
    requires forall c' :: Sum(Entries(counted, c')) == Sum(Entries(peers, c')) + if c' == c then total else 0
    ensures Totals(t, done + {c}, channels[c := total], counted)
  {
  }

  /**
   The books balance: the total of a channel is the sum of its reference counts, each
   peer's entry is the sum over the keys that belong to it, and the entries of all peers
   add up to the total.
   */
  method Report<T(!new)>(t: Index<T>, id: T -> Key) returns (channels: map<Channel, nat>, peers: Peers)
    ensures Totals(t, t.Keys, channels, peers)
    ensures Shares(t, id, t.Keys, peers)
  {
    channels, peers := map[], map[];
    var unvisited := t.Keys;
    forall c ensures Sum(Entries(peers, c)) == 0 {
      assert Entries(peers, c) == map[];
    }
    while unvisited != {}
      invariant unvisited <= t.Keys
      invariant Totals(t, t.Keys - unvisited, channels, peers)
      invariant Shares(t, id, t.Keys - unvisited, peers)
      decreases unvisited
    {
      var c :| c in unvisited;
      ghost var done := t.Keys - unvisited;
      assert t.Keys - (unvisited - {c}) == done + {c};
      unvisited := unvisited - {c};
      var total, counted := CountChannel(t[c], id, c, peers);
      SharesStep(t, id, done, peers, c, counted);
      TotalsStep(t, done, channels, peers, c, total, counted);
      channels, peers := channels[c := total], counted;
    }
    assert t.Keys - unvisited == t.Keys;
  }
}
