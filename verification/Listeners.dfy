/** Adding and removing the listeners of several endpoints at once; the broker and the renderer bridge share it. */
module Listeners {
  import opened Common
  import opened ChannelIndex
  import opened ChannelConnectionMaps

  /** Every listed key that is a registered endpoint gets one reference more. */
  function Subscribe<T>(endpoints: map<Key, T>, subs: Index<T>, c: Channel, ks: seq<Key>): Index<T> {
    if ks == [] then subs
    else
      var before := Subscribe(endpoints, subs, c, ks[..|ks| - 1]);
      var k := ks[|ks| - 1];
      if k in endpoints then AddRef(before, c, k, endpoints[k], 1) else before
  }

  /** One reference of the channel, all of the channel, or everything of the key. */
  datatype Removal = ByOne | OfChannel | OfPeer

  function TakeOne<T>(subs: Index<T>, c: Channel, k: Key, how: Removal): Index<T> {
    match how
    case ByOne => Release(subs, c, k)
    case OfChannel => ReleaseAll(subs, c, k)
    case OfPeer => Remove(subs, k)
  }

  function Unsubscribe<T>(subs: Index<T>, c: Channel, ks: seq<Key>, how: Removal): Index<T> {
    if ks == [] then subs
    else TakeOne(Unsubscribe(subs, c, ks[..|ks| - 1], how), c, ks[|ks| - 1], how)
  }

  function RemoveKeys<T>(t: Index<T>, ks: set<Key>): Index<T> {
    map c | c in t && t[c].Keys - ks != {} :: t[c] - ks
  }

  /** Removes the key from the subscriptions, one way or another. */
  method RemoveOne<T>(subscriptions: ChannelConnectionMap<T>, c: Channel, k: Key, how: Removal)
    requires subscriptions.Valid()
    modifies subscriptions
    ensures subscriptions.Valid() && subscriptions.channels == TakeOne(old(subscriptions.channels), c, k, how)
    ensures subscriptions.client == old(subscriptions.client) && subscriptions.base == old(subscriptions.base)
    ensures !subscriptions.client ==> subscriptions.notified == []
  {
    match how {
      case ByOne => var _ := subscriptions.ReleaseChannel(c, k, false);
      case OfChannel => var _ := subscriptions.ReleaseChannel(c, k, true);
      case OfPeer => subscriptions.Remove(k);
    }
  }

  lemma {:induction false} SubscribeAt<T>(endpoints: map<Key, T>, subs: Index<T>, c: Channel, ks: seq<Key>)
    requires WellFormed(subs)
    ensures WellFormed(Subscribe(endpoints, subs, c, ks))
    ensures forall c', k ::
              At(Subscribe(endpoints, subs, c, ks), c', k)
              == if c' == c && k in endpoints then Plus(At(subs, c, k), endpoints[k], multiset(ks)[k])
                 else At(subs, c', k)
  {
    if ks != [] {
      var init, k := ks[..|ks| - 1], ks[|ks| - 1];
      SubscribeAt(endpoints, subs, c, init);
      MultisetSnoc(ks);
      if k in endpoints {
        AddRefAt(Subscribe(endpoints, subs, c, init), c, k, endpoints[k], 1);
      }
    }
  }

  /** What is left of a connection after its key was listed `n` times; `here` says that the channel is the named one. */
  function Left<T>(o: Option<Conn<T>>, how: Removal, here: bool, n: nat): Option<Conn<T>> {
    match how
    case ByOne => if here then Minus(o, n) else o
    case OfChannel => if here && n > 0 then None else o
    case OfPeer => if n > 0 then None else o
  }

  lemma LeftNone<T>(subs: Index<T>, how: Removal, here: bool, c: Channel, k: Key)
    requires WellFormed(subs)
    ensures Left(At(subs, c, k), how, here, 0) == At(subs, c, k)
  {
  }

  lemma TakeOneAt<T>(subs: Index<T>, c: Channel, k: Key, how: Removal, c': Channel, k': Key)
    requires WellFormed(subs)
    ensures WellFormed(TakeOne(subs, c, k, how))
    ensures At(TakeOne(subs, c, k, how), c', k')
            == if k' == k then Left(At(subs, c', k'), how, c' == c, 1) else At(subs, c', k')
  {
    match how
    case ByOne => ReleaseAt(subs, c, k);
    case OfChannel => ReleaseAllAt(subs, c, k);
    case OfPeer => RemoveAt(subs, k);
  }

  lemma {:induction false} UnsubscribeOneAt<T>(
    subs: Index<T>, c: Channel, ks: seq<Key>, how: Removal, c': Channel, k': Key)
    requires WellFormed(subs)
    ensures WellFormed(Unsubscribe(subs, c, ks, how))
    ensures At(Unsubscribe(subs, c, ks, how), c', k') == Left(At(subs, c', k'), how, c' == c, multiset(ks)[k'])
  {
    if ks != [] {
      var init, last := ks[..|ks| - 1], ks[|ks| - 1];
      UnsubscribeOneAt(subs, c, init, how, c', k');
      TakeOneAt(Unsubscribe(subs, c, init, how), c, last, how, c', k');
      MultisetSnoc(ks);
    }
  }

  lemma UnsubscribeAt<T>(subs: Index<T>, c: Channel, ks: seq<Key>, how: Removal)
    requires WellFormed(subs)
    ensures WellFormed(Unsubscribe(subs, c, ks, how))
    ensures forall c', k ::
              At(Unsubscribe(subs, c, ks, how), c', k) == Left(At(subs, c', k), how, c' == c, multiset(ks)[k])
  {
    UnsubscribeOneAt(subs, c, ks, how, c, "");
    forall c', k
      ensures At(Unsubscribe(subs, c, ks, how), c', k) == Left(At(subs, c', k), how, c' == c, multiset(ks)[k])
    {
      UnsubscribeOneAt(subs, c, ks, how, c', k);
    }
  }

  lemma RemoveKeysAt<T>(t: Index<T>, ks: set<Key>)
    requires WellFormed(t)
    ensures WellFormed(RemoveKeys(t, ks))
    ensures forall c, k :: At(RemoveKeys(t, ks), c, k) == if k in ks then None else At(t, c, k)
  {
    var u := RemoveKeys(t, ks);
    forall c | c in u ensures u[c].Keys != {} && forall k | k in u[c] :: u[c][k].refCount >= 1 {
      assert u[c].Keys == t[c].Keys - ks;
    }
    forall c, k ensures At(u, c, k) == if k in ks then None else At(t, c, k) {
      if c in t && k in t[c] && k !in ks {
        assert k in t[c].Keys - ks;
      }
    }
  }
}
