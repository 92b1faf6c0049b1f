/** The reference-counted subscription map, updated in place. */
module ChannelConnectionMaps {
  import opened Common
  import opened ChannelIndex

  /**
   `channels` is the nested map. `notified` records, oldest first, the calls made to
   the client since it was installed; nothing is recorded without a client.
   */
  class ChannelConnectionMap<T> {
    var channels: Index<T>
    var client: bool
    var notified: seq<Note>
    // The channels the index held when the client was installed.
    ghost var base: set<Channel>

    /** A client that replays its notifications knows exactly the current channels. */
    ghost predicate Valid()
      reads this
    {
      && WellFormed(channels)
      && (client ==> Replay(base, notified) == Some(channels.Keys))
      && (!client ==> notified == [])
    }

    constructor ()
      ensures Valid() && channels == map[] && !client && notified == []
    {
      channels := map[];
      client := false;
      notified := [];
      base := {};
    }

    /** Installs the client; what it already knows is the current channel set. */
    method Install()
      requires Valid()
      modifies this
      ensures Valid() && client && notified == [] && base == channels.Keys
      ensures channels == old(channels)
    {
      client := true;
      notified := [];
      base := channels.Keys;
    }

    method Uninstall()
      requires Valid()
      modifies this
      ensures Valid() && !client && notified == [] && channels == old(channels)
    {
      client := false;
      notified := [];
    }

    predicate Empty()
      reads this
    {
      channels.Keys == {} && !client
    }

    /** Forgets the client first: the channels disappear without a notification. */
    method Clear()
      requires Valid()
      modifies this
      ensures Valid() && Empty() && channels == map[] && notified == []
    {
      client := false;
      notified := [];
      channels := map[];
    }

    method AddChannel(c: Channel, k: Key, d: T, n: nat)
      requires WellFormed(channels) && n >= 1 && c !in channels
      modifies this
      ensures channels == ChannelIndex.AddRef(old(channels), c, k, d, n)
      ensures notified == old(notified) + (if client then [Added(c)] else [])
      ensures client == old(client) && base == old(base)
    {
      channels := channels[c := map[k := Conn(d, n)]];
      if client {
        notified := notified + [Added(c)];
      }
    }

    /** Returns the number of connections of the channel. */
    method AddRef(c: Channel, k: Key, d: T, n: nat) returns (size: nat)
      requires Valid() && n >= 1
      modifies this
      ensures Valid()
      ensures channels == ChannelIndex.AddRef(old(channels), c, k, d, n)
      ensures notified == old(notified) + (if client && c !in old(channels) then [Added(c)] else [])
      ensures client == old(client) && base == old(base)
      ensures size == |channels[c]|
    {
      assert WellFormed(ChannelIndex.AddRef(channels, c, k, d, n)) by {
        AddRefAt(channels, c, k, d, n);
      }
      if c !in channels {
        if client {
          HearOne(base, notified, Added(c));
        }
        AddChannel(c, k, d, n);
        assert channels.Keys == old(channels.Keys) + {c};
      } else {
        var conns := channels[c];
        if k !in conns {
          conns := conns[k := Conn(d, n)];
        } else {
          conns := conns[k := conns[k].(refCount := conns[k].refCount + n)];
        }
        channels := channels[c := conns];
        assert channels.Keys == old(channels.Keys);
      }
      size := |channels[c]|;
    }

    /** The key of the channel goes; with the last key the channel goes and is announced. */
    method DropKey(c: Channel, k: Key)
      requires Valid() && c in channels && k in channels[c]
      modifies this
      ensures Valid()
      ensures channels == Drop(old(channels), c, k)
      ensures notified == old(notified) + (if client && c !in channels then [Removed(c)] else [])
      ensures client == old(client) && base == old(base)
    {
      DropAt(channels, c, k);
      var conns := channels[c] - {k};
      if conns.Keys == {} {
        if client {
          HearOne(base, notified, Removed(c));
        }
        channels := channels - {c};
        if client {
          notified := notified + [Removed(c)];
        }
      } else {
        channels := channels[c := conns];
        assert channels.Keys == old(channels.Keys);
      }
    }

    /** `release` and `releaseAll`: one reference, or all of them. */
    method ReleaseChannel(c: Channel, k: Key, all: bool) returns (size: nat)
      requires Valid()
      modifies this
      ensures Valid()
      ensures channels == if all then ChannelIndex.ReleaseAll(old(channels), c, k)
                          else ChannelIndex.Release(old(channels), c, k)
      ensures notified == old(notified)
                          + (if client && c in old(channels) && c !in channels then [Removed(c)] else [])
      ensures client == old(client) && base == old(base)
      ensures size == if At(old(channels), c, k) == None || c !in channels then 0 else |channels[c]|
    {
      if c !in channels {
        return 0;
      }
      var conns := channels[c];
      if k !in conns {
        return 0;
      }
      ReleaseAt(channels, c, k);
      var refCount := if all then 0 else conns[k].refCount - 1;
      if refCount == 0 {
        DropKey(c, k);
      } else {
        channels := channels[c := conns[k := conns[k].(refCount := refCount)]];
        assert channels.Keys == old(channels.Keys);
      }
      size := if c in channels then |channels[c]| else 0;
    }

    method AddRefs(cs: seq<Channel>, k: Key, d: T)
      requires Valid()
      modifies this
      ensures Valid() && channels == ChannelIndex.AddRefs(old(channels), cs, k, d)
      ensures client == old(client) && base == old(base) && old(notified) <= notified
    {
      for i := 0 to |cs|
        invariant Valid() && channels == ChannelIndex.AddRefs(old(channels), cs[..i], k, d)
        invariant client == old(client) && base == old(base) && old(notified) <= notified
      {
        assert cs[..i + 1][..i] == cs[..i];
        var _ := AddRef(cs[i], k, d, 1);
      }
      assert cs[..|cs|] == cs;
    }

    method Releases(cs: seq<Channel>, k: Key)
      requires Valid()
      modifies this
      ensures Valid() && channels == ChannelIndex.Releases(old(channels), cs, k)
      ensures client == old(client) && base == old(base) && old(notified) <= notified
    {
      for i := 0 to |cs|
        invariant Valid() && channels == ChannelIndex.Releases(old(channels), cs[..i], k)
        invariant client == old(client) && base == old(base) && old(notified) <= notified
      {
        assert cs[..i + 1][..i] == cs[..i];
        var _ := ReleaseChannel(cs[i], k, false);
      }
      assert cs[..|cs|] == cs;
    }

    /**
     `remove(key)`: visits every channel, in any order, and deletes from the map while
     it is being visited.
     */
    method Remove(k: Key)
      requires Valid()
      modifies this
      ensures Valid() && channels == ChannelIndex.Remove(old(channels), k)
      ensures client == old(client) && base == old(base) && old(notified) <= notified
    {
      var unvisited := channels.Keys;
      while unvisited != {}
        invariant Valid() && unvisited <= old(channels).Keys
        invariant client == old(client) && base == old(base) && old(notified) <= notified
        invariant forall c | c in unvisited :: c in channels && channels[c] == old(channels)[c]
        invariant forall c, k' | c !in unvisited ::
                    At(channels, c, k') == if k' == k then None else At(old(channels), c, k')
        decreases unvisited
      {
        var c :| c in unvisited;
        unvisited := unvisited - {c};
        label visit:
        if k in channels[c] {
          DropAt(channels, c, k);
          DropKey(c, k);
          forall c' | c' in unvisited ensures c' in channels && channels[c'] == old@visit(channels)[c'] {
          }
        }
        forall c', k' | c' !in unvisited
          ensures At(channels, c', k') == if k' == k then None else At(old(channels), c', k')
        {
          if c' == c {
            assert At(old@visit(channels), c, k') == At(old(channels), c, k');
          }
        }
      }
      RemoveAt(old(channels), k);
      Extensional(channels, ChannelIndex.Remove(old(channels), k));
    }

    /** One connection for every key in use; the data of any of its channels. */
    method GetConns() returns (conns: map<Key, T>)
      requires Valid()
      ensures forall k :: k in conns <==> exists c :: At(channels, c, k).Some?
      ensures forall k | k in conns ::
                exists c :: At(channels, c, k).Some? && At(channels, c, k).value.data == conns[k]
    {
      conns := map[];
      var unvisited := channels.Keys;
      while unvisited != {}
        invariant unvisited <= channels.Keys
        invariant forall k :: k in conns <==> exists c :: c !in unvisited && At(channels, c, k).Some?
        invariant forall k | k in conns ::
                    exists c :: At(channels, c, k).Some? && At(channels, c, k).value.data == conns[k]
        decreases unvisited
      {
        var c :| c in unvisited;
        ghost var before, seen := conns, unvisited;
        unvisited := unvisited - {c};
        conns := conns + map k | k in channels[c] :: channels[c][k].data;
        forall k ensures k in conns <==> exists c' :: c' !in unvisited && At(channels, c', k).Some? {
          if k in channels[c] {
            assert At(channels, c, k).Some?;
          }
          if exists c' :: c' !in unvisited && At(channels, c', k).Some? {
            var c' :| c' !in unvisited && At(channels, c', k).Some?;
            assert c' == c || c' !in seen;
          }
          if k in before {
            var c' :| c' !in seen && At(channels, c', k).Some?;
            assert c' !in unvisited;
          }
        }
        forall k | k in conns
          ensures exists c' :: At(channels, c', k).Some? && At(channels, c', k).value.data == conns[k]
        {
          if k in channels[c] {
            assert At(channels, c, k).Some?;
          }
        }
      }
    }
  }
}
