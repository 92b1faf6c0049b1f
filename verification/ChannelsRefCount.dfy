/** The remote mirror of channels: a plain count per channel. */
module ChannelCounts {
  import opened Common
  import opened ChannelIndex

  type Counts = map<Channel, nat>

  ghost predicate Positive(m: Counts) {
    forall c | c in m :: m[c] >= 1
  }

  function Get(m: Counts, c: Channel): nat {
    if c in m then m[c] else 0
  }

  function Add(m: Counts, c: Channel): Counts {
    m[c := Get(m, c) + 1]
  }

  function Take(m: Counts, c: Channel): Counts {
    if c !in m then m else if m[c] <= 1 then m - {c} else m[c := m[c] - 1]
  }

  function AddAll(m: Counts, cs: seq<Channel>): Counts {
    if cs == [] then m else Add(AddAll(m, cs[..|cs| - 1]), cs[|cs| - 1])
  }

  function TakeAll(m: Counts, cs: seq<Channel>): Counts {
    if cs == [] then m else Take(TakeAll(m, cs[..|cs| - 1]), cs[|cs| - 1])
  }

  /** Follows a stream of notifications: one reference more, one reference less. */
  function Follow(m: Counts, notes: seq<Note>): Counts {
    if notes == [] then m
    else
      var before := Follow(m, notes[..|notes| - 1]);
      match notes[|notes| - 1]
      case Added(c) => Add(before, c)
      case Removed(c) => Take(before, c)
  }

  lemma {:induction false} AddAllGet(m: Counts, cs: seq<Channel>)
    requires Positive(m)
    ensures Positive(AddAll(m, cs))
    ensures forall c :: Get(AddAll(m, cs), c) == Get(m, c) + multiset(cs)[c]
  {
    if cs != [] {
      AddAllGet(m, cs[..|cs| - 1]);
      MultisetSnoc(cs);
    }
  }

  lemma {:induction false} TakeAllGet(m: Counts, cs: seq<Channel>)
    requires Positive(m)
    ensures Positive(TakeAll(m, cs))
    ensures forall c ::
              Get(TakeAll(m, cs), c) == if Get(m, c) <= multiset(cs)[c] then 0 else Get(m, c) - multiset(cs)[c]
  {
    if cs != [] {
      TakeAllGet(m, cs[..|cs| - 1]);
      MultisetSnoc(cs);
    }
  }

  /** Releasing the same channels, in any order, restores the counts. */
  lemma TakeAllUndoesAddAll(m: Counts, cs: seq<Channel>, ds: seq<Channel>)
    requires Positive(m) && multiset(cs) == multiset(ds)
    ensures TakeAll(AddAll(m, cs), ds) == m
  {
    AddAllGet(m, cs);
    TakeAllGet(AddAll(m, cs), ds);
    var r := TakeAll(AddAll(m, cs), ds);
    forall c ensures (c in r <==> c in m) && (c in m ==> r[c] == m[c]) {
      assert Get(r, c) == Get(m, c);
    }
  }

  function Holds(known: set<Channel>, c: Channel): nat {
    if c in known then 1 else 0
  }

  /**
   A mirror that counts every channel its source holds keeps doing so while it follows
   the source's notifications; whatever else it counts is left alone.
   */
  lemma {:induction false} FollowTracksSource(m: Counts, known: set<Channel>, notes: seq<Note>)
    requires Positive(m) && known <= m.Keys
    requires Replay(known, notes).Some?
    ensures var after := Replay(known, notes).value;
            && Positive(Follow(m, notes)) && after <= Follow(m, notes).Keys
            && forall c :: Get(Follow(m, notes), c) == Get(m, c) - Holds(known, c) + Holds(after, c)
  {
    if notes != [] {
      FollowTracksSource(m, known, notes[..|notes| - 1]);
    }
  }

  lemma {:induction false} FollowAppend(m: Counts, a: seq<Note>, b: seq<Note>)
    ensures Follow(m, a + b) == Follow(Follow(m, a), b)
  {
    if b == [] {
      assert a + b == a;
    } else {
      FollowAppend(m, a, b[..|b| - 1]);
      assert (a + b)[..|a + b| - 1] == a + b[..|b| - 1];
    }
  }

  class ChannelsRefCount {
    var counts: Counts

    ghost predicate Valid()
      reads this
    {
      Positive(counts)
    }

    constructor ()
      ensures Valid() && counts == map[]
    {
      counts := map[];
    }

    method AddRef(c: Channel) returns (refCount: nat)
      requires Valid()
      modifies this
      ensures Valid() && counts == Add(old(counts), c) && refCount == Get(counts, c)
    {
      if c !in counts {
        counts := counts[c := 1];
      } else {
        counts := counts[c := counts[c] + 1];
      }
      refCount := counts[c];
    }

    method AddRefs(cs: seq<Channel>)
      requires Valid()
      modifies this
      ensures Valid() && counts == AddAll(old(counts), cs)
      ensures forall c :: Get(counts, c) == Get(old(counts), c) + multiset(cs)[c]
    {
      for i := 0 to |cs|
        invariant Valid() && counts == AddAll(old(counts), cs[..i])
      {
        assert cs[..i + 1][..i] == cs[..i];
        var _ := AddRef(cs[i]);
      }
      assert cs[..|cs|] == cs;
      AddAllGet(old(counts), cs);
    }

    method Release(c: Channel) returns (refCount: nat)
      requires Valid()
      modifies this
      ensures Valid() && counts == Take(old(counts), c) && refCount == Get(counts, c)
    {
      if c !in counts {
        return 0;
      }
      refCount := counts[c] - 1;
      if refCount <= 0 {
        counts := counts - {c};
      } else {
        counts := counts[c := refCount];
      }
    }

    predicate Has(c: Channel)
      reads this
    {
      c in counts
    }

    method Clear()
      modifies this
      ensures Valid() && counts == map[]
    {
      counts := map[];
    }
  }
}
