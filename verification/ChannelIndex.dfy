/**
 The subscription index as a value: channel -> key -> (data, reference count).
 `At` is the view every property is stated with: two well-formed indexes that
 agree on `At` are the same index.
 */
module ChannelIndex {
  import opened Common

  datatype Conn<+T> = Conn(data: T, refCount: nat)

  type Conns<T> = map<Key, Conn<T>>

  type Index<T> = map<Channel, Conns<T>>

  /** No channel without a connection, no connection without a reference. */
  ghost predicate WellFormed<T>(t: Index<T>) {
    forall c | c in t :: t[c].Keys != {} && forall k | k in t[c] :: t[c][k].refCount >= 1
  }

  function At<T>(t: Index<T>, c: Channel, k: Key): Option<Conn<T>> {
    if c in t && k in t[c] then Some(t[c][k]) else None
  }

  /** Multiplicity of (c, k) in the bag the index stands for. */
  function Count<T>(t: Index<T>, c: Channel, k: Key): nat {
    if c in t && k in t[c] then t[c][k].refCount else 0
  }

  // ----- The operations ----------------------------------------------------

  function AddRef<T>(t: Index<T>, c: Channel, k: Key, d: T, n: nat): Index<T> {
    if c !in t then t[c := map[k := Conn(d, n)]]
    else if k !in t[c] then t[c := t[c][k := Conn(d, n)]]
    else t[c := t[c][k := t[c][k].(refCount := t[c][k].refCount + n)]]
  }

  /** Removes key `k` of channel `c`, and the channel with its last key. */
  function Drop<T>(t: Index<T>, c: Channel, k: Key): Index<T>
    requires c in t
  {
    if t[c].Keys - {k} == {} then t - {c} else t[c := t[c] - {k}]
  }

  function Release<T>(t: Index<T>, c: Channel, k: Key): Index<T> {
    if c !in t || k !in t[c] then t
    else if t[c][k].refCount <= 1 then Drop(t, c, k)
    else t[c := t[c][k := t[c][k].(refCount := t[c][k].refCount - 1)]]
  }

  function ReleaseAll<T>(t: Index<T>, c: Channel, k: Key): Index<T> {
    if c !in t || k !in t[c] then t else Drop(t, c, k)
  }

  function Remove<T>(t: Index<T>, k: Key): Index<T> {
    map c | c in t && t[c].Keys - {k} != {} :: t[c] - {k}
  }

  function AddRefs<T>(t: Index<T>, cs: seq<Channel>, k: Key, d: T): Index<T> {
    if cs == [] then t
    else AddRef(AddRefs(t, cs[..|cs| - 1], k, d), cs[|cs| - 1], k, d, 1)
  }

  function Releases<T>(t: Index<T>, cs: seq<Channel>, k: Key): Index<T> {
    if cs == [] then t
    else Release(Releases(t, cs[..|cs| - 1], k), cs[|cs| - 1], k)
  }

  // ----- What each operation does to the bag -------------------------------

  function Plus<T>(o: Option<Conn<T>>, d: T, n: nat): Option<Conn<T>> {
    match o
    case None => if n == 0 then None else Some(Conn(d, n))
    case Some(conn) => Some(conn.(refCount := conn.refCount + n))
  }

  function Minus<T>(o: Option<Conn<T>>, n: nat): Option<Conn<T>> {
    match o
    case None => None
    case Some(conn) => if conn.refCount <= n then None else Some(conn.(refCount := conn.refCount - n))
  }

  /** Well-formed indexes are determined by their bag and the data stored with it. */
  lemma Extensional<T>(t: Index<T>, u: Index<T>)
    requires WellFormed(t) && WellFormed(u)
    requires forall c, k :: At(t, c, k) == At(u, c, k)
    ensures t == u
  {
    forall c | c in t ensures c in u && t[c] == u[c] {
      var k :| k in t[c];
      assert At(t, c, k) == At(u, c, k);
      forall k' ensures k' in t[c] <==> k' in u[c] {
        assert At(t, c, k') == At(u, c, k');
      }
      forall k' | k' in t[c] ensures t[c][k'] == u[c][k'] {
        assert At(t, c, k') == At(u, c, k');
      }
    }
    forall c | c in u ensures c in t {
      var k :| k in u[c];
      assert At(t, c, k) == At(u, c, k);
    }
  }

  lemma AddRefAt<T>(t: Index<T>, c: Channel, k: Key, d: T, n: nat)
    requires WellFormed(t) && n >= 1
    ensures WellFormed(AddRef(t, c, k, d, n))
    ensures forall c', k' ::
              At(AddRef(t, c, k, d, n), c', k')
              == if c' == c && k' == k then Plus(At(t, c, k), d, n) else At(t, c', k')
    ensures AddRef(t, c, k, d, n).Keys == t.Keys + {c}
  {
    var u := AddRef(t, c, k, d, n);
    forall c' | c' in u ensures u[c'].Keys != {} && forall k' | k' in u[c'] :: u[c'][k'].refCount >= 1 {
      if c' == c {
        assert k in u[c];
      }
    }
  }

  lemma DropAt<T>(t: Index<T>, c: Channel, k: Key)
    requires WellFormed(t) && c in t && k in t[c]
    ensures WellFormed(Drop(t, c, k))
    ensures forall c', k' ::
              At(Drop(t, c, k), c', k') == if c' == c && k' == k then None else At(t, c', k')
  {
    var u := Drop(t, c, k);
    if c in u {
      assert u[c].Keys == t[c].Keys - {k};
    } else {
      forall k' | k' != k ensures At(t, c, k') == None {
        assert k' !in t[c].Keys - {k};
      }
    }
  }

  lemma ReleaseAt<T>(t: Index<T>, c: Channel, k: Key)
    requires WellFormed(t)
    ensures WellFormed(Release(t, c, k))
    ensures forall c', k' ::
              At(Release(t, c, k), c', k')
              == if c' == c && k' == k then Minus(At(t, c, k), 1) else At(t, c', k')
    ensures t.Keys - {c} <= Release(t, c, k).Keys <= t.Keys
  {
    if c in t && k in t[c] {
      DropAt(t, c, k);
      var u := Release(t, c, k);
      if t[c][k].refCount > 1 {
        assert k in u[c];
      }
    }
  }

  lemma ReleaseAllAt<T>(t: Index<T>, c: Channel, k: Key)
    requires WellFormed(t)
    ensures WellFormed(ReleaseAll(t, c, k))
    ensures forall c', k' ::
              At(ReleaseAll(t, c, k), c', k') == if c' == c && k' == k then None else At(t, c', k')
    ensures t.Keys - {c} <= ReleaseAll(t, c, k).Keys <= t.Keys
  {
    if c in t && k in t[c] {
      DropAt(t, c, k);
    }
  }

  /** `remove(key)` takes every reference of the key away and touches nothing else. */
  lemma RemoveAt<T>(t: Index<T>, k: Key)
    requires WellFormed(t)
    ensures WellFormed(Remove(t, k))
    ensures forall c', k' :: At(Remove(t, k), c', k') == if k' == k then None else At(t, c', k')
    ensures Remove(t, k).Keys <= t.Keys
  {
    var u := Remove(t, k);
    forall c | c in u ensures u[c].Keys != {} && forall k' | k' in u[c] :: u[c][k'].refCount >= 1 {
      assert u[c].Keys == t[c].Keys - {k};
    }
    forall c', k' ensures At(u, c', k') == if k' == k then None else At(t, c', k') {
      if c' in t && k' in t[c'] && k' != k {
        assert k' in t[c'].Keys - {k};
      }
    }
  }

  // ----- Conservation --------------------------------------------------------

  lemma MultisetSnoc<X>(cs: seq<X>)
    requires cs != []
    ensures multiset(cs) == multiset(cs[..|cs| - 1]) + multiset{cs[|cs| - 1]}
  {
    assert cs == cs[..|cs| - 1] + [cs[|cs| - 1]];
  }

  lemma {:induction false} AddRefsAt<T>(t: Index<T>, cs: seq<Channel>, k: Key, d: T)
    requires WellFormed(t)
    ensures WellFormed(AddRefs(t, cs, k, d))
    ensures forall c, k' ::
              At(AddRefs(t, cs, k, d), c, k')
              == if k' == k then Plus(At(t, c, k), d, multiset(cs)[c]) else At(t, c, k')
  {
    if cs != [] {
      var init := cs[..|cs| - 1];
      AddRefsAt(t, init, k, d);
      AddRefAt(AddRefs(t, init, k, d), cs[|cs| - 1], k, d, 1);
      MultisetSnoc(cs);
    }
  }

  lemma {:induction false} ReleasesAt<T>(t: Index<T>, cs: seq<Channel>, k: Key)
    requires WellFormed(t)
    ensures WellFormed(Releases(t, cs, k))
    ensures forall c, k' ::
              At(Releases(t, cs, k), c, k')
              == if k' == k then Minus(At(t, c, k), multiset(cs)[c]) else At(t, c, k')
  {
    if cs == [] {
      forall c ensures At(t, c, k) == Minus(At(t, c, k), 0) {
      }
    } else {
      var init := cs[..|cs| - 1];
      ReleasesAt(t, init, k);
      ReleaseAt(Releases(t, init, k), cs[|cs| - 1], k);
      MultisetSnoc(cs);
    }
  }

  /** Taking back, in any order, what `addRefs` gave restores the very same index. */
  lemma ReleasesUndoAddRefs<T>(t: Index<T>, cs: seq<Channel>, ds: seq<Channel>, k: Key, d: T)
    requires WellFormed(t) && multiset(ds) == multiset(cs)
    ensures Releases(AddRefs(t, cs, k, d), ds, k) == t
  {
    var added := AddRefs(t, cs, k, d);
    AddRefsAt(t, cs, k, d);
    ReleasesAt(added, ds, k);
    forall c, k' ensures At(Releases(added, ds, k), c, k') == At(t, c, k') {
      if k' == k && c in t && k in t[c] {
        assert At(t, c, k).value.refCount >= 1;
      }
    }
    Extensional(Releases(added, ds, k), t);
  }

  // ----- Notifications -------------------------------------------------------

  /** A call of the index's client: `channelAdded` or `channelRemoved`. */
  datatype Note = Added(channel: Channel) | Removed(channel: Channel)

  /** What a listener believes after one note; None when the note contradicts it. */
  function Hear(known: set<Channel>, note: Note): Option<set<Channel>> {
    match note
    case Added(c) => if c in known then None else Some(known + {c})
    case Removed(c) => if c in known then Some(known - {c}) else None
  }

  /** The channel set a listener who started from `known` has after `notes`. */
  function Replay(known: set<Channel>, notes: seq<Note>): Option<set<Channel>> {
    if notes == [] then Some(known)
    else
      match Replay(known, notes[..|notes| - 1])
      case None => None
      case Some(s) => Hear(s, notes[|notes| - 1])
  }

  lemma HearOne(known: set<Channel>, notes: seq<Note>, note: Note)
    requires Replay(known, notes).Some?
    ensures Replay(known, notes + [note]) == Hear(Replay(known, notes).value, note)
  {
    assert (notes + [note])[..|notes + [note]| - 1] == notes;
  }

  lemma {:induction false} ReplayAppend(known: set<Channel>, a: seq<Note>, b: seq<Note>)
    requires Replay(known, a).Some?
    ensures Replay(known, a + b) == Replay(Replay(known, a).value, b)
  {
    if b == [] {
      assert a + b == a;
    } else {
      var init := b[..|b| - 1];
      ReplayAppend(known, a, init);
      assert (a + b)[..|a + b| - 1] == a + init;
    }
  }

  /** The notes that concern channel `c`. */
  function About(notes: seq<Note>, c: Channel): seq<Note> {
    if notes == [] then []
    else
      var rest := About(notes[..|notes| - 1], c);
      if notes[|notes| - 1].channel == c then rest + [notes[|notes| - 1]] else rest
  }

  /**
   A replayable history alternates strictly on every channel: starting from absent
   (present), the odd (even) notes are additions; and the channel is present at the
   end exactly when the number of notes says so.
   */
  lemma {:induction false} ReplayAlternates(known: set<Channel>, notes: seq<Note>, c: Channel)
    requires Replay(known, notes).Some?
    ensures var about := About(notes, c);
            && (forall i | 0 <= i < |about| ::
                  about[i] == if (c in known) == (i % 2 == 1) then Added(c) else Removed(c))
            && (c in Replay(known, notes).value <==> ((c in known) == (|about| % 2 == 0)))
  {
    if notes != [] {
      ReplayAlternates(known, notes[..|notes| - 1], c);
    }
  }
}
