/** The key of a renderer frame: page id and frame id packed into one number. */
module EndpointKeys {
  import opened Common
  import opened Contract

  const TWO_TO_THE_31 := 0x8000_0000
  const TWO_TO_THE_32 := 0x1_0000_0000

  /** The signed 32-bit integer that `n` wraps around to. */
  function ToInt32(n: int): (r: int)
    ensures -TWO_TO_THE_31 <= r < TWO_TO_THE_31 && (n - r) % TWO_TO_THE_32 == 0
  {
    var m := n % TWO_TO_THE_32;
    if m < TWO_TO_THE_31 then m else m - TWO_TO_THE_32
  }

  lemma ToInt32Small(n: int)
    requires 0 <= n < TWO_TO_THE_31
    ensures ToInt32(n) == n
  {
  }

  /** A positive multiple of 2^32 is lost. */
  lemma ToInt32Wraps(n: int)
    requires 0 <= n < TWO_TO_THE_31
    ensures ToInt32(n + TWO_TO_THE_32) == n
  {
  }

  function Digit(d: nat): char
    requires d < 10
  {
    (48 + d) as char
  }

  function Digits(n: nat): (r: string)
    ensures r != [] && r[0] != '-'
  {
    if n < 10 then [Digit(n)] else Digits(n / 10) + [Digit(n % 10)]
  }

  function Decimal(n: int): string {
    if n < 0 then "-" + Digits(-n) else Digits(n)
  }

  function Packed(wcid: int, frameid: int): int {
    ToInt32(wcid * 256) + frameid
  }

  function CreateKeyForEndpoint(peer: Peer): Key {
    if peer.process.Some? && peer.process.value.wcid != 0 && peer.process.value.frameid != 0
    then "wcid-" + Decimal(Packed(peer.process.value.wcid, peer.process.value.frameid))
    else peer.id
  }

  /** The number that a text of decimal digits stands for. */
  function Read(s: string): int {
    if s == [] then 0 else 10 * Read(s[..|s| - 1]) + (s[|s| - 1] as int - '0' as int)
  }

  lemma {:induction false} DigitsReadBack(n: nat)
    ensures Read(Digits(n)) == n
  {
    if n < 10 {
      assert Digits(n)[..0] == [];
    } else {
      DigitsReadBack(n / 10);
      assert Digits(n)[..|Digits(n)| - 1] == Digits(n / 10);
    }
  }

  lemma DigitsInjective(m: nat, n: nat)
    requires Digits(m) == Digits(n)
    ensures m == n
  {
    DigitsReadBack(m);
    DigitsReadBack(n);
  }

  lemma PrefixCancels(prefix: string, a: string, b: string)
    requires prefix + a == prefix + b
    ensures a == b
  {
    assert (prefix + a)[|prefix|..] == a && (prefix + b)[|prefix|..] == b;
  }

  lemma SignOfDecimal(n: int)
    ensures Decimal(n) != [] && (Decimal(n)[0] == '-' <==> n < 0)
  {
  }

  lemma DecimalInjective(m: int, n: int)
    requires Decimal(m) == Decimal(n)
    ensures m == n
  {
    SignOfDecimal(m);
    SignOfDecimal(n);
    if m < 0 {
      PrefixCancels("-", Digits(-m), Digits(-n));
      DigitsInjective(-m, -n);
    } else {
      DigitsInjective(m, n);
    }
  }

  /** The peer has a page id and a frame id. */
  predicate Framed(peer: Peer) {
    peer.process.Some? && peer.process.value.wcid != 0 && peer.process.value.frameid != 0
  }

  /** Two frames share a key exactly when their packed numbers collide. */
  lemma KeysCollide(p: Peer, q: Peer)
    requires Framed(p) && Framed(q)
    ensures CreateKeyForEndpoint(p) == CreateKeyForEndpoint(q)
            <==> Packed(p.process.value.wcid, p.process.value.frameid)
                 == Packed(q.process.value.wcid, q.process.value.frameid)
  {
    var m := Packed(p.process.value.wcid, p.process.value.frameid);
    var n := Packed(q.process.value.wcid, q.process.value.frameid);
    if CreateKeyForEndpoint(p) == CreateKeyForEndpoint(q) {
      PrefixCancels("wcid-", Decimal(m), Decimal(n));
      DecimalInjective(m, n);
    }
  }

  predicate InRange(process: Process) {
    1 <= process.wcid < 0x80_0000 && 1 <= process.frameid <= 255
  }

  /** In range the key names the page and the frame. */
  lemma KeyNamesFrame(p: Peer, q: Peer)
    requires p.process.Some? && q.process.Some? && InRange(p.process.value) && InRange(q.process.value)
    ensures CreateKeyForEndpoint(p) == CreateKeyForEndpoint(q)
            <==> p.process.value.wcid == q.process.value.wcid && p.process.value.frameid == q.process.value.frameid
  {
    KeysCollide(p, q);
    ToInt32Small(p.process.value.wcid * 256);
    ToInt32Small(q.process.value.wcid * 256);
  }

  /** Out of range on either side the key of one page can be the key of another. */
  lemma KeyCollisionsOutOfRange(id: Key)
    ensures CreateKeyForEndpoint(Peer(id, Renderer, Some(Process(1, 257, false))))
            == CreateKeyForEndpoint(Peer(id, Renderer, Some(Process(2, 1, false))))
    ensures CreateKeyForEndpoint(Peer(id, Renderer, Some(Process(1, 1, false))))
            == CreateKeyForEndpoint(Peer(id, Renderer, Some(Process(0x100_0001, 1, false))))
  {
    ToInt32Small(256);
    ToInt32Small(512);
    ToInt32Wraps(256);
    assert Packed(1, 257) == Packed(2, 1) && Packed(1, 1) == Packed(0x100_0001, 1);
  }
}
