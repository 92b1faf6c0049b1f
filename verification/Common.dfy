/** Vocabulary shared by every component of the bus. */
module Common {

  datatype Option<+T> = None | Some(value: T)

  /** A channel is named by a string. */
  type Channel = string

  /** Peers, endpoints and connections are all looked up by a string key. */
  type Key = string

  /** A promise keeps its first outcome. */
  function KeepFirst<K, V>(outcomes: map<K, V>, k: K, outcome: V): map<K, V> {
    if k in outcomes then outcomes else outcomes[k := outcome]
  }

  /** Splicing one element out of a list takes one occurrence of it away. */
  lemma RemovedOne<T>(s: seq<T>, at: nat)
    requires at < |s|
    ensures multiset(s[..at] + s[at + 1..]) == multiset(s) - multiset{s[at]}
  {
    assert s == s[..at] + [s[at]] + s[at + 1..];
  }
}
