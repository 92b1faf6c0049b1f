/**
 Channels that carry their target: a signature for the kind of process, the peer as JSON
 text, and a unique suffix. Writing and reading JSON are parameters.
 */
module TargetChannel {
  import opened Common
  import opened Contract

  const TARGET_SIGNATURE := "_target_"
  const TARGET_MAIN_SIGNATURE := "_target_main_"
  const TARGET_PROCESS_SIGNATURE := "_target_proc_"
  const TARGET_RENDERER_SIGNATURE := "_target_rend_"
  const TARGET_SIGNATURE_LENGTH := 13

  function Signature(kind: ProcessType): string {
    match kind
    case Node => TARGET_PROCESS_SIGNATURE
    case Native => TARGET_PROCESS_SIGNATURE
    case Renderer => TARGET_RENDERER_SIGNATURE
    case Main => TARGET_MAIN_SIGNATURE
    case _ => "_no_target_"
  }

  function CreateTargetChannel(peer: Peer, json: Peer -> string, uuid: string): Channel {
    Signature(peer.kind) + json(peer) + TARGET_SIGNATURE + uuid
  }

  /** `pattern` occurs in `s` at position `i`. */
  predicate OccursAt(s: string, pattern: string, i: nat) {
    i + |pattern| <= |s| && s[i..i + |pattern|] == pattern
  }

  ghost predicate Contains(s: string, pattern: string) {
    exists i: nat :: OccursAt(s, pattern, i)
  }

  /** The first occurrence at or after `from`, or -1. */
  function IndexOf(s: string, pattern: string, from: nat): (r: int)
    ensures r == -1 || (r >= from && OccursAt(s, pattern, r))
    ensures forall i: nat :: from <= i && OccursAt(s, pattern, i) ==> 0 <= r <= i
    decreases |s| - from
  {
    if from + |pattern| > |s| then -1
    else if OccursAt(s, pattern, from) then from
    else IndexOf(s, pattern, from + 1)
  }

  /** At most `length` characters from `start`. */
  function Substr(s: string, start: nat, length: int): string {
    if length <= 0 || start >= |s| then ""
    else if start + length <= |s| then s[start..start + length]
    else s[start..]
  }

  /** The text of the target in the channel name, if the channel has the signature. */
  function TargetText(signature: string, c: Channel): Option<string> {
    if TARGET_SIGNATURE <= c && signature <= c
    then
      var index := IndexOf(c, TARGET_SIGNATURE, TARGET_SIGNATURE_LENGTH);
      Some(Substr(c, TARGET_SIGNATURE_LENGTH, index - TARGET_SIGNATURE_LENGTH))
    else None
  }

  /** A getter finds a peer, finds none, or fails to read the text. */
  datatype Lookup = NoTarget | Malformed | Found(peer: Peer)

  function FromChannel(signature: string, c: Channel, parse: string -> Option<Peer>): Lookup {
    match TargetText(signature, c)
    case None => NoTarget
    case Some(text) =>
      match parse(text)
      case None => Malformed
      case Some(peer) => Found(peer)
  }

  function GetTarget(
    msg: Message, checkChannel: bool, right: Peer -> bool, signature: string, parse: string -> Option<Peer>): Lookup
  {
    if msg.target.Some? then if right(msg.target.value) then Found(msg.target.value) else NoTarget
    else if checkChannel then FromChannel(signature, msg.channel, parse)
    else NoTarget
  }

  function GetTargetMain(msg: Message, checkChannel: bool, parse: string -> Option<Peer>): Lookup {
    GetTarget(msg, checkChannel, (p: Peer) => p.kind == Main, TARGET_MAIN_SIGNATURE, parse)
  }

  function GetTargetProcess(msg: Message, checkChannel: bool, parse: string -> Option<Peer>): Lookup {
    GetTarget(msg, checkChannel, (p: Peer) => IsProcessTarget(p), TARGET_PROCESS_SIGNATURE, parse)
  }

  function GetTargetRenderer(msg: Message, checkChannel: bool, parse: string -> Option<Peer>): Lookup {
    GetTarget(msg, checkChannel, (p: Peer) => p.kind == Renderer, TARGET_RENDERER_SIGNATURE, parse)
  }

  /**
   A target in the message decides, whatever the channel says: the getter of its kind finds
   it, the others find nothing. Without one, a getter that is not to look at the channel
   finds nothing.
   */
  lemma MessageTargetDecides(msg: Message, checkChannel: bool, parse: string -> Option<Peer>)
    ensures msg.target.Some? ==>
              && GetTargetMain(msg, checkChannel, parse)
                 == (if msg.target.value.kind == Main then Found(msg.target.value) else NoTarget)
              && GetTargetProcess(msg, checkChannel, parse)
                 == (if msg.target.value.kind in {Node, Native} then Found(msg.target.value) else NoTarget)
              && GetTargetRenderer(msg, checkChannel, parse)
                 == (if msg.target.value.kind == Renderer then Found(msg.target.value) else NoTarget)
    ensures msg.target == None && (!checkChannel || !(TARGET_SIGNATURE <= msg.channel)) ==>
              && GetTargetMain(msg, checkChannel, parse) == NoTarget
              && GetTargetProcess(msg, checkChannel, parse) == NoTarget
              && GetTargetRenderer(msg, checkChannel, parse) == NoTarget
  {
  }

  // ----- Reading back what was written -------------------------------------------------

  /** An object's text ends in its closing brace. */
  predicate Closed(text: string) {
    text != "" && text[|text| - 1] == '}'
  }

  /** Before the end of the text the separator occurs in the channel only where it occurs in the text. */
  lemma OccursInText(head: string, text: string, pattern: string, tail: string, i: nat)
    requires Closed(text) && '}' !in pattern && i < |text|
    ensures OccursAt(head + text + pattern + tail, pattern, |head| + i) <==> OccursAt(text, pattern, i)
  {
    var c := head + text + pattern + tail;
    var at := |head| + i;
    assert forall j | 0 <= j < |text| :: c[|head| + j] == text[j];
    if i + |pattern| <= |text| {
      assert c[at..at + |pattern|] == text[i..i + |pattern|];
    } else if at + |pattern| <= |c| {
      assert c[at..at + |pattern|][|text| - 1 - i] == '}';
    }
  }

  lemma OccursBehindText(head: string, text: string, pattern: string, tail: string)
    ensures OccursAt(head + text + pattern + tail, pattern, |head| + |text|)
  {
    var c, end := head + text + pattern + tail, |head| + |text|;
    assert c[end..end + |pattern|] == pattern;
  }

  /**
   The separator is first found right behind the text exactly when the text does not
   contain it: it cannot begin inside the text and end behind the closing brace.
   */
  lemma SeparatorFound(head: string, text: string, pattern: string, tail: string)
    requires Closed(text) && '}' !in pattern
    ensures var index := IndexOf(head + text + pattern + tail, pattern, |head|);
            && |head| <= index <= |head| + |text|
            && (index == |head| + |text| <==> !Contains(text, pattern))
  {
    OccursBehindText(head, text, pattern, tail);
    var index := IndexOf(head + text + pattern + tail, pattern, |head|);
    if i: nat :| OccursAt(text, pattern, i) {
      if i < |text| {
        OccursInText(head, text, pattern, tail, i);
      }
    }
    if index < |head| + |text| {
      OccursInText(head, text, pattern, tail, index - |head|);
    }
  }

  lemma TextReadBack(signature: string, text: string, uuid: string)
    requires |signature| == TARGET_SIGNATURE_LENGTH && TARGET_SIGNATURE <= signature && Closed(text)
    ensures TargetText(signature, signature + text + TARGET_SIGNATURE + uuid) == Some(text)
            <==> !Contains(text, TARGET_SIGNATURE)
  {
    var c, end := signature + text + TARGET_SIGNATURE + uuid, |signature| + |text|;
    SeparatorFound(signature, text, TARGET_SIGNATURE, uuid);
    var index := IndexOf(c, TARGET_SIGNATURE, TARGET_SIGNATURE_LENGTH);
    assert signature <= c && TARGET_SIGNATURE <= c;
    assert c[|signature|..end] == text;
    assert |Substr(c, TARGET_SIGNATURE_LENGTH, index - TARGET_SIGNATURE_LENGTH)| == index - TARGET_SIGNATURE_LENGTH;
  }

  lemma SignaturesDiffer(rest: string)
    ensures !(TARGET_PROCESS_SIGNATURE <= TARGET_MAIN_SIGNATURE + rest) && !(TARGET_RENDERER_SIGNATURE <= TARGET_MAIN_SIGNATURE + rest)
    ensures !(TARGET_MAIN_SIGNATURE <= TARGET_PROCESS_SIGNATURE + rest) && !(TARGET_RENDERER_SIGNATURE <= TARGET_PROCESS_SIGNATURE + rest)
    ensures !(TARGET_MAIN_SIGNATURE <= TARGET_RENDERER_SIGNATURE + rest) && !(TARGET_PROCESS_SIGNATURE <= TARGET_RENDERER_SIGNATURE + rest)
    ensures !(TARGET_SIGNATURE <= "_no_target_" + rest)
  {
    var m, p, r := TARGET_MAIN_SIGNATURE + rest, TARGET_PROCESS_SIGNATURE + rest, TARGET_RENDERER_SIGNATURE + rest;
    assert m[8] == 'm' && p[8] == 'p' && r[8] == 'r';
    assert ("_no_target_" + rest)[1] == 'n';
  }

  /**
   Reading the channel created for a peer with the getter of its kind returns the peer,
   and with any other getter nothing, for every kind that has a getter; for the other
   kinds no getter returns anything. The text must not contain the separator.
   */
  lemma TargetRoundTrip(peer: Peer, json: Peer -> string, parse: string -> Option<Peer>, uuid: string, msg: Message)
    requires Closed(json(peer)) && parse(json(peer)) == Some(peer) && !Contains(json(peer), TARGET_SIGNATURE)
    requires msg.target == None && msg.channel == CreateTargetChannel(peer, json, uuid)
    ensures GetTargetMain(msg, true, parse) == if peer.kind == Main then Found(peer) else NoTarget
    ensures GetTargetProcess(msg, true, parse) == if IsProcessTarget(peer) then Found(peer) else NoTarget
    ensures GetTargetRenderer(msg, true, parse) == if peer.kind == Renderer then Found(peer) else NoTarget
  {
    var rest := json(peer) + TARGET_SIGNATURE + uuid;
    assert msg.channel == Signature(peer.kind) + rest;
    SignaturesDiffer(rest);
    if peer.kind == Main || peer.kind == Renderer || IsProcessTarget(peer) {
      assert |Signature(peer.kind)| == TARGET_SIGNATURE_LENGTH && TARGET_SIGNATURE <= Signature(peer.kind);
      TextReadBack(Signature(peer.kind), json(peer), uuid);
    }
  }
}
