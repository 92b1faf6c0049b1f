/** The text of a logged value, cut to a length. */
module LogText {
  import opened Common

  /**
   A value to log. `Scalar` is anything with a text of its own (a number, a boolean,
   undefined, a date); a byte of `Bytes` is one character.
   */
  datatype Json =
    | Text(text: string)
    | Scalar(text: string)
    | Bytes(bytes: string)
    | Null
    | List(items: seq<Json>)
    | Record(fields: seq<Field>)

  datatype Field = Field(key: string, value: Json)

  const CUT_MARKER := "'__cut__'"

  function Max(a: int, b: int): int {
    if a < b then b else a
  }

  /** At most `n` characters from the front. */
  function Front(s: string, n: int): string {
    if n <= 0 then "" else if |s| <= n then s else s[..n]
  }

  // ----- What the printers compute -----------------------------------------------------

  function Cut(v: Json, maxLen: int): string
    decreases v, 1
  {
    match v
    case Text(t) => if |t| > maxLen then Front(t, maxLen) + CUT_MARKER else t
    case Scalar(t) => t
    case Bytes(b) => if |b| > maxLen * 2 then Front(b, maxLen) + CUT_MARKER else Front(b, maxLen)
    case Null => "{null}"
    case List(items) => CutItems(items, maxLen, "[")
    case Record(fields) => CutFields(fields, maxLen, "{")
  }

  /** What the array printer ends up with, given what it has written before these items. */
  function CutItems(items: seq<Json>, maxLen: int, output: string): string
    decreases items, 0
  {
    if items == [] then output + "]"
    else if |output| >= maxLen then output + CUT_MARKER + "]"
    else CutItems(items[1..], maxLen, output + Cut(items[0], maxLen - |output|) + ",")
  }

  function CutFields(fields: seq<Field>, maxLen: int, output: string): string
    decreases fields, 0
  {
    if fields == [] then output + "}"
    else if |output| >= maxLen then output + CUT_MARKER + "}"
    else
      var named := output + fields[0].key + ": ";
      if |named| >= maxLen then named + CUT_MARKER + "}"
      else CutFields(fields[1..], maxLen, named + Cut(fields[0].value, maxLen - |named|) + ",")
  }

  // ----- The text without a limit ---------------------------------------------------------

  function Full(v: Json): string
    decreases v, 1
  {
    match v
    case Text(t) => t
    case Scalar(t) => t
    case Bytes(b) => b
    case Null => "{null}"
    case List(items) => "[" + FullItems(items)
    case Record(fields) => "{" + FullFields(fields)
  }

  function FullItems(items: seq<Json>): string
    decreases items, 0
  {
    if items == [] then "]" else Full(items[0]) + "," + FullItems(items[1..])
  }

  function FullFields(fields: seq<Field>): string
    decreases fields, 0
  {
    if fields == [] then "}"
    else fields[0].key + ": " + Full(fields[0].value) + "," + FullFields(fields[1..])
  }

  /** `cut` is the text when it fits into `n` characters, and starts with its first `n` characters otherwise. */
  ghost predicate Faithful(cut: string, full: string, n: nat) {
    if |full| <= n then cut == full else full[..n] <= cut
  }

  /** One child printed within what is left of the limit keeps the whole faithful. */
  lemma FaithfulChild(output: string, child: string, full: string, rest: string, cut: string, n: nat)
    requires |output| < n && Faithful(child, full, n - |output|)
    requires Faithful(cut, output + child + "," + rest, n)
    ensures Faithful(cut, output + full + "," + rest, n)
  {
    if |full| > n - |output| {
      var written := output + child + "," + rest;
      assert written[..n] == output + full[..n - |output|];
      assert (output + full + "," + rest)[..n] == output + full[..n - |output|];
    }
  }

  /** The first `maxLen` characters are never changed, and a text that fits is not changed at all. */
  lemma {:induction false} CutIsFaithful(v: Json, maxLen: nat)
    ensures Faithful(Cut(v, maxLen), Full(v), maxLen)
    decreases v, 1
  {
    match v
    case Text(t) =>
    case Scalar(t) =>
    case Bytes(b) =>
    case Null =>
    case List(items) => ItemsAreFaithful(items, maxLen, "[");
    case Record(fields) => FieldsAreFaithful(fields, maxLen, "{");
  }

  lemma {:induction false} ItemsAreFaithful(items: seq<Json>, maxLen: nat, output: string)
    ensures Faithful(CutItems(items, maxLen, output), output + FullItems(items), maxLen)
    decreases items, 0
  {
    if items != [] {
      var full := output + FullItems(items);
      if |output| >= maxLen {
        assert full[..maxLen] == output[..maxLen];
        assert |FullItems(items)| > 0;
      } else {
        var child := Cut(items[0], maxLen - |output|);
        CutIsFaithful(items[0], maxLen - |output|);
        ItemsAreFaithful(items[1..], maxLen, output + child + ",");
        var rest := FullItems(items[1..]);
        assert full == output + Full(items[0]) + "," + rest;
        FaithfulChild(output, child, Full(items[0]), rest, CutItems(items, maxLen, output), maxLen);
      }
    }
  }

  lemma {:induction false} FieldsAreFaithful(fields: seq<Field>, maxLen: nat, output: string)
    ensures Faithful(CutFields(fields, maxLen, output), output + FullFields(fields), maxLen)
    decreases fields, 0
  {
    if fields != [] {
      var full := output + FullFields(fields);
      var named := output + fields[0].key + ": ";
      var rest := FullFields(fields[1..]);
      assert full == named + Full(fields[0].value) + "," + rest;
      if |output| >= maxLen {
        assert full[..maxLen] == output[..maxLen];
      } else if |named| >= maxLen {
        assert full[..maxLen] == named[..maxLen];
      } else {
        var child := Cut(fields[0].value, maxLen - |named|);
        CutIsFaithful(fields[0].value, maxLen - |named|);
        FieldsAreFaithful(fields[1..], maxLen, named + child + ",");
        FaithfulChild(named, child, Full(fields[0].value), rest, CutFields(fields, maxLen, output), maxLen);
      }
    }
  }

  // ----- The marker ----------------------------------------------------------------------------

  predicate MarkedAt(text: string, i: nat) {
    i + |CUT_MARKER| <= |text| && text[i..i + |CUT_MARKER|] == CUT_MARKER
  }

  ghost predicate Marked(text: string) {
    exists i: nat :: MarkedAt(text, i)
  }

  lemma MarkedWithin(front: string, text: string, back: string)
    requires Marked(text)
    ensures Marked(front + text + back)
  {
    var i: nat :| MarkedAt(text, i);
    var whole := front + text + back;
    assert whole[|front| + i..|front| + i + |CUT_MARKER|] == text[i..i + |CUT_MARKER|];
    assert MarkedAt(whole, |front| + i);
  }

  lemma MarkerIsMarked(front: string, back: string)
    ensures Marked(front + CUT_MARKER + back)
  {
    assert MarkedAt(CUT_MARKER, 0);
    MarkedWithin(front, CUT_MARKER, back);
  }

  predicate Bufferless(v: Json)
    decreases v, 1
  {
    match v
    case Bytes(_) => false
    case List(items) => BufferlessItems(items)
    case Record(fields) => BufferlessFields(fields)
    case _ => true
  }

  predicate BufferlessItems(items: seq<Json>)
    decreases items, 0
  {
    items == [] || (Bufferless(items[0]) && BufferlessItems(items[1..]))
  }

  predicate BufferlessFields(fields: seq<Field>)
    decreases fields, 0
  {
    fields == [] || (Bufferless(fields[0].value) && BufferlessFields(fields[1..]))
  }

  /** What the printers have written stays at the front. */
  lemma {:induction false} ItemsExtend(items: seq<Json>, maxLen: int, output: string)
    ensures output <= CutItems(items, maxLen, output)
    decreases items, 0
  {
    if items != [] && |output| < maxLen {
      ItemsExtend(items[1..], maxLen, output + Cut(items[0], maxLen - |output|) + ",");
    }
  }

  lemma {:induction false} FieldsExtend(fields: seq<Field>, maxLen: int, output: string)
    ensures output <= CutFields(fields, maxLen, output)
    decreases fields, 0
  {
    if fields != [] && |output| < maxLen {
      var named := output + fields[0].key + ": ";
      if |named| < maxLen {
        FieldsExtend(fields[1..], maxLen, named + Cut(fields[0].value, maxLen - |named|) + ",");
      }
    }
  }

  /** The text is complete, or it carries the marker. */
  ghost predicate Honest(cut: string, full: string) {
    cut == full || Marked(cut)
  }

  /** An honest child, printed in front of the rest, keeps the whole honest. */
  lemma HonestChild(output: string, child: string, full: string, rest: string, cut: string)
    requires Honest(child, full) && Honest(cut, output + child + "," + rest) && output + child + "," <= cut
    ensures Honest(cut, output + full + "," + rest)
  {
    if child != full {
      MarkedInFront(output, child, cut);
    }
  }

  /** Without buffers nothing is cut silently. */
  lemma {:induction false} CutIsHonest(v: Json, maxLen: int)
    requires Bufferless(v)
    ensures Honest(Cut(v, maxLen), Full(v))
    decreases v, 1
  {
    match v
    case Text(t) =>
      MarkerIsMarked(Front(t, maxLen), "");
      assert Front(t, maxLen) + CUT_MARKER + "" == Front(t, maxLen) + CUT_MARKER;
    case List(items) => ItemsAreHonest(items, maxLen, "[");
    case Record(fields) => FieldsAreHonest(fields, maxLen, "{");
    case _ =>
  }

  lemma FullItemsFirst(items: seq<Json>, output: string)
    requires items != []
    ensures output + FullItems(items) == output + Full(items[0]) + "," + FullItems(items[1..])
  {
    var full, rest := Full(items[0]) + ",", FullItems(items[1..]);
    assert FullItems(items) == full + rest;
  }

  lemma {:induction false} ItemsAreHonest(items: seq<Json>, maxLen: int, output: string)
    requires BufferlessItems(items)
    ensures Honest(CutItems(items, maxLen, output), output + FullItems(items))
    decreases items, 0
  {
    if items != [] {
      if |output| >= maxLen {
        MarkerIsMarked(output, "]");
      } else {
        var child, rest := Cut(items[0], maxLen - |output|), FullItems(items[1..]);
        CutIsHonest(items[0], maxLen - |output|);
        ItemsAreHonest(items[1..], maxLen, output + child + ",");
        ItemsExtend(items[1..], maxLen, output + child + ",");
        HonestChild(output, child, Full(items[0]), rest, CutItems(items, maxLen, output));
        FullItemsFirst(items, output);
      }
    }
  }

  lemma FullFieldsFirst(fields: seq<Field>, output: string)
    requires fields != []
    ensures output + FullFields(fields)
            == (output + fields[0].key + ": ") + Full(fields[0].value) + "," + FullFields(fields[1..])
  {
    var key, full, rest := fields[0].key + ": ", Full(fields[0].value) + ",", FullFields(fields[1..]);
    assert FullFields(fields) == key + full + rest;
  }

  lemma {:induction false} FieldsAreHonest(fields: seq<Field>, maxLen: int, output: string)
    requires BufferlessFields(fields)
    ensures Honest(CutFields(fields, maxLen, output), output + FullFields(fields))
    decreases fields, 0
  {
    if fields != [] {
      var named := output + fields[0].key + ": ";
      if |output| >= maxLen {
        MarkerIsMarked(output, "}");
      } else if |named| >= maxLen {
        MarkerIsMarked(named, "}");
      } else {
        var child, rest := Cut(fields[0].value, maxLen - |named|), FullFields(fields[1..]);
        CutIsHonest(fields[0].value, maxLen - |named|);
        FieldsAreHonest(fields[1..], maxLen, named + child + ",");
        FieldsExtend(fields[1..], maxLen, named + child + ",");
        HonestChild(named, child, Full(fields[0].value), rest, CutFields(fields, maxLen, output));
        FullFieldsFirst(fields, output);
      }
    }
  }

  lemma MarkedInFront(front: string, child: string, whole: string)
    requires Marked(child) && front + child + "," <= whole
    ensures Marked(whole)
  {
    var back := whole[|front + child|..];
    assert whole == front + child + back;
    MarkedWithin(front, child, back);
  }

  /** A buffer is printed whole or cut with the marker exactly when it fits, or has more than twice the limit. */
  lemma BufferCutSilently(bytes: string, maxLen: nat)
    ensures Cut(Bytes(bytes), maxLen) == bytes || Cut(Bytes(bytes), maxLen) == Front(bytes, maxLen) + CUT_MARKER
            <==> |bytes| <= maxLen || |bytes| > 2 * maxLen
  {
  }

  // ----- The length bound ---------------------------------------------------------------------

  function Depth(v: Json): nat
    decreases v, 1
  {
    match v
    case List(items) => 1 + DepthOfItems(items)
    case Record(fields) => 1 + DepthOfFields(fields)
    case _ => 0
  }

  function DepthOfItems(items: seq<Json>): nat
    decreases items, 0
  {
    if items == [] then 0 else Max(Depth(items[0]), DepthOfItems(items[1..]))
  }

  function DepthOfFields(fields: seq<Field>): nat
    decreases fields, 0
  {
    if fields == [] then 0 else Max(Depth(fields[0].value), DepthOfFields(fields[1..]))
  }

  /** The longest piece that is written whole: a scalar, a key, or the marker. */
  function Widest(v: Json): (w: nat)
    ensures w >= |CUT_MARKER|
    decreases v, 1
  {
    match v
    case Scalar(t) => Max(|CUT_MARKER|, |t|)
    case List(items) => WidestOfItems(items)
    case Record(fields) => WidestOfFields(fields)
    case _ => |CUT_MARKER|
  }

  function WidestOfItems(items: seq<Json>): (w: nat)
    ensures w >= |CUT_MARKER|
    decreases items, 0
  {
    if items == [] then |CUT_MARKER| else Max(Widest(items[0]), WidestOfItems(items[1..]))
  }

  function WidestOfFields(fields: seq<Field>): (w: nat)
    ensures w >= |CUT_MARKER|
    decreases fields, 0
  {
    if fields == [] then |CUT_MARKER|
    else Max(|fields[0].key|, Max(Widest(fields[0].value), WidestOfFields(fields[1..])))
  }

  /** The limit is overrun by a bounded amount for each level of nesting. */
  lemma {:induction false} CutIsBounded(v: Json, maxLen: int)
    ensures |Cut(v, maxLen)| <= Max(maxLen, 0) + 11 * Depth(v) + Widest(v)
    decreases v, 1
  {
    match v
    case Text(t) =>
    case Scalar(t) =>
    case Bytes(b) =>
    case Null =>
    case List(items) => ItemsAreBounded(items, maxLen, "[", DepthOfItems(items), WidestOfItems(items));
    case Record(fields) => FieldsAreBounded(fields, maxLen, "{", DepthOfFields(fields), WidestOfFields(fields));
  }

  lemma {:induction false} ItemsAreBounded(items: seq<Json>, maxLen: int, output: string, depth: nat, width: nat)
    requires DepthOfItems(items) <= depth && WidestOfItems(items) <= width
    requires |output| <= Max(maxLen, 0) + 11 * depth + width + 1
    ensures |CutItems(items, maxLen, output)| <= Max(maxLen, 0) + 11 * (depth + 1) + width
    decreases items, 0
  {
    if items != [] && |output| < maxLen {
      CutIsBounded(items[0], maxLen - |output|);
      ItemsAreBounded(items[1..], maxLen, output + Cut(items[0], maxLen - |output|) + ",", depth, width);
    }
  }

  lemma {:induction false} FieldsAreBounded(fields: seq<Field>, maxLen: int, output: string, depth: nat, width: nat)
    requires DepthOfFields(fields) <= depth && WidestOfFields(fields) <= width
    requires |output| <= Max(maxLen, 0) + 11 * depth + width + 1
    ensures |CutFields(fields, maxLen, output)| <= Max(maxLen, 0) + 11 * (depth + 1) + width
    decreases fields, 0
  {
    if fields != [] && |output| < maxLen {
      var named := output + fields[0].key + ": ";
      if |named| < maxLen {
        CutIsBounded(fields[0].value, maxLen - |named|);
        FieldsAreBounded(fields[1..], maxLen, named + Cut(fields[0].value, maxLen - |named|) + ",", depth, width);
      }
    }
  }

  // ----- The printers ------------------------------------------------------------------------

  method JsonStringify(data: Json, maxLen: int) returns (output: string)
    ensures output == Cut(data, maxLen)
    ensures |output| <= Max(maxLen, 0) + 11 * Depth(data) + Widest(data)
    ensures maxLen >= 0 ==> Faithful(output, Full(data), maxLen)
    decreases data, 1
  {
    CutIsBounded(data, maxLen);
    if maxLen >= 0 {
      CutIsFaithful(data, maxLen);
    }
    match data {
      case Text(t) => output := JsonStringifyString(t, maxLen);
      case Scalar(t) => output := t;
      case Bytes(b) =>
        output := Front(b, maxLen);
        if |b| > maxLen * 2 {
          output := output + CUT_MARKER;
        }
      case Null => output := "{null}";
      case List(items) => output := StringifyJsonArray(items, maxLen);
      case Record(fields) => output := JsonStringifyObject(fields, maxLen);
    }
  }

  method JsonStringifyString(data: string, maxLen: int) returns (output: string)
    ensures output == Cut(Text(data), maxLen)
  {
    if |data| > maxLen {
      return Front(data, maxLen) + CUT_MARKER;
    }
    return data;
  }

  method StringifyJsonArray(data: seq<Json>, maxLen: int) returns (output: string)
    ensures output == Cut(List(data), maxLen)
    decreases data, 0
  {
    output := "[";
    var i := 0;
    while i < |data|
      invariant i <= |data|
      invariant CutItems(data[i..], maxLen, output) == CutItems(data, maxLen, "[")
    {
      assert data[i..][1..] == data[i + 1..];
      if |output| >= maxLen {
        output := output + CUT_MARKER;
        break;
      }
      // The budget of a child is never used up.
      assert maxLen - |output| >= 1;
      var text := JsonStringify(data[i], maxLen - |output|);
      output := output + text + ",";
      i := i + 1;
    }
    output := output + "]";
  }

  method JsonStringifyObject(data: seq<Field>, maxLen: int) returns (output: string)
    ensures output == Cut(Record(data), maxLen)
    decreases data, 0
  {
    output := "{";
    var i := 0;
    while i < |data|
      invariant i <= |data|
      invariant CutFields(data[i..], maxLen, output) == CutFields(data, maxLen, "{")
    {
      assert data[i..][1..] == data[i + 1..];
      if |output| >= maxLen {
        output := output + CUT_MARKER;
        break;
      }
      var key := data[i].key;
      output := output + key + ": ";
      if |output| >= maxLen {
        output := output + CUT_MARKER;
        break;
      }
      assert maxLen - |output| >= 1;
      var text := JsonStringify(data[i].value, maxLen - |output|);
      output := output + text + ",";
      i := i + 1;
    }
    output := output + "}";
  }
}
