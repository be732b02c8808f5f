/** Prefix anchors: the evidence that a later prompt contains an earlier one unchanged. */
module PromptAnchors {
  import opened Options

  type CodePoint = c: int | 0 <= c < 0x11_0000
  type Text = seq<CodePoint>

  const MESSAGE_MARK: CodePoint := 1
  const ROLE_END: CodePoint := 2
  const BLOCK_MARK: CodePoint := 4

  /** A lone surrogate has no UTF-8 form. */
  predicate Surrogate(c: CodePoint) { 0xD800 <= c <= 0xDFFF }

  /** What reaches the digest: surrogates are dropped, everything else is kept. */
  function Encodable(t: Text): Text {
    if t == [] then [] else (if Surrogate(t[0]) then [] else [t[0]]) + Encodable(t[1..])
  }

  function Join(units: seq<Text>): Text {
    if units == [] then [] else units[0] + Join(units[1..])
  }

  /** `digest` of the encodable text, with the text's length. */
  datatype Anchor<D> = Anchor(length: int, digest: D)

  ghost predicate Injective<D(!new)>(digest: Text -> D) {
    forall s, t :: digest(s) == digest(t) ==> s == t
  }

  function AnchorOf<D>(text: Text, digest: Text -> D): Option<Anchor<D>> {
    if text == [] then None else Some(Anchor(|text|, digest(Encodable(text))))
  }

  predicate Holds<D(==)>(text: Text, anchor: Anchor<D>, digest: Text -> D) {
    0 < anchor.length <= |text| && digest(Encodable(text[..anchor.length])) == anchor.digest
  }

  lemma Associative<T>(x: seq<T>, y: seq<T>, z: seq<T>)
    ensures (x + y) + z == x + (y + z)
  {
  }

  lemma EncodableOfFirst(c: CodePoint, rest: Text)
    ensures Encodable([c] + rest) == (if Surrogate(c) then [] else [c]) + Encodable(rest)
  {
    assert ([c] + rest)[1..] == rest;
  }

  lemma {:induction false} EncodableAppend(s: Text, t: Text)
    ensures Encodable(s + t) == Encodable(s) + Encodable(t)
  {
    if s == [] {
      assert s + t == t;
    } else {
      var c, rest := s[0], s[1..];
      assert s == [c] + rest && s + t == [c] + (rest + t);
      EncodableAppend(rest, t);
      EncodableOfFirst(c, rest);
      EncodableOfFirst(c, rest + t);
      Associative(if Surrogate(c) then [] else [c], Encodable(rest), Encodable(t));
    }
  }

  lemma JoinOfFirst(u: Text, rest: seq<Text>)
    ensures Join([u] + rest) == u + Join(rest)
  {
    assert ([u] + rest)[1..] == rest;
  }

  lemma {:induction false} JoinAppend(a: seq<Text>, b: seq<Text>)
    ensures Join(a + b) == Join(a) + Join(b)
  {
    if a == [] {
      assert a + b == b;
    } else {
      var u, rest := a[0], a[1..];
      assert a == [u] + rest && a + b == [u] + (rest + b);
      JoinAppend(rest, b);
      JoinOfFirst(u, rest);
      JoinOfFirst(u, rest + b);
      Associative(u, Join(rest), Join(b));
    }
  }

  lemma JoinGrows(units: seq<Text>, i: nat)
    requires i < |units|
    ensures Join(units[..i + 1]) == Join(units[..i]) + units[i]
  {
    assert units[..i + 1] == units[..i] + [units[i]];
    JoinAppend(units[..i], [units[i]]);
    JoinOne(units[i]);
  }

  lemma JoinOfPrefix(units: seq<Text>, k: nat)
    requires k <= |units|
    ensures Join(units[..k]) <= Join(units)
  {
    assert units == units[..k] + units[k..];
    JoinAppend(units[..k], units[k..]);
  }

  lemma JoinOne(u: Text)
    ensures Join([u]) == u
  {
    assert Join([u][1..]) == [];
  }

  /** Hash a prompt unit by unit; the digest state is the encodable text fed to it so far. */
  method PromptAnchor<D>(units: seq<Text>, digest: Text -> D) returns (anchor: Option<Anchor<D>>)
    ensures anchor == AnchorOf(Join(units), digest)
  {
    var fed: Text, length := [], 0;
    for i := 0 to |units|
      invariant fed == Encodable(Join(units[..i])) && length == |Join(units[..i])|
    {
      JoinGrows(units, i);
      EncodableAppend(Join(units[..i]), units[i]);
      fed, length := fed + Encodable(units[i]), length + |units[i]|;
    }
    assert units[..|units|] == units;
    anchor := if length == 0 then None else Some(Anchor(length, digest(fed)));
  }

  /** The text goes on with unit `i` after the first `i` units. */
  lemma NextPiece(units: seq<Text>, i: nat, take: Text)
    requires i < |units| && take <= units[i]
    ensures var seen := |Join(units[..i])|;
            && seen + |units[i]| == |Join(units[..i + 1])| && seen + |units[i]| <= |Join(units)|
            && Join(units)[..seen + |take|] == Join(units)[..seen] + take
  {
    JoinGrows(units, i);
    JoinOfPrefix(units, i + 1);
    var whole, part := Join(units), Join(units[..i]);
    assert part + units[i] <= whole;
    assert whole[..|part|] == part && whole[|part|..|part| + |take|] == take;
  }

  /** Re-hash just the remembered length of a later prompt, however it is split into units. */
  method AnchorHolds<D(==)>(units: seq<Text>, anchor: Anchor<D>, digest: Text -> D) returns (holds: bool)
    ensures holds == Holds(Join(units), anchor, digest)
  {
    var length := anchor.length;
    if length <= 0 { return false; }
    var fed: Text, seen := [], 0;
    var i := 0;
    while i < |units| && seen < length
      invariant 0 <= i <= |units| && 0 <= seen <= length && seen <= |Join(units)|
      invariant fed == Encodable(Join(units)[..seen])
      invariant seen == |Join(units[..i])| || (seen == length && length <= |Join(units)|)
    {
      var take := if |units[i]| <= length - seen then units[i] else units[i][..length - seen];
      NextPiece(units, i, take);
      EncodableAppend(Join(units)[..seen], take);
      fed, seen := fed + Encodable(take), seen + |take|;
      i := i + 1;
    }
    assert units[..|units|] == units;
    holds := seen == length && digest(fed) == anchor.digest;
  }

  // ----- exactness

  ghost predicate SurrogateFree(t: Text) {
    forall i :: 0 <= i < |t| ==> !Surrogate(t[i])
  }

  lemma {:induction false} EncodableIsShorter(t: Text)
    ensures |Encodable(t)| <= |t|
    ensures |Encodable(t)| == |t| <==> SurrogateFree(t)
    ensures SurrogateFree(t) ==> Encodable(t) == t
  {
    if t != [] {
      EncodableIsShorter(t[1..]);
      assert t == [t[0]] + t[1..];
      assert SurrogateFree(t) <==> !Surrogate(t[0]) && SurrogateFree(t[1..]);
    }
  }

  /** For a remembered prompt without lone surrogates the check is exact: the anchor holds on a later
      prompt if and only if the remembered text is a prefix of it. */
  lemma AnchorIsExact<D(!new)>(remembered: Text, later: Text, digest: Text -> D)
    requires Injective(digest) && remembered != [] && SurrogateFree(remembered)
    ensures Holds(later, AnchorOf(remembered, digest).value, digest) <==> remembered <= later
  {
    EncodableIsShorter(remembered);
    if |remembered| <= |later| {
      EncodableIsShorter(later[..|remembered|]);
      assert remembered <= later <==> later[..|remembered|] == remembered;
    }
  }

  /** An anchor of no text, or of more than there is, never holds. */
  lemma NoAnchorHoldsOutside<D>(text: Text, anchor: Anchor<D>, digest: Text -> D)
    requires anchor.length <= 0 || |text| < anchor.length
    ensures !Holds(text, anchor, digest)
  {
  }

  /** Replace a surrogate by another: a different text with the same encodable part. */
  lemma {:induction false} SurrogateSwap(t: Text, i: nat, c: CodePoint)
    requires i < |t| && Surrogate(t[i]) && Surrogate(c)
    ensures Encodable(t[i := c]) == Encodable(t)
  {
    if i == 0 {
      assert t[0 := c][1..] == t[1..];
    } else {
      SurrogateSwap(t[1..], i - 1, c);
      assert t[i := c][1..] == t[1..][i - 1 := c];
    }
  }

  /** A lone surrogate can be changed without the anchor noticing. */
  lemma SurrogateFools<D(!new)>(remembered: Text, i: nat, digest: Text -> D)
    requires i < |remembered| && Surrogate(remembered[i])
    ensures exists later :: Holds(later, AnchorOf(remembered, digest).value, digest) && !(remembered <= later)
  {
    var c: CodePoint := if remembered[i] == 0xD800 then 0xD801 else 0xD800;
    var later := remembered[i := c];
    SurrogateSwap(remembered, i, c);
    assert later[..|remembered|] == later;
    assert Holds(later, AnchorOf(remembered, digest).value, digest);
    assert later[i] != remembered[i];
  }

  /** Exactness against every later prompt holds precisely for prompts without lone surrogates. */
  lemma ExactIffSurrogateFree<D(!new)>(remembered: Text, digest: Text -> D)
    requires Injective(digest) && remembered != []
    ensures (forall later :: Holds(later, AnchorOf(remembered, digest).value, digest) <==> remembered <= later)
       <==> SurrogateFree(remembered)
  {
    if SurrogateFree(remembered) {
      forall later ensures Holds(later, AnchorOf(remembered, digest).value, digest) <==> remembered <= later {
        AnchorIsExact(remembered, later, digest);
      }
    } else {
      var i :| 0 <= i < |remembered| && Surrogate(remembered[i]);
      SurrogateFools(remembered, i, digest);
    }
  }

  // ----- prompts

  datatype Block =
    | PlainText(text: Text)
    | Media(identity: Text)
    | TextField(text: Text)
    | Serialized(json: Text)
    | Unserializable

  datatype Content = NoContent | Body(text: Text) | Blocks(blocks: seq<Block>)

  /** `extra` is the serialized form of the fields other than role and content, when there are any. */
  datatype Message = NotAnObject | Message(role: Text, content: Content, extra: Option<Text>)

  function BlockUnits(blocks: seq<Block>): seq<Text> {
    if blocks == [] then []
    else
      var b := blocks[0];
      [[BLOCK_MARK]]
      + (match b
         case PlainText(t) => [t]
         case Media(t) => [t]
         case TextField(t) => [t]
         case Serialized(t) => [t]
         case Unserializable => [])
      + BlockUnits(blocks[1..])
  }

  function MessageUnits(m: Message): seq<Text> {
    if m.NotAnObject? then []
    else
      [[MESSAGE_MARK] + m.role + [ROLE_END]]
      + (match m.content
         case NoContent => []
         case Body(t) => [t]
         case Blocks(bs) => BlockUnits(bs))
      + (if m.extra.Some? then [m.extra.value] else [])
  }

  function EachUnits(messages: seq<Message>): (r: seq<seq<Text>>)
    ensures |r| == |messages|
  {
    seq(|messages|, i requires 0 <= i < |messages| => MessageUnits(messages[i]))
  }

  function Concat(parts: seq<seq<Text>>): seq<Text> {
    if parts == [] then [] else parts[0] + Concat(parts[1..])
  }

  function PrefixUnits(messages: seq<Message>): seq<Text> { Concat(EachUnits(messages)) }

  lemma ConcatOfFirst(x: seq<Text>, rest: seq<seq<Text>>)
    ensures Concat([x] + rest) == x + Concat(rest)
  {
    assert ([x] + rest)[1..] == rest;
  }

  lemma {:induction false} ConcatAppend(a: seq<seq<Text>>, b: seq<seq<Text>>)
    ensures Concat(a + b) == Concat(a) + Concat(b)
  {
    if a == [] {
      assert a + b == b;
    } else {
      var x, rest := a[0], a[1..];
      assert a == [x] + rest && a + b == [x] + (rest + b);
      ConcatAppend(rest, b);
      ConcatOfFirst(x, rest);
      ConcatOfFirst(x, rest + b);
      Associative(x, Concat(rest), Concat(b));
    }
  }

  function PromptText(messages: seq<Message>): Text { Join(PrefixUnits(messages)) }

  lemma PrefixUnitsOfFirst(m: Message, rest: seq<Message>)
    ensures PrefixUnits([m] + rest) == MessageUnits(m) + PrefixUnits(rest)
  {
    assert EachUnits([m] + rest) == [MessageUnits(m)] + EachUnits(rest);
    ConcatOfFirst(MessageUnits(m), EachUnits(rest));
  }

  lemma PrefixUnitsAppend(a: seq<Message>, b: seq<Message>)
    ensures PrefixUnits(a + b) == PrefixUnits(a) + PrefixUnits(b)
  {
    assert EachUnits(a + b) == EachUnits(a) + EachUnits(b);
    ConcatAppend(EachUnits(a), EachUnits(b));
  }

  lemma PromptTextAppend(a: seq<Message>, b: seq<Message>)
    ensures PromptText(a + b) == PromptText(a) + PromptText(b)
  {
    PrefixUnitsAppend(a, b);
    JoinAppend(PrefixUnits(a), PrefixUnits(b));
  }

  /** Appending messages to a prompt always keeps its anchor, whatever the text holds. */
  lemma AppendingKeepsAnchor<D(!new)>(messages: seq<Message>, more: seq<Message>, digest: Text -> D)
    requires PromptText(messages) != []
    ensures Holds(PromptText(messages + more), AnchorOf(PromptText(messages), digest).value, digest)
  {
    PromptTextAppend(messages, more);
  }

  /** Changing any character of a surrogate-free remembered prompt breaks its anchor. */
  lemma EditingBreaksAnchor<D(!new)>(remembered: Text, i: nat, c: CodePoint, rest: Text, digest: Text -> D)
    requires Injective(digest) && i < |remembered| && c != remembered[i] && SurrogateFree(remembered)
    ensures !Holds(remembered[i := c] + rest, AnchorOf(remembered, digest).value, digest)
  {
    AnchorIsExact(remembered, remembered[i := c] + rest, digest);
    assert (remembered[i := c] + rest)[i] == c;
  }

  // ----- message boundaries

  ghost predicate MarkFree(t: Text) { MESSAGE_MARK !in t }

  /** The text of one message after its opening mark. */
  function Tail(m: Message): Text
    requires m.Message?
  {
    Join(MessageUnits(m))[1..]
  }

  lemma TextOfMessage(m: Message)
    requires m.Message?
    ensures Join(MessageUnits(m)) == [MESSAGE_MARK] + Tail(m)
  {
    assert MessageUnits(m)[0] == [MESSAGE_MARK] + m.role + [ROLE_END];
  }

  lemma PromptTextOfFirst(messages: seq<Message>)
    requires messages != [] && messages[0].Message?
    ensures PromptText(messages) == [MESSAGE_MARK] + (Tail(messages[0]) + PromptText(messages[1..]))
  {
    var m, rest := messages[0], messages[1..];
    assert messages == [m] + rest;
    PrefixUnitsOfFirst(m, rest);
    JoinAppend(MessageUnits(m), PrefixUnits(rest));
    TextOfMessage(m);
    Associative([MESSAGE_MARK], Tail(m), PromptText(rest));
  }

  ghost function FirstMark(t: Text): nat {
    if t == [] || t[0] == MESSAGE_MARK then 0 else 1 + FirstMark(t[1..])
  }

  lemma {:induction false} FirstMarkOf(s: Text, x: Text)
    requires MarkFree(s) && (x == [] || x[0] == MESSAGE_MARK)
    ensures FirstMark(s + x) == |s|
  {
    if s == [] {
      assert s + x == x;
    } else {
      FirstMarkOf(s[1..], x);
      assert (s + x)[1..] == s[1..] + x;
    }
  }

  /** Two mark-free tails followed by the rest of a prompt agree only if the tails agree. */
  lemma SplitAtMark(s: Text, t: Text, x: Text, y: Text)
    requires MarkFree(s) && MarkFree(t) && s + x == t + y
    requires (x == [] || x[0] == MESSAGE_MARK) && (y == [] || y[0] == MESSAGE_MARK)
    ensures s == t && x == y
  {
    FirstMarkOf(s, x);
    FirstMarkOf(t, y);
    assert (s + x)[..|s|] == s && (t + y)[..|t|] == t;
    assert (s + x)[|s|..] == x && (t + y)[|t|..] == y;
  }

  /** Between prompts none of whose texts contains the mark, the prompt text fixes how many messages there are and
      the text after each one's opening mark. */
  lemma {:induction false} BoundariesAreDetermined(a: seq<Message>, b: seq<Message>)
    requires forall m :: m in a || m in b ==> m.Message? && MarkFree(Tail(m))
    requires PromptText(a) == PromptText(b)
    ensures |a| == |b| && forall i :: 0 <= i < |a| ==> Tail(a[i]) == Tail(b[i])
  {
    if a != [] {
      PromptTextOfFirst(a);
    }
    if b != [] {
      PromptTextOfFirst(b);
    }
    if a != [] && b != [] {
      if |a| > 1 {
        assert a[1..][0].Message?;
        PromptTextOfFirst(a[1..]);
      }
      if |b| > 1 {
        assert b[1..][0].Message?;
        PromptTextOfFirst(b[1..]);
      }
      var s, t := Tail(a[0]) + PromptText(a[1..]), Tail(b[0]) + PromptText(b[1..]);
      assert ([MESSAGE_MARK] + s)[1..] == s && ([MESSAGE_MARK] + t)[1..] == t;
      SplitAtMark(Tail(a[0]), Tail(b[0]), PromptText(a[1..]), PromptText(b[1..]));
      BoundariesAreDetermined(a[1..], b[1..]);
    }
  }

  lemma PlainMessageText(role: Text, body: Text)
    ensures PromptText([Message(role, Body(body), None)]) == [MESSAGE_MARK] + role + [ROLE_END] + body
  {
    var m := Message(role, Body(body), None);
    PrefixUnitsOfFirst(m, []);
    assert [m] + [] == [m] && EachUnits([]) == [];
    assert MessageUnits(m) + [] == [[MESSAGE_MARK] + role + [ROLE_END]] + [body];
    JoinOfFirst([MESSAGE_MARK] + role + [ROLE_END], [body]);
    JoinOne(body);
  }

  /** With the mark inside a message's text one message reads as two, for any role and any two texts:
      boundaries can be forged. */
  lemma MarkInTextForgesBoundary(role: Text, x: Text, y: Text)
    ensures var two := [Message(role, Body(x), None), Message(role, Body(y), None)];
            var one := [Message(role, Body(x + ([MESSAGE_MARK] + role + [ROLE_END] + y)), None)];
            two != one && PromptText(two) == PromptText(one)
  {
    var p, q := Message(role, Body(x), None), Message(role, Body(y), None);
    PlainMessageText(role, x);
    PlainMessageText(role, y);
    PlainMessageText(role, x + ([MESSAGE_MARK] + role + [ROLE_END] + y));
    assert [p, q] == [p] + [q];
    PromptTextAppend([p], [q]);
    Associative([MESSAGE_MARK] + role + [ROLE_END], x, [MESSAGE_MARK] + role + [ROLE_END] + y);
  }

  // ----- when a prompt's boundaries are fixed by its text

  ghost predicate AllObjects(messages: seq<Message>) { forall m :: m in messages ==> m.Message? }

  function Tails(messages: seq<Message>): (r: seq<Text>)
    requires forall m :: m in messages ==> m.Message?
    ensures |r| == |messages|
  {
    seq(|messages|, i requires 0 <= i < |messages| => assert messages[i] in messages; Tail(messages[i]))
  }

  /** The text can be read as two messages: a role end, a later boundary mark, and a later role end. */
  ghost predicate Splittable(t: Text) {
    exists i, j, k :: 0 <= i < j < k < |t| && t[i] == ROLE_END && t[j] == MESSAGE_MARK && t[k] == ROLE_END
  }

  /** A message with tail `t`: everything before its first role end is the role. */
  function Read(t: Text, i: nat): Message
    requires i < |t| && t[i] == ROLE_END
  {
    Message(t[..i], Body(t[i + 1..]), None)
  }

  lemma ReadHasTail(t: Text, i: nat)
    requires i < |t| && t[i] == ROLE_END
    ensures Tail(Read(t, i)) == t
  {
    var m := Read(t, i);
    assert MessageUnits(m) == [[MESSAGE_MARK] + m.role + [ROLE_END]] + [m.content.text];
    JoinOfFirst([MESSAGE_MARK] + m.role + [ROLE_END], [m.content.text]);
    JoinOne(m.content.text);
    assert t[..i] + [ROLE_END] + t[i + 1..] == t;
  }

  lemma TailHasRoleEnd(m: Message)
    requires m.Message?
    ensures |m.role| < |Tail(m)| && Tail(m)[|m.role|] == ROLE_END
  {
    var units := MessageUnits(m);
    var head := [MESSAGE_MARK] + m.role + [ROLE_END];
    assert units == [head] + units[1..];
    JoinOfFirst(head, units[1..]);
  }

  lemma TextOfOne(m: Message)
    requires m.Message?
    ensures PromptText([m]) == [MESSAGE_MARK] + Tail(m)
  {
    PromptTextOfFirst([m]);
    assert EachUnits([m][1..]) == [];
    assert PromptText([m][1..]) == [];
    assert Tail(m) + [] == Tail(m);
  }

  lemma TextOfTwo(m: Message, n: Message, rest: seq<Message>)
    requires m.Message? && n.Message?
    ensures PromptText([m, n] + rest) == [MESSAGE_MARK] + ((Tail(m) + [MESSAGE_MARK] + Tail(n)) + PromptText(rest))
  {
    var all := [m, n] + rest;
    assert all[1..] == [n] + rest && ([n] + rest)[1..] == rest;
    PromptTextOfFirst(all);
    PromptTextOfFirst([n] + rest);
    Regroup(Tail(m), MESSAGE_MARK, Tail(n), PromptText(rest));
  }

  lemma Regroup(x: Text, mark: CodePoint, y: Text, z: Text)
    ensures x + ([mark] + (y + z)) == (x + [mark] + y) + z
  {
  }

  /** Two messages followed by `rest` read just as well as one. */
  lemma MergedReads(m: Message, n: Message, rest: seq<Message>) returns (one: Message)
    requires m.Message? && n.Message?
    ensures one.Message? && PromptText([one] + rest) == PromptText([m, n] + rest)
  {
    var t := Tail(m) + [MESSAGE_MARK] + Tail(n);
    TailHasRoleEnd(m);
    assert t[|m.role|] == ROLE_END;
    one := Read(t, |m.role|);
    ReadHasTail(t, |m.role|);
    TextOfTwo(m, n, rest);
    assert ([one] + rest)[1..] == rest;
    PromptTextOfFirst([one] + rest);
  }

  lemma TextOfPair(m: Message, n: Message)
    requires m.Message? && n.Message?
    ensures PromptText([m, n]) == [MESSAGE_MARK] + (Tail(m) + [MESSAGE_MARK] + Tail(n))
  {
    hide Tail;
    TextOfTwo(m, n, []);
    assert [m, n] + [] == [m, n] && EachUnits([]) == [] && PromptText([]) == [];
    assert (Tail(m) + [MESSAGE_MARK] + Tail(n)) + [] == Tail(m) + [MESSAGE_MARK] + Tail(n);
  }

  /** Messages whose tails are the two sides of a mark. */
  lemma ReadSides(t: Text, i: nat, j: nat, k: nat) returns (x: Message, y: Message)
    requires i < j < k < |t| && t[i] == ROLE_END && t[j] == MESSAGE_MARK && t[k] == ROLE_END
    ensures x.Message? && y.Message? && Tail(x) + [MESSAGE_MARK] + Tail(y) == t
  {
    hide Tail;
    var before, after := t[..j], t[j + 1..];
    assert before[i] == ROLE_END && after[k - j - 1] == ROLE_END;
    x, y := Read(before, i), Read(after, k - j - 1);
    ReadHasTail(before, i);
    ReadHasTail(after, k - j - 1);
    assert before + [MESSAGE_MARK] + after == t;
  }

  /** One message with a splittable tail reads just as well as two. */
  lemma SplitReads(m: Message) returns (x: Message, y: Message)
    requires m.Message? && Splittable(Tail(m))
    ensures x.Message? && y.Message? && PromptText([x, y]) == PromptText([m])
  {
    hide Tail, PromptText;
    var t := Tail(m);
    var i, j, k :| 0 <= i < j < k < |t| && t[i] == ROLE_END && t[j] == MESSAGE_MARK && t[k] == ROLE_END;
    x, y := ReadSides(t, i, j, k);
    TextOfPair(x, y);
    TextOfOne(m);
  }

  /** Two or more messages never share their text with a single one whose tail cannot be split. */
  lemma ManyAreSplittable(m: Message, b: seq<Message>)
    requires m.Message? && AllObjects(b) && |b| > 1 && PromptText(b) == PromptText([m])
    ensures Splittable(Tail(m))
  {
    var x, y, rest := b[0], b[1], b[2..];
    assert x in b && y in b && b == [x, y] + rest;
    TextOfTwo(x, y, rest);
    TextOfOne(m);
    var t := (Tail(x) + [MESSAGE_MARK] + Tail(y)) + PromptText(rest);
    assert ([MESSAGE_MARK] + t)[1..] == t && ([MESSAGE_MARK] + Tail(m))[1..] == Tail(m);
    TailHasRoleEnd(x);
    TailHasRoleEnd(y);
    var i, j := |x.role|, |Tail(x)|;
    var k := j + 1 + |y.role|;
    assert t[i] == ROLE_END && t[j] == MESSAGE_MARK && t[k] == ROLE_END;
  }

  /** Every prompt with this text has these messages' texts. */
  ghost predicate Determined(a: seq<Message>)
    requires AllObjects(a)
  {
    forall b :: AllObjects(b) && PromptText(b) == PromptText(a) ==> Tails(b) == Tails(a)
  }

  /** A prompt's text fixes its boundaries against every other prompt exactly when it is empty, or a single message
      whose text cannot be split: any two messages also read as one. */
  lemma DeterminedIff(a: seq<Message>)
    requires AllObjects(a)
    ensures Determined(a) <==> a == [] || (|a| == 1 && !Splittable(Tail(a[0])))
  {
    if |a| > 1 {
      assert a[0] in a && a[1] in a && a == [a[0], a[1]] + a[2..];
      var one := MergedReads(a[0], a[1], a[2..]);
      var b := [one] + a[2..];
      assert |Tails(b)| != |Tails(a)|;
    } else if |a| == 1 && Splittable(Tail(a[0])) {
      var x, y := SplitReads(a[0]);
      assert a == [a[0]];
      assert |Tails([x, y])| != |Tails(a)|;
    } else {
      forall b | AllObjects(b) && PromptText(b) == PromptText(a) ensures Tails(b) == Tails(a) {
        OneReading(a, b);
      }
    }
  }

  lemma OneReading(a: seq<Message>, b: seq<Message>)
    requires AllObjects(a) && AllObjects(b) && PromptText(b) == PromptText(a)
    requires a == [] || (|a| == 1 && !Splittable(Tail(a[0])))
    ensures Tails(b) == Tails(a)
  {
    assert EachUnits([]) == [] && PromptText([]) == [];
    if b != [] {
      PromptTextOfFirst(b);
    }
    if a != [] {
      PromptTextOfFirst(a);
      assert a == [a[0]];
      if |b| > 1 {
        ManyAreSplittable(a[0], b);
      } else if |b| == 1 {
        assert b == [b[0]];
        TextOfOne(a[0]);
        TextOfOne(b[0]);
        assert ([MESSAGE_MARK] + Tail(a[0]))[1..] == Tail(a[0]) && ([MESSAGE_MARK] + Tail(b[0]))[1..] == Tail(b[0]);
      }
    }
  }
}
