/** Reading the chat messages out of a Responses request body and writing compacted ones back. */
module ResponsesLens {
  import opened Basics

  datatype Part<D> = TextPart(text: Option<string>, rest: D) | OtherPart(part: D)

  datatype Content<D> = Plain(text: string) | Parts(parts: seq<Part<D>>) | Opaque(value: D)

  datatype Output<D> = OutputText(text: string) | OutputOther(value: D)

  datatype Kind = MessageItem | FunctionCall | FunctionCallOutput | OtherKind

  /** An entry of the input list.  A role that is present but null or empty is `Some("")`. */
  datatype Item<D> =
    | Foreign(value: D)
    | Item(kind: Kind, role: Option<string>, content: Content<D>, output: Output<D>, call: D, callId: D, rest: D)

  datatype Input<D> = NoInput | InputText(text: string) | InputItems(items: seq<Item<D>>)

  datatype Body<D> = Body(instructions: string, input: Input<D>, rest: D)

  datatype Extra<D> = NoExtra | Calls(call: D) | Answers(callId: D)

  datatype ChatMessage<D> = ChatMessage(role: string, content: string, extra: Extra<D>)

  datatype View<D> = View(messages: seq<ChatMessage<D>>, sources: seq<int>)

  datatype Fault = NoMessages | LengthMismatch

  /** Stripping of blanks, and the text that stands for a value that is not text. */
  datatype Rendering<!D> = Rendering(strip: string -> string, dump: D -> string, show: D -> string)

  const INSTRUCTIONS: int := -1
  const WHOLE_INPUT: int := -2

  // ---------------------------------------------------------------- reading

  function PartText<D>(p: Part<D>): string
    requires p.TextPart?
  {
    if p.text.None? then "" else p.text.value
  }

  function Texts<D>(parts: seq<Part<D>>): seq<string> {
    if parts == [] then []
    else (if parts[0].TextPart? then [PartText(parts[0])] else []) + Texts(parts[1..])
  }

  function Join(texts: seq<string>): string {
    if texts == [] then "" else if |texts| == 1 then texts[0] else texts[0] + "\n" + Join(texts[1..])
  }

  function ContentText<D>(r: Rendering<D>, c: Content<D>): string {
    match c
    case Plain(s) => s
    case Parts(parts) => Join(Texts(parts))
    case Opaque(v) => r.dump(v)
  }

  function ReadItem<D>(r: Rendering<D>, item: Item<D>): Option<ChatMessage<D>> {
    if item.Foreign? then None
    else if item.kind == MessageItem || item.role.Some? then
      var role := if item.role.None? || item.role.value == "" then "user" else item.role.value;
      Some(ChatMessage(role, ContentText(r, item.content), NoExtra))
    else if item.kind == FunctionCall then
      Some(ChatMessage("assistant", "", Calls(item.call)))
    else if item.kind == FunctionCallOutput then
      var text := match item.output { case OutputText(s) => s case OutputOther(v) => r.show(v) };
      Some(ChatMessage("tool", text, Answers(item.callId)))
    else None
  }

  /** What each item reads as: a message, or anything with a role, as what it says; a call as an empty answer that
      makes it; the output of a call as what it returned; nothing else is read. */
  lemma ItemsRead<D>(r: Rendering<D>, item: Item<D>)
    ensures var m := ReadItem(r, item);
            && (m.None? <==> item.Foreign? || (item.role.None? && item.kind == OtherKind))
            && (item.Item? && (item.kind == MessageItem || item.role.Some?) ==>
                  && m.value.extra == NoExtra
                  && m.value.role == (if item.role in {None, Some("")} then "user" else item.role.value)
                  && (item.content.Plain? ==> m.value.content == item.content.text)
                  && (item.content.Opaque? ==> m.value.content == r.dump(item.content.value))
                  && (item.content.Parts? ==> m.value.content == Join(Texts(item.content.parts))))
            && (item.Item? && item.role.None? && item.kind == FunctionCall ==>
                  m == Some(ChatMessage("assistant", "", Calls(item.call))))
            && (item.Item? && item.role.None? && item.kind == FunctionCallOutput ==>
                  && m.value.role == "tool" && m.value.extra == Answers(item.callId)
                  && (item.output.OutputText? ==> m.value.content == item.output.text)
                  && (item.output.OutputOther? ==> m.value.content == r.show(item.output.value)))
  {
  }

  /** The text of a list of parts is that of its text parts, in order, with a line break between any two. */
  lemma {:induction false} TextsRead<D>(a: seq<Part<D>>, b: seq<Part<D>>)
    ensures Texts(a + b) == Texts(a) + Texts(b)
    ensures Join(Texts(a + b)) ==
              if Texts(a) == [] then Join(Texts(b))
              else if Texts(b) == [] then Join(Texts(a))
              else Join(Texts(a)) + "\n" + Join(Texts(b))
    ensures |a| == 1 ==>
              Join(Texts(a)) == (if a[0].TextPart? && a[0].text.Some? then a[0].text.value else "")
  {
    TextsAppend(a, b);
    JoinAppend(Texts(a), Texts(b));
    if |a| == 1 { assert a[1..] == []; }
  }

  lemma {:induction false} TextsAppend<D>(a: seq<Part<D>>, b: seq<Part<D>>)
    ensures Texts(a + b) == Texts(a) + Texts(b)
  {
    if a == [] {
      assert a + b == b && Texts(a) == [];
    } else {
      hide Texts;
      TextsAppend(a[1..], b);
      assert a + b == [a[0]] + (a[1..] + b) && a == [a[0]] + a[1..];
      TextsOfCons(a[0], a[1..] + b);
      TextsOfCons(a[0], a[1..]);
      AppendIsAssociative(if a[0].TextPart? then [PartText(a[0])] else [], Texts(a[1..]), Texts(b));
    }
  }

  lemma AppendIsAssociative(a: seq<string>, b: seq<string>, c: seq<string>)
    ensures a + (b + c) == (a + b) + c
  {
  }

  lemma {:induction false} JoinAppend(a: seq<string>, b: seq<string>)
    ensures Join(a + b) == if a == [] then Join(b) else if b == [] then Join(a) else Join(a) + "\n" + Join(b)
  {
    if a == [] {
      assert a + b == b;
    } else if b == [] {
      assert a + b == a;
    } else {
      JoinAppend(a[1..], b);
      assert (a + b)[1..] == a[1..] + b;
    }
  }

  function ReadItems<D>(r: Rendering<D>, items: seq<Item<D>>, n: nat): (v: View<D>)
    requires n <= |items|
    ensures |v.messages| == |v.sources| <= n
  {
    if n == 0 then View([], [])
    else
      var v := ReadItems(r, items, n - 1);
      var m := ReadItem(r, items[n - 1]);
      if m.None? then v else View(v.messages + [m.value], v.sources + [n - 1])
  }

  function Head<D>(r: Rendering<D>, body: Body<D>): (v: View<D>)
    ensures |v.messages| == |v.sources| <= 1
  {
    var text := r.strip(body.instructions);
    if text == "" then View([], []) else View([ChatMessage("developer", text, NoExtra)], [INSTRUCTIONS])
  }

  function Joined<D>(a: View<D>, b: View<D>): View<D> {
    View(a.messages + b.messages, a.sources + b.sources)
  }

  function Read<D>(r: Rendering<D>, body: Body<D>): Result<View<D>, Fault> {
    var head := Head(r, body);
    match body.input
    case InputText(s) => Ok(Joined(head, View([ChatMessage("user", s, NoExtra)], [WHOLE_INPUT])))
    case NoInput => if head.messages == [] then Err(NoMessages) else Ok(head)
    case InputItems(items) =>
      var v := Joined(head, ReadItems(r, items, |items|));
      if v.messages == [] then Err(NoMessages) else Ok(v)
  }

  /** Collects the messages of a request body, each with the place it came from. */
  method ResponsesToMessages<D>(r: Rendering<D>, body: Body<D>) returns (view: Result<View<D>, Fault>)
    ensures view == Read(r, body)
  {
    var messages: seq<ChatMessage<D>> := [];
    var sources: seq<int> := [];
    var instructions := r.strip(body.instructions);
    if instructions != "" {
      messages := messages + [ChatMessage("developer", instructions, NoExtra)];
      sources := sources + [INSTRUCTIONS];
    }
    assert View(messages, sources) == Head(r, body);
    if body.input.InputText? {
      messages := messages + [ChatMessage("user", body.input.text, NoExtra)];
      sources := sources + [WHOLE_INPUT];
      return Ok(View(messages, sources));
    }
    if body.input.InputItems? {
      var items := body.input.items;
      var head := View(messages, sources);
      assert Joined(head, View([], [])) == head;
      for i := 0 to |items|
        invariant View(messages, sources) == Joined(head, ReadItems(r, items, i))
      {
        var m := ReadItem(r, items[i]);
        if m.Some? {
          messages := messages + [m.value];
          sources := sources + [i];
        }
      }
    }
    if messages == [] { return Err(NoMessages); }
    return Ok(View(messages, sources));
  }

  // ---------------------------------------------------------------- writing

  function StoreInParts<D>(parts: seq<Part<D>>, text: string): seq<Part<D>> {
    if parts == [] then []
    else if parts[0].TextPart? then [parts[0].(text := Some(text))] + parts[1..]
    else [parts[0]] + StoreInParts(parts[1..], text)
  }

  function Store<D>(item: Item<D>, text: string): Item<D>
    requires item.Item?
  {
    if item.kind == FunctionCallOutput then item.(output := OutputText(text))
    else match item.content
      case Plain(_) => item.(content := Plain(text))
      case Parts(parts) => item.(content := Parts(StoreInParts(parts, text)))
      case Opaque(_) => item
  }

  predicate Addresses<D>(sources: seq<int>, items: seq<Item<D>>) {
    forall j | 0 <= j < |sources| && sources[j] >= 0 :: sources[j] < |items| && items[sources[j]].Item?
  }

  function Write<D(==)>(
    items: seq<Item<D>>, before: seq<ChatMessage<D>>, after: seq<ChatMessage<D>>, sources: seq<int>, n: nat)
    : (written: seq<Item<D>>)
    requires n <= |before| == |after| == |sources| && Addresses(sources, items)
    ensures |written| == |items| && forall i | 0 <= i < |items| :: written[i].Item? == items[i].Item?
  {
    if n == 0 then items
    else
      var w := Write(items, before, after, sources, n - 1);
      if before[n - 1].content == after[n - 1].content || sources[n - 1] < 0 then w
      else w[sources[n - 1] := Store(w[sources[n - 1]], after[n - 1].content)]
  }

  function Apply<D(==)>(
    body: Body<D>, before: seq<ChatMessage<D>>, after: seq<ChatMessage<D>>, sources: seq<int>)
    : Result<Body<D>, Fault>
    requires body.input.InputItems? ==> Addresses(sources, body.input.items)
  {
    if !body.input.InputItems? then Ok(body)
    else if !(|before| == |after| == |sources|) then Err(LengthMismatch)
    else Ok(body.(input := InputItems(Write(body.input.items, before, after, sources, |sources|))))
  }

  lemma {:induction false} StoredAt<D>(parts: seq<Part<D>>, text: string, i: nat)
    requires i < |parts| && parts[i].TextPart? && forall k | 0 <= k < i :: parts[k].OtherPart?
    ensures StoreInParts(parts, text) == parts[i := parts[i].(text := Some(text))]
    decreases i
  {
    if i > 0 {
      StoredAt(parts[1..], text, i - 1);
      assert [parts[0]] + parts[1..][i - 1 := parts[i].(text := Some(text))]
        == parts[i := parts[i].(text := Some(text))];
    }
  }

  lemma {:induction false} StoredNowhere<D>(parts: seq<Part<D>>, text: string)
    requires forall k | 0 <= k < |parts| :: parts[k].OtherPart?
    ensures StoreInParts(parts, text) == parts
  {
    if parts != [] {
      StoredNowhere(parts[1..], text);
      assert [parts[0]] + parts[1..] == parts;
    }
  }

  /** Puts a text into the first text part of a list of parts. */
  method StoreFirstText<D>(parts: seq<Part<D>>, text: string) returns (stored: seq<Part<D>>)
    ensures stored == StoreInParts(parts, text)
  {
    stored := parts;
    for i := 0 to |parts|
      invariant stored == parts
      invariant forall k | 0 <= k < i :: parts[k].OtherPart?
    {
      if parts[i].TextPart? {
        stored := stored[i := parts[i].(text := Some(text))];
        StoredAt(parts, text, i);
        return;
      }
    }
    StoredNowhere(parts, text);
  }

  /** Writes every changed message back to the item it came from. */
  method ApplyCompaction<D(==)>(
    body: Body<D>, before: seq<ChatMessage<D>>, after: seq<ChatMessage<D>>, sources: seq<int>)
    returns (result: Result<Body<D>, Fault>)
    requires body.input.InputItems? ==> Addresses(sources, body.input.items)
    ensures result == Apply(body, before, after, sources)
  {
    if !body.input.InputItems? { return Ok(body); }
    if !(|before| == |after| == |sources|) { return Err(LengthMismatch); }
    var items := body.input.items;
    for j := 0 to |sources|
      invariant items == Write(body.input.items, before, after, sources, j)
    {
      var source := sources[j];
      if before[j].content != after[j].content && source >= 0 {
        var item := items[source];
        if item.kind == FunctionCallOutput {
          item := item.(output := OutputText(after[j].content));
        } else if item.content.Plain? {
          item := item.(content := Plain(after[j].content));
        } else if item.content.Parts? {
          var parts := StoreFirstText(item.content.parts, after[j].content);
          item := item.(content := Parts(parts));
        }
        items := items[source := item];
      }
    }
    return Ok(body.(input := InputItems(items)));
  }

  // ---------------------------------------------------------------- what an item can hold

  /** Whether writing a text to this item makes reading it return that text. */
  predicate Storable<D>(item: Item<D>)
    requires item.Item?
  {
    if item.kind == MessageItem || item.role.Some? then
      item.kind != FunctionCallOutput
      && (item.content.Plain? || (item.content.Parts? && |Texts(item.content.parts)| == 1))
    else item.kind == FunctionCallOutput
  }

  lemma TextsOfCons<D>(first: Part<D>, rest: seq<Part<D>>)
    ensures Texts([first] + rest) == (if first.TextPart? then [PartText(first)] else []) + Texts(rest)
  {
    assert ([first] + rest)[1..] == rest;
  }

  lemma {:induction false} StoredParts<D>(parts: seq<Part<D>>, text: string)
    ensures Texts(StoreInParts(parts, text))
              == if Texts(parts) == [] then [] else [text] + Texts(parts)[1..]
  {
    if parts != [] {
      hide Texts;
      var first, rest := parts[0], parts[1..];
      assert [first] + rest == parts;
      TextsOfCons(first, rest);
      if first.TextPart? {
        TextsOfCons(first.(text := Some(text)), rest);
        assert ([PartText(first)] + Texts(rest))[1..] == Texts(rest);
      } else {
        StoredParts(rest, text);
        TextsOfCons(first, StoreInParts(rest, text));
        assert [] + Texts(rest) == Texts(rest);
        assert [] + Texts(StoreInParts(rest, text)) == Texts(StoreInParts(rest, text));
      }
    }
  }

  /** A list of parts reads as a newly stored text exactly when one of its parts is text. */
  lemma StoredPartsRead<D>(parts: seq<Part<D>>, text: string)
    requires Join(Texts(parts)) != text
    ensures Join(Texts(StoreInParts(parts, text))) == text <==> |Texts(parts)| == 1
  {
    hide Texts, StoreInParts;
    StoredParts(parts, text);
    var texts := Texts(parts);
    if |texts| > 1 {
      JoinOfMany([text] + texts[1..]);
    } else if |texts| == 1 {
      assert [text] + texts[1..] == [text];
    }
  }

  lemma JoinOfMany(texts: seq<string>)
    requires |texts| > 1
    ensures |Join(texts)| > |texts[0]|
  {
  }

  /** A new text survives the round trip through an item exactly when the item is storable. */
  lemma StoreThenRead<D>(r: Rendering<D>, item: Item<D>, text: string)
    requires item.Item? && ReadItem(r, item).Some? && ReadItem(r, item).value.content != text
    ensures ReadItem(r, Store(item, text)).Some?
    ensures ReadItem(r, Store(item, text)).value.(content := text) == ReadItem(r, item).value.(content := text)
    ensures ReadItem(r, Store(item, text)).value.content == text <==> Storable(item)
  {
    hide Texts, StoreInParts, Join;
    if item.content.Parts? && (item.kind == MessageItem || item.role.Some?) {
      StoredPartsRead(item.content.parts, text);
    }
  }

  // ---------------------------------------------------------------- the laws

  /** Where the message read from item i stands in the view. */
  function Position<D>(r: Rendering<D>, items: seq<Item<D>>, offset: nat, i: nat): nat
    requires i <= |items|
  {
    offset + |ReadItems(r, items, i).messages|
  }

  lemma {:induction false} ReadGrows<D>(r: Rendering<D>, items: seq<Item<D>>, i: nat, n: nat)
    requires i <= n <= |items|
    ensures var a, b := ReadItems(r, items, i), ReadItems(r, items, n);
            |a.messages| <= |b.messages| && a.messages == b.messages[..|a.messages|]
            && a.sources == b.sources[..|a.sources|]
    decreases n
  {
    if i < n { ReadGrows(r, items, i, n - 1); }
  }

  lemma {:induction false} SourcesComeFromItems<D>(r: Rendering<D>, items: seq<Item<D>>, n: nat, j: nat)
    requires n <= |items| && j < |ReadItems(r, items, n).sources|
    ensures var v := ReadItems(r, items, n);
            var i := v.sources[j];
            && 0 <= i < n && items[i].Item? && ReadItem(r, items[i]) == Some(v.messages[j])
            && |ReadItems(r, items, i).messages| == j
    decreases n
  {
    if j < |ReadItems(r, items, n - 1).sources| { SourcesComeFromItems(r, items, n - 1, j); }
  }

  /** The view of a body names only items that the body has. */
  lemma ViewAddresses<D>(r: Rendering<D>, body: Body<D>)
    requires Read(r, body).Ok? && body.input.InputItems?
    ensures Addresses(Read(r, body).value.sources, body.input.items)
  {
    var head, items := Head(r, body), body.input.items;
    var sources := Read(r, body).value.sources;
    forall j | 0 <= j < |sources| && sources[j] >= 0 ensures sources[j] < |items| && items[sources[j]].Item? {
      assert j >= |head.sources|;
      SourcesComeFromItems(r, items, |items|, j - |head.sources|);
    }
  }

  /** Item i after the write-back: its own message decides, and nothing else. */
  function Edited<D(==)>(
    r: Rendering<D>, items: seq<Item<D>>, after: seq<ChatMessage<D>>, offset: nat, i: nat): Item<D>
    requires i < |items|
  {
    var m := ReadItem(r, items[i]);
    var j := Position(r, items, offset, i);
    if m.None? || j >= |after| || m.value.content == after[j].content then items[i]
    else Store(items[i], after[j].content)
  }

  function EditedTo<D(==)>(
    r: Rendering<D>, items: seq<Item<D>>, after: seq<ChatMessage<D>>, offset: nat, n: nat): (e: seq<Item<D>>)
    requires n <= |items|
    ensures |e| == |items|
    ensures forall i | 0 <= i < |items| :: e[i] == if i < n then Edited(r, items, after, offset, i) else items[i]
  {
    seq(|items|, i requires 0 <= i < |items| => if i < n then Edited(r, items, after, offset, i) else items[i])
  }

  /** The view holds the items' messages after at most one message that came from no item. */
  ghost predicate FullView<D>(r: Rendering<D>, items: seq<Item<D>>, v: View<D>, offset: nat) {
    var rest := ReadItems(r, items, |items|);
    && offset <= 1 && |v.messages| == |v.sources| == offset + |rest.messages|
    && (offset == 1 ==> v.sources[0] < 0)
    && v.messages[offset..] == rest.messages && v.sources[offset..] == rest.sources
    && Addresses(v.sources, items)
  }

  lemma ReadIsFull<D>(r: Rendering<D>, body: Body<D>)
    requires Read(r, body).Ok? && body.input.InputItems?
    ensures FullView(r, body.input.items, Read(r, body).value, |Head(r, body).messages|)
  {
    ViewAddresses(r, body);
    var head, v, rest := Head(r, body), Read(r, body).value, ReadItems(r, body.input.items, |body.input.items|);
    assert (head.messages + rest.messages)[|head.messages|..] == rest.messages;
    assert (head.sources + rest.sources)[|head.sources|..] == rest.sources;
  }

  lemma MessageAt<D>(r: Rendering<D>, items: seq<Item<D>>, v: View<D>, offset: nat, i: nat)
    requires FullView(r, items, v, offset) && i < |items|
    ensures Position(r, items, offset, i) <= |v.messages| && Position(r, items, offset, |items|) == |v.messages|
    ensures ReadItem(r, items[i]).Some? ==>
              var j := Position(r, items, offset, i);
              && j < |v.messages| && v.sources[j] == i && v.messages[j] == ReadItem(r, items[i]).value
              && Position(r, items, offset, i + 1) == j + 1
    ensures ReadItem(r, items[i]).None? ==> Position(r, items, offset, i + 1) == Position(r, items, offset, i)
  {
    hide ReadItem;
    ReadGrows(r, items, i, |items|);
    ReadGrows(r, items, i + 1, |items|);
    if ReadItem(r, items[i]).Some? {
      var j := |ReadItems(r, items, i).messages|;
      var upTo := ReadItems(r, items, i + 1);
      assert upTo.sources[j] == i && upTo.messages[j] == ReadItem(r, items[i]).value;
      assert v.messages[offset..][j] == upTo.messages[j] && v.sources[offset..][j] == upTo.sources[j];
    }
  }

  lemma {:induction false} WriteIsEdit<D>(
    r: Rendering<D>, items: seq<Item<D>>, v: View<D>, offset: nat, after: seq<ChatMessage<D>>, n: nat)
    requires FullView(r, items, v, offset) && n <= |items| && |after| == |v.messages|
    ensures Position(r, items, offset, n) <= |v.messages|
    ensures Write(items, v.messages, after, v.sources, Position(r, items, offset, n))
              == EditedTo(r, items, after, offset, n)
    decreases n
  {
    hide ReadItem, Store, ReadItems, EditedTo, Addresses, Position;
    if n == 0 {
      NothingRead(r, items, offset);
      assert Write(items, v.messages, after, v.sources, 0) == items;
    } else {
      WriteIsEdit(r, items, v, offset, after, n - 1);
      MessageAt(r, items, v, offset, n - 1);
      EditsOneMore(r, items, after, offset, n - 1);
    }
  }

  lemma NothingRead<D>(r: Rendering<D>, items: seq<Item<D>>, offset: nat)
    ensures Position(r, items, offset, 0) == offset && ReadItems(r, items, 0) == View([], [])
  {
  }

  lemma EditsOneMore<D>(r: Rendering<D>, items: seq<Item<D>>, after: seq<ChatMessage<D>>, offset: nat, n: nat)
    requires n < |items|
    ensures EditedTo(r, items, after, offset, n + 1)
              == EditedTo(r, items, after, offset, n)[n := Edited(r, items, after, offset, n)]
    ensures EditedTo(r, items, after, offset, n)[n] == items[n]
    ensures EditedTo(r, items, after, offset, n)[n := items[n]] == EditedTo(r, items, after, offset, n)
  {
    hide Edited;
  }

  /** Only the contents of the messages differ. */
  predicate SameShape<D(==)>(before: seq<ChatMessage<D>>, after: seq<ChatMessage<D>>) {
    |before| == |after| && forall j | 0 <= j < |before| :: after[j] == before[j].(content := after[j].content)
  }

  /** A changed message can be written back: it came from an item, and that item is storable. */
  predicate Keepable<D>(body: Body<D>, before: ChatMessage<D>, after: ChatMessage<D>, source: int)
    requires body.input.InputItems? && source >= 0 ==> source < |body.input.items| && body.input.items[source].Item?
  {
    || before.content == after.content
    || (body.input.InputItems? && source >= 0 && Storable(body.input.items[source]))
  }

  lemma {:induction false} UnchangedWritesNothing<D>(
    items: seq<Item<D>>, before: seq<ChatMessage<D>>, sources: seq<int>, n: nat)
    requires n <= |before| == |sources| && Addresses(sources, items)
    ensures Write(items, before, before, sources, n) == items
  {
    if n > 0 { UnchangedWritesNothing(items, before, sources, n - 1); }
  }

  /** First law: writing the messages back unchanged gives the same body. */
  lemma WritingBackTheViewIsIdentity<D>(r: Rendering<D>, body: Body<D>)
    requires Read(r, body).Ok?
    ensures var v := Read(r, body).value;
            && (body.input.InputItems? ==> Addresses(v.sources, body.input.items))
            && Apply(body, v.messages, v.messages, v.sources) == Ok(body)
  {
    hide Read;
    if body.input.InputItems? {
      ReadIsFull(r, body);
      var v := Read(r, body).value;
      UnchangedWritesNothing(body.input.items, v.messages, v.sources, |v.sources|);
    }
  }

  /** Whether the message read from item i either did not change or fits where it came from. */
  ghost predicate Fits<D>(
    r: Rendering<D>, items: seq<Item<D>>, after: seq<ChatMessage<D>>, offset: nat, i: nat)
    requires i < |items|
  {
    var j := Position(r, items, offset, i);
    ReadItem(r, items[i]).Some? && j < |after| ==>
      ReadItem(r, items[i]).value.content == after[j].content || Storable(items[i])
  }

  /** Re-reading an edited item: it is still a message, and it is the compacted one exactly when it fits. */
  lemma ReadEdited<D>(r: Rendering<D>, items: seq<Item<D>>, v: View<D>, offset: nat, after: seq<ChatMessage<D>>, i: nat)
    requires FullView(r, items, v, offset) && SameShape(v.messages, after) && i < |items|
    ensures ReadItem(r, Edited(r, items, after, offset, i)).Some? <==> ReadItem(r, items[i]).Some?
    ensures ReadItem(r, items[i]).Some? ==>
              var j := Position(r, items, offset, i);
              && j < |after|
              && (ReadItem(r, Edited(r, items, after, offset, i)).value == after[j] <==>
                  Fits(r, items, after, offset, i))
    ensures ReadItem(r, items[i]).None? ==> Fits(r, items, after, offset, i)
  {
    hide ReadItem, Store, Storable, FullView;
    MessageAt(r, items, v, offset, i);
    if ReadItem(r, items[i]).Some? {
      var j := Position(r, items, offset, i);
      var m := ReadItem(r, items[i]).value;
      OnlyMessagesAreRead(r, items[i]);
      if m.content != after[j].content { StoreThenRead(r, items[i], after[j].content); }
    }
  }

  lemma OnlyMessagesAreRead<D>(r: Rendering<D>, item: Item<D>)
    requires ReadItem(r, item).Some?
    ensures item.Item?
  {
  }

  lemma {:induction false} ReadEditedTo<D>(
    r: Rendering<D>, items: seq<Item<D>>, v: View<D>, offset: nat, after: seq<ChatMessage<D>>, n: nat)
    requires FullView(r, items, v, offset) && SameShape(v.messages, after) && n <= |items|
    ensures var edited := EditedTo(r, items, after, offset, |items|);
            var j := Position(r, items, offset, n);
            && offset <= j <= |after|
            && ReadItems(r, edited, n).sources == ReadItems(r, items, n).sources
            && (ReadItems(r, edited, n).messages == after[offset..j]
                <==> AllFit(r, items, after, offset, n))
    decreases n
  {
    hide ReadItem, Edited, FullView, SameShape, Fits, AllFit, EditedTo, ReadItems, Position;
    Lengths(r, items, v, offset, after);
    var edited := EditedTo(r, items, after, offset, |items|);
    if n == 0 {
      AllFitNone(r, items, after, offset);
      NothingRead(r, items, offset);
      NothingRead(r, edited, offset);
    } else {
      ReadEditedTo(r, items, v, offset, after, n - 1);
      AllFitStep(r, items, after, offset, n);
      ReadOneMore(r, items, offset, n);
      ReadOneMore(r, edited, offset, n);
      ReadEdited(r, items, v, offset, after, n - 1);
      MessageAt(r, items, v, offset, n - 1);
      var j := Position(r, items, offset, n - 1);
      assert edited[n - 1] == Edited(r, items, after, offset, n - 1);
      if ReadItem(r, items[n - 1]).Some? {
        var before, last := ReadItems(r, edited, n - 1).messages, ReadItem(r, edited[n - 1]).value;
        assert after[offset..j + 1] == after[offset..j] + [after[j]];
        LastOfEqual(before, last, after[offset..j], after[j]);
      }
    }
  }

  lemma ReadOneMore<D>(r: Rendering<D>, items: seq<Item<D>>, offset: nat, n: nat)
    requires 0 < n <= |items|
    ensures var v, m := ReadItems(r, items, n - 1), ReadItem(r, items[n - 1]);
            && ReadItems(r, items, n) == (if m.None? then v else View(v.messages + [m.value], v.sources + [n - 1]))
            && Position(r, items, offset, n - 1) == offset + |v.messages|
  {
  }

  ghost predicate AllFit<D>(
    r: Rendering<D>, items: seq<Item<D>>, after: seq<ChatMessage<D>>, offset: nat, n: nat)
    requires n <= |items|
  {
    forall i | 0 <= i < n :: Fits(r, items, after, offset, i)
  }

  lemma AllFitNone<D>(r: Rendering<D>, items: seq<Item<D>>, after: seq<ChatMessage<D>>, offset: nat)
    ensures AllFit(r, items, after, offset, 0)
  {
  }

  lemma AllFitStep<D>(r: Rendering<D>, items: seq<Item<D>>, after: seq<ChatMessage<D>>, offset: nat, n: nat)
    requires 0 < n <= |items|
    ensures AllFit(r, items, after, offset, n) <==>
              AllFit(r, items, after, offset, n - 1) && Fits(r, items, after, offset, n - 1)
  {
    hide Fits;
  }

  lemma Lengths<D>(r: Rendering<D>, items: seq<Item<D>>, v: View<D>, offset: nat, after: seq<ChatMessage<D>>)
    requires FullView(r, items, v, offset) && SameShape(v.messages, after)
    ensures offset <= |v.messages| == |after| == |v.sources|
  {
  }

  lemma LastOfEqual<T>(a: seq<T>, x: T, b: seq<T>, y: T)
    requires |a| == |b|
    ensures a + [x] == b + [y] <==> a == b && x == y
  {
    if a + [x] == b + [y] {
      assert (a + [x])[..|a|] == a && (b + [y])[..|b|] == b;
      assert (a + [x])[|a|] == x && (b + [y])[|b|] == y;
    }
  }

  /** Which messages can be kept, told by message and told by item. */
  lemma KeepableIsFit<D>(r: Rendering<D>, body: Body<D>, after: seq<ChatMessage<D>>)
    requires Read(r, body).Ok? && body.input.InputItems? && SameShape(Read(r, body).value.messages, after)
    requires FullView(r, body.input.items, Read(r, body).value, |Head(r, body).messages|)
    ensures var v, items, offset := Read(r, body).value, body.input.items, |Head(r, body).messages|;
            (forall j | offset <= j < |after| :: Keepable(body, v.messages[j], after[j], v.sources[j])) <==>
              AllFit(r, items, after, offset, |items|)
  {
    hide ReadItem, Storable, Read, SameShape, ReadItems;
    var v, items, offset := Read(r, body).value, body.input.items, |Head(r, body).messages|;
    Lengths(r, items, v, offset, after);
    forall i | 0 <= i < |items| && ReadItem(r, items[i]).Some?
      ensures var j := Position(r, items, offset, i);
              && offset <= j < |after| && v.sources[j] == i
              && (Fits(r, items, after, offset, i) <==> Keepable(body, v.messages[j], after[j], v.sources[j]))
    {
      MessageAt(r, items, v, offset, i);
      OnlyMessagesAreRead(r, items[i]);
    }
    forall j | offset <= j < |after|
      ensures var i := v.sources[j];
              && 0 <= i < |items| && ReadItem(r, items[i]).Some? && Position(r, items, offset, i) == j
    {
      SourcesComeFromItems(r, items, |items|, j - offset);
      assert v.sources[j] == v.sources[offset..][j - offset];
    }
  }

  /** Second law: reading the written-back body gives the compacted messages, from the same places, exactly
      when every changed message came from an item that can hold a new text. */
  lemma RereadingGivesTheCompactedView<D>(r: Rendering<D>, body: Body<D>, after: seq<ChatMessage<D>>)
    requires Read(r, body).Ok? && SameShape(Read(r, body).value.messages, after)
    requires body.input.InputItems? ==> Addresses(Read(r, body).value.sources, body.input.items)
    ensures var v := Read(r, body).value;
            var written := Apply(body, v.messages, after, v.sources);
            && written.Ok? && |v.sources| == |after|
            && (Read(r, written.value) == Ok(View(after, v.sources))
                <==> forall j | 0 <= j < |after| :: Keepable(body, v.messages[j], after[j], v.sources[j]))
  {
    var v := Read(r, body).value;
    if body.input.InputItems? {
      RereadingItems(r, body, after);
    } else {
      assert v.messages == after
        <==> forall j | 0 <= j < |after| :: Keepable(body, v.messages[j], after[j], v.sources[j]);
    }
  }

  lemma RereadingItems<D>(r: Rendering<D>, body: Body<D>, after: seq<ChatMessage<D>>)
    requires Read(r, body).Ok? && SameShape(Read(r, body).value.messages, after)
    requires body.input.InputItems? && Addresses(Read(r, body).value.sources, body.input.items)
    ensures var v := Read(r, body).value;
            var written := Apply(body, v.messages, after, v.sources);
            && written.Ok? && |v.sources| == |after|
            && (Read(r, written.value) == Ok(View(after, v.sources))
                <==> forall j | 0 <= j < |after| :: Keepable(body, v.messages[j], after[j], v.sources[j]))
  {
    hide ReadItem, ReadItems, EditedTo, Storable, AllFit, Keepable, FullView, SameShape, Head, Read, Position, Apply;
    var v, items, head := Read(r, body).value, body.input.items, Head(r, body);
    var offset, n := |head.messages|, |items|;
    ReadIsFull(r, body);
    Lengths(r, items, v, offset, after);
    MessageCount(r, items, v, offset);
    WritingIsEditing(r, body, after);
    ReadEditedTo(r, items, v, offset, after, n);
    RereadingEdited(r, body, after);
    KeepableIsFit(r, body, after);
    HeadIsKept(r, body, after);
    assert after[offset..|after|] == after[offset..];
  }

  lemma WritingIsEditing<D>(r: Rendering<D>, body: Body<D>, after: seq<ChatMessage<D>>)
    requires Read(r, body).Ok? && SameShape(Read(r, body).value.messages, after)
    requires body.input.InputItems? && Addresses(Read(r, body).value.sources, body.input.items)
    ensures var v, items := Read(r, body).value, body.input.items;
            Apply(body, v.messages, after, v.sources)
              == Ok(body.(input := InputItems(EditedTo(r, items, after, |Head(r, body).messages|, |items|))))
  {
    hide ReadItem, ReadItems, Write, EditedTo, FullView, SameShape, Head, Read, Position;
    var v, items, offset := Read(r, body).value, body.input.items, |Head(r, body).messages|;
    ReadIsFull(r, body);
    Lengths(r, items, v, offset, after);
    MessageCount(r, items, v, offset);
    WriteIsEdit(r, items, v, offset, after, |items|);
  }

  /** The edited body reads as the compacted view when its head and its items do. */
  lemma RereadingEdited<D>(r: Rendering<D>, body: Body<D>, after: seq<ChatMessage<D>>)
    requires Read(r, body).Ok? && |Read(r, body).value.messages| == |after| && body.input.InputItems?
    requires var items, offset := body.input.items, |Head(r, body).messages|;
             ReadItems(r, EditedTo(r, items, after, offset, |items|), |items|).sources
               == ReadItems(r, items, |items|).sources
    ensures var v, items, head := Read(r, body).value, body.input.items, Head(r, body);
            var edited := EditedTo(r, items, after, |head.messages|, |items|);
            && |head.messages| <= |after|
            && (Read(r, body.(input := InputItems(edited))) == Ok(View(after, v.sources)) <==>
                  head.messages == after[..|head.messages|]
                  && ReadItems(r, edited, |items|).messages == after[|head.messages|..])
  {
    hide ReadItem, ReadItems, EditedTo, Head, Read;
    var items, head := body.input.items, Head(r, body);
    var edited := EditedTo(r, items, after, |head.messages|, |items|);
    ReadOfItems(r, body, items);
    ReadOfItems(r, body, edited);
    SplitEqual(head.messages, ReadItems(r, edited, |items|).messages, after);
  }

  lemma ReadOfItems<D>(r: Rendering<D>, body: Body<D>, items: seq<Item<D>>)
    ensures var v := Joined(Head(r, body), ReadItems(r, items, |items|));
            Read(r, body.(input := InputItems(items))) == if v.messages == [] then Err(NoMessages) else Ok(v)
  {
    hide ReadItems;
  }

  /** A changed instruction is never written back. */
  lemma HeadIsKept<D>(r: Rendering<D>, body: Body<D>, after: seq<ChatMessage<D>>)
    requires Read(r, body).Ok? && body.input.InputItems? && SameShape(Read(r, body).value.messages, after)
    requires FullView(r, body.input.items, Read(r, body).value, |Head(r, body).messages|)
    ensures var v, head := Read(r, body).value, Head(r, body);
            && |head.messages| <= |after|
            && (head.messages == after[..|head.messages|] <==>
                  forall j | 0 <= j < |head.messages| :: Keepable(body, v.messages[j], after[j], v.sources[j]))
  {
    hide ReadItem, ReadItems, Storable;
  }

  lemma SplitEqual<T>(a: seq<T>, b: seq<T>, c: seq<T>)
    requires |a| + |b| == |c|
    ensures a + b == c <==> a == c[..|a|] && b == c[|a|..]
  {
    if a + b == c {
      assert (a + b)[..|a|] == a && (a + b)[|a|..] == b;
    }
  }

  lemma MessageCount<D>(r: Rendering<D>, items: seq<Item<D>>, v: View<D>, offset: nat)
    requires FullView(r, items, v, offset)
    ensures Position(r, items, offset, |items|) == |v.messages|
  {
  }

  /** The body of one user message in two parts. */
  function InTwoParts<D>(first: string, second: string, d: D): Body<D> {
    var parts := [TextPart(Some(first), d), TextPart(Some(second), d)];
    Body("", InputItems([Item(MessageItem, Some("user"), Parts(parts), OutputOther(d), d, d, d)]), d)
  }

  lemma ReadTwoParts<D>(r: Rendering<D>, first: string, second: string, d: D)
    requires r.strip("") == ""
    ensures Read(r, InTwoParts(first, second, d)) == Ok(View([ChatMessage("user", first + "\n" + second, NoExtra)],
                                                             [0]))
  {
    var one, two := TextPart(Some(first), d), TextPart(Some(second), d);
    var items := InTwoParts(first, second, d).input.items;
    assert [one, two] == [one] + [two] && [two] == [two] + [];
    TextsOfCons(one, [two]);
    TextsOfCons(two, []);
    assert Texts([one, two]) == [first, second];
    assert [first, second][1..] == [second];
    assert Join([first, second]) == first + "\n" + second;
    assert items[0].content == Parts([one, two]);
    assert ReadItem(r, items[0]) == Some(ChatMessage("user", first + "\n" + second, NoExtra));
    ReadOneMore(r, items, 0, 1);
    NothingRead(r, items, 0);
    ReadOfItems(r, InTwoParts(first, second, d), items);
    var message: ChatMessage<D> := ChatMessage("user", first + "\n" + second, NoExtra);
    assert [] + [message] == [message] && [] + [0] == [0];
    assert ReadItems(r, items, 1) == View([message], [0]);
  }

  lemma WriteTwoParts<D>(
    first: string, second: string, d: D, text: string, before: seq<ChatMessage<D>>, after: seq<ChatMessage<D>>)
    requires |before| == |after| == 1 && before[0].content != after[0].content && after[0].content == text
    ensures var items := InTwoParts(first, second, d).input.items;
            Write(items, before, after, [0], 1) == InTwoParts(text, second, d).input.items
  {
    var items := InTwoParts(first, second, d).input.items;
    StoredAt(items[0].content.parts, text, 0);
    assert Store(items[0], text).content.parts == InTwoParts(text, second, d).input.items[0].content.parts;
    assert Write(items, before, after, [0], 0) == items;
  }

  /** Such a message cannot be rewritten: the new text takes the place of the first part, the second stays. */
  lemma SecondPartSurvives<D>(r: Rendering<D>, first: string, second: string, d: D, text: string)
    requires r.strip("") == "" && text != first + "\n" + second
    ensures var body, after := InTwoParts(first, second, d), [ChatMessage("user", text, NoExtra)];
            && Read(r, body).Ok? && Addresses(Read(r, body).value.sources, body.input.items)
            && var v := Read(r, body).value;
               SameShape(v.messages, after)
               && Apply(body, v.messages, after, v.sources) == Ok(InTwoParts(text, second, d))
               && Read(r, InTwoParts(text, second, d)) != Ok(View(after, v.sources))
  {
    hide Read, Write, Store, StoreInParts;
    ReadTwoParts(r, first, second, d);
    ReadTwoParts(r, text, second, d);
    var after := [ChatMessage("user", text, NoExtra)];
    WriteTwoParts(first, second, d, text, Read(r, InTwoParts(first, second, d)).value.messages, after);
    assert |text + "\n" + second| > |text|;
  }

  /** Two items that differ at most in the text they hold. */
  predicate SameButText<D(==)>(a: Item<D>, b: Item<D>) {
    if a.Foreign? then b == a
    else
      && b.Item? && b == a.(content := b.content, output := b.output)
      && (a.kind == FunctionCallOutput || b.output == a.output)
      && (a.content.Opaque? ==> b.content == a.content)
      && (a.content.Plain? ==> b.content.Plain?)
      && (a.content.Parts? ==> b.content.Parts? && SamePartsButText(a.content.parts, b.content.parts))
  }

  predicate SamePartsButText<D(==)>(a: seq<Part<D>>, b: seq<Part<D>>) {
    |a| == |b| && forall k | 0 <= k < |a| ::
      b[k] == a[k] || (a[k].TextPart? && b[k].TextPart? && b[k].rest == a[k].rest)
  }

  lemma {:induction false} StoredPartsKeepTheRest<D>(parts: seq<Part<D>>, text: string)
    ensures SamePartsButText(parts, StoreInParts(parts, text))
  {
    if parts != [] && parts[0].OtherPart? { StoredPartsKeepTheRest(parts[1..], text); }
  }

  /** Third law: an item none of whose messages changed stays as it was, and a rewritten one keeps
      everything but its text. */
  lemma OnlyChangedTextIsWritten<D>(r: Rendering<D>, body: Body<D>, after: seq<ChatMessage<D>>, i: nat)
    requires Read(r, body).Ok? && |after| == |Read(r, body).value.messages|
    requires body.input.InputItems? && Addresses(Read(r, body).value.sources, body.input.items)
    requires i < |body.input.items|
    ensures var v := Read(r, body).value;
            var written := Apply(body, v.messages, after, v.sources);
            && |v.sources| == |after|
            && written.Ok? && written.value == body.(input := written.value.input) && written.value.input.InputItems?
            && |written.value.input.items| == |body.input.items|
            && SameButText(body.input.items[i], written.value.input.items[i])
            && ((forall j | 0 <= j < |after| && v.sources[j] == i :: after[j].content == v.messages[j].content) ==>
                  written.value.input.items[i] == body.input.items[i])
  {
    hide ReadItem, ReadItems, Write, StoreInParts, Read;
    var v, items, offset := Read(r, body).value, body.input.items, |Head(r, body).messages|;
    ReadIsFull(r, body);
    MessageCount(r, items, v, offset);
    WriteIsEdit(r, items, v, offset, after, |items|);
    MessageAt(r, items, v, offset, i);
    var j := Position(r, items, offset, i);
    if ReadItem(r, items[i]).Some? {
      OnlyMessagesAreRead(r, items[i]);
      if items[i].content.Parts? { StoredPartsKeepTheRest(items[i].content.parts, after[j].content); }
    }
  }
}
