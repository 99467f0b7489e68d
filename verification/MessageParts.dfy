/**
  How a message is put together from its events: which events belong to one
  message, which texts and calls they contribute, and under which block index.
 */
module MessageParts {
  import opened JsonValue
  import opened Tables
  import opened Sorting
  import opened ContextEvents
  import opened Exchanges

  // ------------------------------------------------------------------ grouping

  function MessageId(e: Event): string {
    match Get(e.payload, "message_id")
    case Some(Str(id)) => id
    case _ => ""
  }

  /** What an event without a message id goes by: its own id, else its number, else its place in the list. */
  function OwnName(e: Event, index: nat): string {
    if e.id != "" then e.id else if e.seqNo != 0 then Decimal(e.seqNo) else Decimal(index)
  }

  /** Two events belong to one message exactly when they name the same message, or name none and are called the same. */
  lemma SameMessageExactly(a: Event, i: nat, b: Event, j: nat)
    ensures GroupKey(a, i) == GroupKey(b, j) <==>
      MessageId(a) == MessageId(b) && (MessageId(a) == "" ==> OwnName(a, i) == OwnName(b, j))
  {
    var x, y := GroupKey(a, i), GroupKey(b, j);
    hide Decimal;
    assert x[0] == if MessageId(a) != "" then 'm' else 'e';
    assert y[0] == if MessageId(b) != "" then 'm' else 'e';
    assert MessageId(a) != "" ==> x[8..] == MessageId(a);
    assert MessageId(b) != "" ==> y[8..] == MessageId(b);
    assert MessageId(a) == "" ==> x[6..] == OwnName(a, i);
    assert MessageId(b) == "" ==> y[6..] == OwnName(b, j);
  }

  // --------------------------------------------------------------------- texts

  /** The index the next unnumbered text gets: one past the greatest so far, and 0 at first. */
  ghost predicate NextFree(blocks: seq<Keyed<string>>, n: int) {
    && n >= 0 && (forall b | b in blocks :: b.major < n)
    && (n == 0 || exists b :: b in blocks && b.major == n - 1)
  }

  /** The text of an entry of a block list. */
  function BlockText(raw: Json): string {
    match raw
    case Obj(fields) => if "text" in fields && fields["text"].Str? then fields["text"].s else ""
    case _ => ""
  }

  /** The index of an entry: the one it stores, else the next free one. */
  ghost predicate PlacedAt(blocks: seq<Keyed<string>>, raw: Json, index: int) {
    if Get(raw, "block_index").Some? && Get(raw, "block_index").value.Int? then index == Get(raw, "block_index").value.n
    else NextFree(blocks, index)
  }

  /** An entry of a block list contributes its text under the index it stores, or else the next free one; without a text it contributes nothing. */
  lemma BlockIsAdded(texts: Texts, order: nat, position: nat, raw: Json)
    requires NextFree(texts.blocks, texts.fallback)
    ensures var after := AddBlock(texts, order, position, raw);
      && NextFree(after.blocks, after.fallback)
      && (BlockText(raw) == "" ==> after == texts)
      && (BlockText(raw) != "" ==>
            exists index ::
              && PlacedAt(texts.blocks, raw, index)
              && after.blocks == texts.blocks + [Keyed(index, order * 1000 + position, BlockText(raw))])
  {
    var after := AddBlock(texts, order, position, raw);
    if BlockText(raw) != "" {
      var index := IntegerIndex(Get(raw, "block_index"), texts.fallback);
      var b := Keyed(index, order * 1000 + position, BlockText(raw));
      assert PlacedAt(texts.blocks, raw, index) && after.blocks == texts.blocks + [Keyed(index, order * 1000 + position, BlockText(raw))];
      if after.fallback == texts.fallback && after.fallback != 0 {
        var x :| x in texts.blocks && x.major == texts.fallback - 1;
        assert x in after.blocks;
      } else if after.fallback != 0 {
        assert b in after.blocks && b.major == after.fallback - 1;
      }
    }
  }

  /** The text an assistant event without a block list has: under text, or under content when there is no text at all. */
  function PlainText(payload: Json): string {
    match (Get(payload, "text"), Get(payload, "content"))
    case (Some(Str(s)), _) => s
    case (Some(_), _) => ""
    case (None, Some(Str(s))) => s
    case (None, _) => ""
  }

  /** The one text of an event was put under the next free index. */
  ghost predicate OneTextAdded(texts: Texts, m: Member, after: Texts) {
    exists index :: NextFree(texts.blocks, index) && after.blocks == texts.blocks + [Keyed(index, m.order * 1000, PlainText(m.event.payload))]
  }

  /** An assistant event contributes its blocks one by one, or its one text under the next free index; a call contributes no text. */
  lemma MemberIsAdded(texts: Texts, m: Member)
    requires NextFree(texts.blocks, texts.fallback)
    ensures m.event.kind != AssistantMessage ==> AddMember(texts, m) == texts
    ensures forall raw | m.event.kind == AssistantMessage && Get(m.event.payload, "text_blocks") == Some(Arr(raw)) ::
      AddMember(texts, m) == AddBlocksUpTo(texts, m.order, raw, |raw|)
    ensures m.event.kind == AssistantMessage && !HasBlockList(m.event.payload) ==>
      if PlainText(m.event.payload) == "" then AddMember(texts, m) == texts else OneTextAdded(texts, m, AddMember(texts, m))
  {
    assert WholeText(m.event.payload) == PlainText(m.event.payload);
    hide WholeText, PlainText, AddBlocksUpTo, NextFree;
  }

  predicate HasBlockList(payload: Json) {
    Get(payload, "text_blocks").Some? && Get(payload, "text_blocks").value.Arr?
  }

  lemma {:induction false} BlocksKeepFree(texts: Texts, order: nat, raw: seq<Json>, n: nat)
    requires n <= |raw| && NextFree(texts.blocks, texts.fallback)
    ensures var after := AddBlocksUpTo(texts, order, raw, n); NextFree(after.blocks, after.fallback)
  {
    if n > 0 {
      BlocksKeepFree(texts, order, raw, n - 1);
      BlockIsAdded(AddBlocksUpTo(texts, order, raw, n - 1), order, n - 1, raw[n - 1]);
      hide AddBlock, NextFree;
    }
  }

  /** Through the whole message the fallback is the next free index. */
  lemma {:induction false} FallbackIsFree(group: seq<Member>, n: nat)
    requires n <= |group|
    ensures NextFree(TextsUpTo(group, n).blocks, TextsUpTo(group, n).fallback)
  {
    if n > 0 {
      FallbackIsFree(group, n - 1);
      var before, m := TextsUpTo(group, n - 1), group[n - 1];
      hide NextFree, AddBlocksUpTo, WholeText;
      if HasBlockList(m.event.payload) {
        var raw := Get(m.event.payload, "text_blocks").value.items;
        BlocksKeepFree(before, m.order, raw, |raw|);
      } else if m.event.kind.AssistantMessage? && WholeText(m.event.payload) != "" {
        OneMoreFree(before.blocks, before.fallback, Keyed(before.fallback, m.order * 1000, WholeText(m.event.payload)));
      }
    }
  }

  lemma OneMoreFree(blocks: seq<Keyed<string>>, n: int, b: Keyed<string>)
    requires NextFree(blocks, n) && b.major == n
    ensures NextFree(blocks + [b], n + 1)
  {
    assert b in blocks + [b];
  }

  // --------------------------------------------------------------------- calls

  /** The id of a call: the text under the first of the two keys that is there. */
  function CallName(payload: Json): string {
    match (Get(payload, "tool_call_id"), Get(payload, "id"))
    case (Some(Str(s)), _) => s
    case (Some(_), _) => ""
    case (None, Some(Str(s))) => s
    case (None, _) => ""
  }

  /** A call can be shown when it has an id that a later result answers, and a name. */
  lemma ShowableExactly(events: seq<Event>, e: Event, paired: set<string>)
    requires forall id :: id in paired <==> Paired(events, id)
    ensures Showable(e, paired) <==>
      && e.kind == ToolCall && CallName(e.payload) != "" && Paired(events, CallName(e.payload))
      && match Get(e.payload, "name") case Some(Str(name)) => name != "" case _ => false
  {
    hide Paired;
  }

  /** What a call is given: the value under input, else under arguments, else nothing; a text that is JSON itself is decoded. */
  lemma InputIs(codec: Codec, payload: Json)
    ensures ToolInput(codec, RawInput(payload)) ==
      match (if Get(payload, "input").Some? then Get(payload, "input") else Get(payload, "arguments"))
      case None => Obj(map[])
      case Some(Null) => Obj(map[])
      case Some(Str(s)) => (match codec.loads(s) case Some(v) => v case None => Str(s))
      case Some(v) => v
  {
  }

  /** A call stands under its stored block index, or else under its place in the list. */
  lemma CallPlace(codec: Codec, m: Member)
    ensures var call := MemberCall(codec, m);
      && call.minor == m.order && call.item.id == CallName(m.event.payload)
      && match Get(m.event.payload, "block_index") case Some(Int(n)) => call.major == n case _ => call.major == m.order
  {
  }
}
