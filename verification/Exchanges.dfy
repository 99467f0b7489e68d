/**
  Which events make one assistant message, which calls it may show, and which
  result answers a call.
 */
module Exchanges {
  import opened JsonValue
  import opened Tables
  import opened Sorting
  import opened ContextEvents

  predicate Spoken(e: Event) {
    e.kind.AssistantMessage? || e.kind.ToolCall?
  }

  /** `_assistant_group_key`. */
  function GroupKey(e: Event, index: nat): string {
    var reply := TextAt(e.payload, "message_id");
    if reply != "" then "message:" + reply
    else "event:" + (if e.id != "" then e.id else if e.seqNo != 0 then Decimal(e.seqNo) else Decimal(index))
  }

  datatype Member = Member(order: nat, event: Event)

  /** The members among the first `n` events of the group called `key`. */
  function GroupUpTo(events: seq<Event>, key: string, n: nat): seq<Member>
    requires n <= |events|
  {
    if n == 0 then []
    else
      var before := GroupUpTo(events, key, n - 1);
      if Spoken(events[n - 1]) && GroupKey(events[n - 1], n - 1) == key then before + [Member(n - 1, events[n - 1])]
      else before
  }

  function Group(events: seq<Event>, key: string): seq<Member> {
    GroupUpTo(events, key, |events|)
  }

  /** A group holds exactly the spoken events with its key, in log order. */
  lemma {:induction false} GroupMembers(events: seq<Event>, key: string, n: nat)
    requires n <= |events|
    ensures var r := GroupUpTo(events, key, n);
      && (forall m | m in r :: m.order < n && m.event == events[m.order] && Spoken(m.event) && GroupKey(m.event, m.order) == key)
      && (forall i, j | 0 <= i < j < |r| :: r[i].order < r[j].order)
      && (forall k | 0 <= k < n && Spoken(events[k]) && GroupKey(events[k], k) == key :: Member(k, events[k]) in r)
  {
    if n > 0 { GroupMembers(events, key, n - 1); }
  }

  /** `_assistant_groups`. */
  method AssistantGroups(events: seq<Event>) returns (groups: map<string, seq<Member>>)
    ensures forall key | key in groups :: groups[key] == Group(events, key)
    ensures forall i | 0 <= i < |events| && Spoken(events[i]) :: GroupKey(events[i], i) in groups
  {
    groups := map[];
    for index := 0 to |events|
      invariant forall key :: (if key in groups then groups[key] else []) == GroupUpTo(events, key, index)
      invariant forall i | 0 <= i < index && Spoken(events[i]) :: GroupKey(events[i], i) in groups
    {
      var event := events[index];
      if !(event.kind.AssistantMessage? || event.kind.ToolCall?) { continue; }
      var key := GroupKey(event, index);
      var members := if key in groups then groups[key] else [];
      groups := groups[key := members + [Member(index, event)]];
    }
  }

  // ---------------------------------------------------------------- pairing

  predicate CallAt(events: seq<Event>, i: nat, id: string)
    requires i < |events|
  {
    events[i].kind.ToolCall? && ToolCallId(events[i].payload) == id
  }

  predicate ResultAt(events: seq<Event>, i: nat, id: string)
    requires i < |events|
  {
    events[i].kind.ToolResult? && ToolResultId(events[i].payload) == id
  }

  /** Some call with this id is followed by a result with it. */
  predicate Paired(events: seq<Event>, id: string) {
    id != "" && exists i, j | 0 <= i < j < |events| :: CallAt(events, i, id) && ResultAt(events, j, id)
  }

  /** `_paired_tool_call_ids`. */
  method PairedToolCallIds(events: seq<Event>) returns (paired: set<string>)
    ensures forall id :: id in paired <==> Paired(events, id)
  {
    var callPositions: map<string, nat> := map[];
    paired := {};
    for index := 0 to |events|
      invariant forall i | 0 <= i < index && events[i].kind.ToolCall? && ToolCallId(events[i].payload) != "" ::
        ToolCallId(events[i].payload) in callPositions
      invariant forall id | id in callPositions :: id != "" && callPositions[id] < index && CallAt(events, callPositions[id], id)
      invariant forall id | id in paired :: Paired(events, id)
      invariant forall id, i, j | 0 <= i < j < index && id != "" && CallAt(events, i, id) && ResultAt(events, j, id) :: id in paired
    {
      var payload := events[index].payload;
      if events[index].kind.ToolCall? {
        var id := ToolCallId(payload);
        if id != "" && id !in callPositions {
          callPositions := callPositions[id := index];
        }
      } else if events[index].kind.ToolResult? {
        var id := ToolResultId(payload);
        if id != "" && id in callPositions && callPositions[id] < index {
          assert CallAt(events, callPositions[id], id) && ResultAt(events, index, id);
          paired := paired + {id};
        }
      }
    }
  }

  /** The payload of the first result with this id among the first `n` events. */
  function FirstResult(events: seq<Event>, id: string, n: nat): Option<Json>
    requires n <= |events|
  {
    if n == 0 then None
    else
      var before := FirstResult(events, id, n - 1);
      if before.Some? then before
      else if ResultAt(events, n - 1, id) then Some(events[n - 1].payload)
      else None
  }

  /** The result payload shown for a call. */
  function ResultFor(events: seq<Event>, id: string): Option<Json> {
    FirstResult(events, id, |events|)
  }

  lemma {:induction false} ResultIsFound(events: seq<Event>, id: string, n: nat, j: nat)
    requires j < n <= |events| && ResultAt(events, j, id)
    ensures FirstResult(events, id, n).Some?
  {
    if j < n - 1 { ResultIsFound(events, id, n - 1, j); }
  }

  /** A paired call has a result to show. */
  lemma PairedHasResult(events: seq<Event>, id: string)
    requires Paired(events, id)
    ensures ResultFor(events, id).Some?
  {
    var i, j :| 0 <= i < j < |events| && CallAt(events, i, id) && ResultAt(events, j, id);
    ResultIsFound(events, id, |events|, j);
  }

  /** `_paired_tool_results`. */
  method PairedToolResults(events: seq<Event>, paired: set<string>) returns (results: map<string, Json>)
    requires forall id :: id in paired <==> Paired(events, id)
    ensures results.Keys == paired
    ensures forall id | id in paired :: Some(results[id]) == ResultFor(events, id)
  {
    results := map[];
    for index := 0 to |events|
      invariant forall id | id in results :: id in paired
      invariant forall id | id in paired ::
        (if id in results then Some(results[id]) else None) == FirstResult(events, id, index)
    {
      if !events[index].kind.ToolResult? { continue; }
      var payload := events[index].payload;
      var id := ToolResultId(payload);
      if id in paired && id !in results {
        results := results[id := payload];
      }
    }
    forall id | id in paired ensures id in results {
      PairedHasResult(events, id);
    }
  }

  // ---------------------------------------------------- parts of one message

  /** `_integer_index`. */
  function IntegerIndex(value: Option<Json>, fallback: int): int {
    match value
    case Some(Int(n)) => n
    case _ => fallback
  }

  /** Texts gathered so far, and the block index the next unnumbered text gets. */
  datatype Texts = Texts(blocks: seq<Keyed<string>>, fallback: int)

  function Max(a: int, b: int): int {
    if a < b then b else a
  }

  /** One entry of a `text_blocks` list. */
  function AddBlock(texts: Texts, order: nat, position: nat, raw: Json): Texts {
    if !raw.Obj? || TextAt(raw, "text") == "" then texts
    else
      var blockIndex := IntegerIndex(Get(raw, "block_index"), texts.fallback);
      Texts(texts.blocks + [Keyed(blockIndex, order * 1000 + position, TextAt(raw, "text"))],
            Max(texts.fallback, blockIndex + 1))
  }

  function AddBlocksUpTo(texts: Texts, order: nat, raw: seq<Json>, n: nat): Texts
    requires n <= |raw|
  {
    if n == 0 then texts else AddBlock(AddBlocksUpTo(texts, order, raw, n - 1), order, n - 1, raw[n - 1])
  }

  /** The text of an assistant event without a block list. */
  function WholeText(payload: Json): string {
    TextOf(EitherKey(payload, "text", "content"))
  }

  function AddMember(texts: Texts, m: Member): Texts {
    if !m.event.kind.AssistantMessage? then texts
    else
      match Get(m.event.payload, "text_blocks")
      case Some(Arr(raw)) => AddBlocksUpTo(texts, m.order, raw, |raw|)
      case _ =>
        if WholeText(m.event.payload) == "" then texts
        else Texts(texts.blocks + [Keyed(texts.fallback, m.order * 1000, WholeText(m.event.payload))], texts.fallback + 1)
  }

  function TextsUpTo(group: seq<Member>, n: nat): Texts
    requires n <= |group|
  {
    if n == 0 then Texts([], 0) else AddMember(TextsUpTo(group, n - 1), group[n - 1])
  }

  /** The text blocks of a message, in block order. */
  function GroupTexts(group: seq<Member>): seq<Keyed<string>> {
    Sort(TextsUpTo(group, |group|).blocks)
  }

  /** `_group_text_blocks`. */
  method GroupTextBlocks(group: seq<Member>) returns (texts: seq<Keyed<string>>)
    ensures texts == GroupTexts(group)
  {
    var blocks: seq<Keyed<string>> := [];
    var fallbackIndex := 0;
    for index := 0 to |group|
      invariant Texts(blocks, fallbackIndex) == TextsUpTo(group, index)
    {
      var order, event := group[index].order, group[index].event;
      if !event.kind.AssistantMessage? { continue; }
      var rawBlocks := Get(event.payload, "text_blocks");
      if rawBlocks.Some? && rawBlocks.value.Arr? {
        var raw := rawBlocks.value.items;
        ghost var before := Texts(blocks, fallbackIndex);
        for position := 0 to |raw|
          invariant Texts(blocks, fallbackIndex) == AddBlocksUpTo(before, order, raw, position)
        {
          if !raw[position].Obj? { continue; }
          var text := TextAt(raw[position], "text");
          if text == "" { continue; }
          var blockIndex := IntegerIndex(Get(raw[position], "block_index"), fallbackIndex);
          blocks := blocks + [Keyed(blockIndex, order * 1000 + position, text)];
          fallbackIndex := Max(fallbackIndex, blockIndex + 1);
        }
      } else {
        var text := WholeText(event.payload);
        if text != "" {
          blocks := blocks + [Keyed(fallbackIndex, order * 1000, text)];
          fallbackIndex := fallbackIndex + 1;
        }
      }
    }
    texts := Sort(blocks);
  }

  datatype Call = Call(id: string, name: string, input: Json)

  /** `_tool_input`: a text that is itself JSON is decoded, nothing becomes an empty object. */
  function ToolInput(codec: Codec, value: Json): Json {
    match value
    case Str(s) => (match codec.loads(s) case Some(v) => v case None => value)
    case Null => Obj(map[])
    case _ => value
  }

  function RawInput(payload: Json): Json {
    match EitherKey(payload, "input", "arguments")
    case Some(v) => v
    case None => Obj(map[])
  }

  /** A call event that can be shown: it has an id, an answer and a name. */
  predicate Showable(e: Event, paired: set<string>) {
    && e.kind.ToolCall? && ToolCallId(e.payload) != "" && ToolCallId(e.payload) in paired
    && TextAt(e.payload, "name") != ""
  }

  function MemberCall(codec: Codec, m: Member): Keyed<Call> {
    Keyed(IntegerIndex(Get(m.event.payload, "block_index"), m.order), m.order,
          Call(ToolCallId(m.event.payload), TextAt(m.event.payload, "name"), ToolInput(codec, RawInput(m.event.payload))))
  }

  /** The ids of the showable calls among the first `n` members. */
  function ShownIds(group: seq<Member>, paired: set<string>, n: nat): set<string>
    requires n <= |group|
  {
    if n == 0 then {}
    else
      ShownIds(group, paired, n - 1)
      + if Showable(group[n - 1].event, paired) then {ToolCallId(group[n - 1].event.payload)} else {}
  }

  lemma {:induction false} ShownIdsHas(group: seq<Member>, paired: set<string>, n: nat, i: nat)
    requires i < n <= |group| && Showable(group[i].event, paired)
    ensures ToolCallId(group[i].event.payload) in ShownIds(group, paired, n)
  {
    if i < n - 1 { ShownIdsHas(group, paired, n - 1, i); }
  }

  lemma {:induction false} ShownIdsFrom(group: seq<Member>, paired: set<string>, n: nat, id: string) returns (i: nat)
    requires n <= |group| && id in ShownIds(group, paired, n)
    ensures i < n && Showable(group[i].event, paired) && ToolCallId(group[i].event.payload) == id
  {
    var e := group[n - 1].event;
    if Showable(e, paired) && ToolCallId(e.payload) == id { i := n - 1; }
    else { i := ShownIdsFrom(group, paired, n - 1, id); }
  }

  /** The calls of the first `n` members, each id once. */
  function CallsUpTo(codec: Codec, group: seq<Member>, paired: set<string>, n: nat): seq<Keyed<Call>>
    requires n <= |group|
  {
    if n == 0 then []
    else
      var before := CallsUpTo(codec, group, paired, n - 1);
      var e := group[n - 1].event;
      if Showable(e, paired) && ToolCallId(e.payload) !in ShownIds(group, paired, n - 1)
      then before + [MemberCall(codec, group[n - 1])]
      else before
  }

  /** The calls of a message, in block order. */
  function GroupCalls(codec: Codec, group: seq<Member>, paired: set<string>): seq<Keyed<Call>> {
    Sort(CallsUpTo(codec, group, paired, |group|))
  }

  /** `_group_tool_calls`. */
  method GroupToolCalls(codec: Codec, group: seq<Member>, paired: set<string>) returns (calls: seq<Keyed<Call>>)
    ensures calls == GroupCalls(codec, group, paired)
  {
    calls := [];
    var seenIds: set<string> := {};
    for index := 0 to |group|
      invariant calls == CallsUpTo(codec, group, paired, index)
      invariant seenIds == ShownIds(group, paired, index)
    {
      var order, event := group[index].order, group[index].event;
      if !event.kind.ToolCall? { continue; }
      var id := ToolCallId(event.payload);
      var name := TextAt(event.payload, "name");
      if id == "" || id !in paired || name == "" { continue; }
      if id in seenIds {
        assert seenIds == seenIds + {id};
        continue;
      }
      var blockIndex := IntegerIndex(Get(event.payload, "block_index"), order);
      calls := calls + [Keyed(blockIndex, order, Call(id, name, ToolInput(codec, RawInput(event.payload))))];
      seenIds := seenIds + {id};
    }
    calls := Sort(calls);
  }

  function Ids(calls: seq<Keyed<Call>>): (r: seq<string>)
  {
    seq(|calls|, i requires 0 <= i < |calls| => calls[i].item.id)
  }

  ghost predicate DistinctIds(calls: seq<Keyed<Call>>) {
    forall i, j | 0 <= i < j < |calls| :: calls[i].item.id != calls[j].item.id
  }

  /** Within one message each showable id appears once, and no other id does. */
  lemma {:induction false} CallsUpToIds(codec: Codec, group: seq<Member>, paired: set<string>, n: nat)
    requires n <= |group|
    ensures DistinctIds(CallsUpTo(codec, group, paired, n))
    ensures forall id :: id in Ids(CallsUpTo(codec, group, paired, n)) <==> id in ShownIds(group, paired, n)
  {
    if n > 0 {
      CallsUpToIds(codec, group, paired, n - 1);
      var before, calls := CallsUpTo(codec, group, paired, n - 1), CallsUpTo(codec, group, paired, n);
      var e := group[n - 1].event;
      if calls != before {
        forall i | 0 <= i < |before| ensures before[i].item.id != ToolCallId(e.payload) {
          assert Ids(before)[i] in Ids(before);
        }
        assert Ids(calls) == Ids(before) + [ToolCallId(e.payload)] by {
          assert forall k | 0 <= k < |calls| :: Ids(calls)[k] == calls[k].item.id;
        }
      }
    }
  }

  lemma IdsFollowMembers(a: seq<Keyed<Call>>, b: seq<Keyed<Call>>, id: string)
    requires forall x | x in a :: x in b
    requires id in Ids(a)
    ensures id in Ids(b)
  {
    var i :| 0 <= i < |a| && Ids(a)[i] == id;
    assert a[i] in b;
    var k :| 0 <= k < |b| && b[k] == a[i];
    assert Ids(b)[k] == id;
  }

  lemma SortKeepsDistinct(raw: seq<Keyed<Call>>)
    requires DistinctIds(raw)
    ensures DistinctIds(Sort(raw))
  {
    var calls := Sort(raw);
    SortPermutes(raw);
    SameMembers(raw);
    forall i, j | 0 <= i < j < |calls| ensures calls[i].item.id != calls[j].item.id {
      if calls[i].item.id == calls[j].item.id {
        SameIdSameCall(raw, calls[i], calls[j]);
        TwiceMeansTwice(calls, i, j);
        OnceMeansOnce(raw, calls[i]);
      }
    }
  }

  /** A message shows exactly the showable ids of its group, each once. */
  lemma GroupCallIds(codec: Codec, group: seq<Member>, paired: set<string>)
    ensures DistinctIds(GroupCalls(codec, group, paired))
    ensures forall id :: id in Ids(GroupCalls(codec, group, paired)) <==> id in ShownIds(group, paired, |group|)
  {
    var raw := CallsUpTo(codec, group, paired, |group|);
    CallsUpToIds(codec, group, paired, |group|);
    SortKeepsDistinct(raw);
    SameMembers(raw);
    forall id ensures id in Ids(Sort(raw)) <==> id in Ids(raw) {
      if id in Ids(raw) { IdsFollowMembers(raw, Sort(raw), id); }
      if id in Ids(Sort(raw)) { IdsFollowMembers(Sort(raw), raw, id); }
    }
  }

  lemma SameIdSameCall(raw: seq<Keyed<Call>>, a: Keyed<Call>, b: Keyed<Call>)
    requires DistinctIds(raw)
    requires a in raw && b in raw && a.item.id == b.item.id
    ensures a == b
  {
  }

  lemma TwiceMeansTwice<T>(xs: seq<T>, i: nat, j: nat)
    requires i < j < |xs| && xs[i] == xs[j]
    ensures multiset(xs)[xs[i]] >= 2
  {
    assert xs == xs[..i] + [xs[i]] + xs[i + 1..j] + [xs[j]] + xs[j + 1..];
    assert multiset(xs) == multiset(xs[..i]) + multiset{xs[i]} + multiset(xs[i + 1..j]) + multiset{xs[j]} + multiset(xs[j + 1..]);
  }

  lemma {:induction false} OnceMeansOnce(xs: seq<Keyed<Call>>, x: Keyed<Call>)
    requires DistinctIds(xs)
    ensures multiset(xs)[x] <= 1
  {
    if xs != [] {
      OnceMeansOnce(xs[1..], x);
      assert xs == [xs[0]] + xs[1..];
      if xs[0] == x {
        assert x !in xs[1..];
      }
    }
  }
}
