/**
  Rebuilding an Anthropic transcript from the same events, and what the two
  formats have in common.
 */
module AnthropicTranscript {
  import opened JsonValue
  import opened Tables
  import opened Sorting
  import opened ContextEvents
  import opened ProviderMessages
  import opened Exchanges
  import opened OpenAiTranscript

  // ---------------------------------------------------------- specification

  function NumberTexts(texts: seq<Keyed<string>>, from: nat): (r: seq<Keyed<AssistantBlock>>)
  {
    seq(|texts|, i requires 0 <= i < |texts| => Keyed(texts[i].major, from + i, TextBlock(texts[i].item)))
  }

  function NumberCalls(calls: seq<Keyed<Call>>, from: nat): (r: seq<Keyed<AssistantBlock>>)
  {
    seq(|calls|, i requires 0 <= i < |calls| =>
      Keyed(calls[i].major, from + i, ToolUse(calls[i].item.id, calls[i].item.name, calls[i].item.input)))
  }

  function MixedBlocks(texts: seq<Keyed<string>>, calls: seq<Keyed<Call>>): seq<Keyed<AssistantBlock>> {
    NumberTexts(texts, 0) + NumberCalls(calls, |texts|)
  }

  /** The blocks of an assistant message: texts and calls interleaved by block index. */
  function GroupBlocks(codec: Codec, group: seq<Member>, paired: set<string>): seq<AssistantBlock> {
    Items(Sort(MixedBlocks(GroupTexts(group), GroupCalls(codec, group, paired))))
  }

  function ResultPayload(events: seq<Event>, id: string): Json {
    match ResultFor(events, id)
    case Some(payload) => payload
    case None => Null
  }

  function ResultBlocks(codec: Codec, events: seq<Event>, ids: seq<string>, answered: set<string>): seq<UserBlock> {
    if ids == [] then []
    else if ids[0] in answered then ResultBlocks(codec, events, ids[1..], answered)
    else
      [ResultBlock(ids[0], ShownOutput(codec, events, ids[0]), Get(ResultPayload(events, ids[0]), "ok") == Some(Bool(false)))]
      + ResultBlocks(codec, events, ids[1..], answered + {ids[0]})
  }

  function BlocksAt(codec: Codec, events: seq<Event>, i: nat): seq<AssistantBlock>
    requires i < |events|
  {
    GroupBlocks(codec, Group(events, KeyAt(events, i)), PairedSet(events))
  }

  function AnswersAt(codec: Codec, events: seq<Event>, i: nat): seq<UserBlock>
    requires i < |events|
  {
    ResultBlocks(codec, events, IdsAt(codec, events, i), ShownBefore(events, i))
  }

  /** An assistant message and, when it has answers to show, one user message with them. */
  function TurnExchangeAt(codec: Codec, events: seq<Event>, i: nat): seq<TurnMessage>
    requires i < |events|
  {
    if BlocksAt(codec, events, i) == [] then []
    else
      [FromAssistant(BlocksAt(codec, events, i))]
      + (if AnswersAt(codec, events, i) == [] then [] else [FromUser(Blocks(AnswersAt(codec, events, i)))])
  }

  /** `_append_anthropic_user_text`: a text joins the last message when that is the user's. */
  function AppendUserText(ms: seq<TurnMessage>, text: string): seq<TurnMessage> {
    if ms == [] || !ms[|ms| - 1].FromUser? then ms + [FromUser(Plain(text))]
    else
      var last := ms[|ms| - 1].content;
      var blocks := if last.Plain? then [UserTextBlock(last.text)] else last.blocks;
      ms[|ms| - 1 := FromUser(Blocks(blocks + [UserTextBlock(text)]))]
  }

  /** The text an event adds to the user's side, "" when none. */
  function UserSideText(e: Event): string {
    if e.kind.UserMessage? then UserText(e.payload)
    else if Note(e) && NoteOf(e) != "" then NOTE_PREFIX + NoteOf(e)
    else ""
  }

  function WithUserSide(ms: seq<TurnMessage>, e: Event): seq<TurnMessage> {
    if UserSideText(e) != "" then AppendUserText(ms, UserSideText(e)) else ms
  }

  function TurnsWith(codec: Codec, events: seq<Event>, i: nat, ms: seq<TurnMessage>): seq<TurnMessage>
    requires i < |events|
  {
    if Spoken(events[i]) then
      if Opens(events, i) then ms + TurnExchangeAt(codec, events, i) else ms
    else WithUserSide(ms, events[i])
  }

  function TurnsUpTo(codec: Codec, events: seq<Event>, n: nat): seq<TurnMessage>
    requires n <= |events|
  {
    if n == 0 then [] else TurnsWith(codec, events, n - 1, TurnsUpTo(codec, events, n - 1))
  }

  function Turns(codec: Codec, events: seq<Event>): seq<TurnMessage> {
    TurnsUpTo(codec, events, |events|)
  }

  function LastText(blocks: seq<UserBlock>): Option<string> {
    if blocks == [] then None
    else if blocks[|blocks| - 1].UserTextBlock? then Some(blocks[|blocks| - 1].text)
    else LastText(blocks[..|blocks| - 1])
  }

  /** `_anthropic_last_user_text`. */
  function LastUserText(ms: seq<TurnMessage>): Option<string> {
    if ms == [] || !ms[|ms| - 1].FromUser? then None
    else
      match ms[|ms| - 1].content
      case Plain(text) => Some(text)
      case Blocks(blocks) => LastText(blocks)
  }

  function TurnsWithPrompt(ms: seq<TurnMessage>, prompt: string): seq<TurnMessage> {
    if prompt == "" || LastUserText(ms) == Some(prompt) then ms else AppendUserText(ms, prompt)
  }

  // ------------------------------------------------------------ construction

  /** `_anthropic_assistant_message`. */
  method AnthropicAssistantMessage(codec: Codec, group: seq<Member>, paired: set<string>)
    returns (blocks: seq<AssistantBlock>, ids: seq<string>)
    ensures blocks == GroupBlocks(codec, group, paired)
    ensures ids == Ids(GroupCalls(codec, group, paired))
  {
    var texts := GroupTextBlocks(group);
    var toolCalls := GroupToolCalls(codec, group, paired);
    var ordered := NumberBlocks(texts, toolCalls);
    ids := [];
    for k := 0 to |toolCalls|
      invariant |ids| == k && forall l | 0 <= l < k :: ids[l] == toolCalls[l].item.id
    {
      ids := ids + [toolCalls[k].item.id];
    }
    assert ids == Ids(toolCalls);
    blocks := Items(Sort(ordered));
  }

  method NumberBlocks(texts: seq<Keyed<string>>, toolCalls: seq<Keyed<Call>>) returns (ordered: seq<Keyed<AssistantBlock>>)
    ensures ordered == MixedBlocks(texts, toolCalls)
  {
    ordered := [];
    for order := 0 to |texts|
      invariant |ordered| == order
      invariant forall l | 0 <= l < order :: ordered[l] == Keyed(texts[l].major, l, TextBlock(texts[l].item))
    {
      ordered := ordered + [Keyed(texts[order].major, order, TextBlock(texts[order].item))];
    }
    assert ordered == NumberTexts(texts, 0);
    var offset := |ordered|;
    var uses: seq<Keyed<AssistantBlock>> := [];
    for k := 0 to |toolCalls|
      invariant |uses| == k
      invariant forall l | 0 <= l < k ::
        uses[l] == Keyed(toolCalls[l].major, offset + l, ToolUse(toolCalls[l].item.id, toolCalls[l].item.name, toolCalls[l].item.input))
    {
      var call := toolCalls[k].item;
      uses := uses + [Keyed(toolCalls[k].major, offset + k, ToolUse(call.id, call.name, call.input))];
    }
    assert uses == NumberCalls(toolCalls, offset);
    ordered := ordered + uses;
  }

  /** `_append_anthropic_tool_results`. */
  method AppendResultBlocks(
    codec: Codec, events: seq<Event>, messages: seq<TurnMessage>, ids: seq<string>, results: map<string, Json>, answered: set<string>)
    returns (messages': seq<TurnMessage>, answered': set<string>)
    requires forall id | id in ids :: id in results && Some(results[id]) == ResultFor(events, id)
    ensures var blocks := ResultBlocks(codec, events, ids, answered);
      messages' == messages + (if blocks == [] then [] else [FromUser(Blocks(blocks))])
    ensures answered' == answered + SetOf(ids)
  {
    answered' := answered;
    var blocks: seq<UserBlock> := [];
    for k := 0 to |ids|
      invariant blocks + ResultBlocks(codec, events, ids[k..], answered') == ResultBlocks(codec, events, ids, answered)
      invariant answered' == answered + SetOf(ids[..k])
    {
      var id := ids[k];
      AppendOne(ids, k);
      assert ids[k..][1..] == ids[k + 1..];
      if id in answered' { continue; }
      blocks := blocks + [ResultBlock(id, ToolResultContent(codec, results[id]), Get(results[id], "ok") == Some(Bool(false)))];
      answered' := answered' + {id};
    }
    assert ids[..|ids|] == ids;
    assert blocks == ResultBlocks(codec, events, ids, answered);
    messages' := if blocks == [] then messages else messages + [FromUser(Blocks(blocks))];
  }

  /** `build_anthropic_messages`. */
  method BuildAnthropicMessages(codec: Codec, log: seq<Event>, prompt: string) returns (messages: seq<TurnMessage>)
    ensures messages == TurnsWithPrompt(Turns(codec, SelectContext(codec, log)), prompt)
  {
    var selected := SelectContextEvents(codec, log);
    messages := BuildTurns(codec, selected);
    if prompt != "" && LastUserText(messages) != Some(prompt) {
      messages := AppendUserText(messages, prompt);
    }
  }

  /** The loop of `build_anthropic_messages`; as in the other format, its tool-result branch is never taken. */
  method BuildTurns(codec: Codec, selected: seq<Event>) returns (messages: seq<TurnMessage>)
    ensures messages == Turns(codec, selected)
  {
    hide *;
    var paired := PairedToolCallIds(selected);
    PairedSetMeaning(selected);
    assert paired == PairedSet(selected);
    var results := PairedToolResults(selected, paired);
    var groups := AssistantGroups(selected);
    messages := [];
    var emittedGroups: set<string> := {};
    var available: set<string> := {};
    var emittedResults: set<string> := {};
    TrackedStart(selected);
    TurnsEnds(codec, selected);
    for index := 0 to |selected|
      invariant messages == TurnsUpTo(codec, selected, index)
      invariant Tracked(selected, index, emittedGroups, available, emittedResults)
    {
      var event := selected[index];
      TurnsCases(codec, selected, index);
      TrackedStep(selected, index, emittedGroups, available, emittedResults);
      KindCases(event);
      if event.kind.UserMessage? || event.kind.SystemNote? || event.kind.RecoveryNote? || event.kind.ContextCheckpoint? {
        messages := AppendUserSide(messages, event);
      } else if event.kind.AssistantMessage? || event.kind.ToolCall? {
        var key := GroupKey(event, index);
        if key in emittedGroups { continue; }
        messages, available, emittedResults :=
          EmitTurnGroup(codec, selected, index, groups[key], paired, results, messages, available, emittedResults);
        emittedGroups := emittedGroups + {key};
      } else if event.kind.ToolResult? {
        var id := ToolResultId(event.payload);
        if id != "" && id in available && id !in emittedResults { assert false; }
      }
    }
  }

  lemma TurnsEnds(codec: Codec, events: seq<Event>)
    ensures TurnsUpTo(codec, events, 0) == [] && TurnsUpTo(codec, events, |events|) == Turns(codec, events)
  {
    hide TurnsWith;
  }

  lemma TurnsCases(codec: Codec, events: seq<Event>, i: nat)
    requires i < |events|
    ensures Opens(events, i) ==> TurnsUpTo(codec, events, i + 1) == TurnsUpTo(codec, events, i) + TurnExchangeAt(codec, events, i)
    ensures Spoken(events[i]) && !Opens(events, i) ==> TurnsUpTo(codec, events, i + 1) == TurnsUpTo(codec, events, i)
    ensures !Spoken(events[i]) ==> !Opens(events, i) && TurnsUpTo(codec, events, i + 1) == WithUserSide(TurnsUpTo(codec, events, i), events[i])
    ensures !(events[i].kind.UserMessage? || Note(events[i])) ==>
      WithUserSide(TurnsUpTo(codec, events, i), events[i]) == TurnsUpTo(codec, events, i)
  {
    hide TurnExchangeAt, AppendUserText;
    TurnsUnfold(codec, events, i);
  }

  /** The branches of the loop for user messages and notes. */
  method AppendUserSide(messages: seq<TurnMessage>, event: Event) returns (messages': seq<TurnMessage>)
    requires event.kind.UserMessage? || Note(event)
    ensures messages' == WithUserSide(messages, event)
  {
    messages' := messages;
    if event.kind.UserMessage? {
      var text := UserText(event.payload);
      if text != "" { messages' := AppendUserText(messages, text); }
    } else {
      var text := if event.kind.ContextCheckpoint? then CheckpointText(event.payload) else NoteText(event.payload);
      if text != "" { messages' := AppendUserText(messages, NOTE_PREFIX + text); }
    }
  }

  /** The branch of the loop that emits a whole assistant message. */
  method EmitTurnGroup(
    codec: Codec, selected: seq<Event>, index: nat, group: seq<Member>, paired: set<string>, results: map<string, Json>,
    messages: seq<TurnMessage>, available: set<string>, emittedResults: set<string>)
    returns (messages': seq<TurnMessage>, available': set<string>, emittedResults': set<string>)
    requires index < |selected| && Opens(selected, index)
    requires group == Group(selected, GroupKey(selected[index], index)) && paired == PairedSet(selected)
    requires results.Keys == paired && forall id | id in paired :: Some(results[id]) == ResultFor(selected, id)
    requires available == emittedResults == ShownBefore(selected, index)
    ensures messages' == messages + TurnExchangeAt(codec, selected, index)
    ensures available' == emittedResults' == available + IdsOfKey(selected, KeyAt(selected, index))
  {
    var blocks, ids := AnthropicAssistantMessage(codec, group, paired);
    hide *;
    ExchangeShape(codec, selected, index);
    TurnExchangeShape(codec, selected, index);
    ExchangeIds(codec, selected, index);
    IdsHaveResults(codec, selected, index);
    if blocks == [] {
      NoBlocksNoIds(codec, selected, index);
      messages', available', emittedResults' := messages, available, emittedResults;
    } else {
      messages' := messages + [FromAssistant(blocks)];
      available' := available + SetOf(ids);
      messages', emittedResults' := AppendResultBlocks(codec, selected, messages', ids, results, emittedResults);
    }
  }

  lemma TurnExchangeShape(codec: Codec, events: seq<Event>, i: nat)
    requires i < |events|
    ensures BlocksAt(codec, events, i) == GroupBlocks(codec, Group(events, KeyAt(events, i)), PairedSet(events))
    ensures AnswersAt(codec, events, i) == ResultBlocks(codec, events, IdsAt(codec, events, i), ShownBefore(events, i))
    ensures BlocksAt(codec, events, i) == [] ==> TurnExchangeAt(codec, events, i) == []
    ensures BlocksAt(codec, events, i) != [] ==>
      TurnExchangeAt(codec, events, i)
      == [FromAssistant(BlocksAt(codec, events, i))]
         + (if AnswersAt(codec, events, i) == [] then [] else [FromUser(Blocks(AnswersAt(codec, events, i)))])
  {
  }

  lemma NoBlocksNoIds(codec: Codec, events: seq<Event>, i: nat)
    requires i < |events| && BlocksAt(codec, events, i) == []
    ensures IdsOfKey(events, KeyAt(events, i)) == {}
  {
    BlocksCount(GroupTexts(Group(events, KeyAt(events, i))), GroupCalls(codec, Group(events, KeyAt(events, i)), PairedSet(events)));
    hide *;
    ExchangeShape(codec, events, i);
    ExchangeIds(codec, events, i);
    assert IdsAt(codec, events, i) == [];
  }

  lemma BlocksCount(texts: seq<Keyed<string>>, calls: seq<Keyed<Call>>)
    ensures |Items(Sort(MixedBlocks(texts, calls)))| == |texts| + |calls|
  {
    SameMembers(MixedBlocks(texts, calls));
  }

  // ------------------------------------------------------- adjacent messages

  lemma TurnsUnfold(codec: Codec, events: seq<Event>, i: nat)
    requires i < |events|
    ensures TurnsUpTo(codec, events, i + 1) == TurnsWith(codec, events, i, TurnsUpTo(codec, events, i))
  {
    hide TurnsWith;
  }

  /** One step of the transcript, by the three cases of an event. */
  lemma TurnsStep(codec: Codec, events: seq<Event>, i: nat)
    requires i < |events|
    ensures TurnsUpTo(codec, events, i + 1) in
      {TurnsUpTo(codec, events, i),
       TurnsUpTo(codec, events, i) + TurnExchangeAt(codec, events, i),
       AppendUserText(TurnsUpTo(codec, events, i), UserSideText(events[i]))}
    ensures Opens(events, i) ==> TurnsUpTo(codec, events, i + 1) == TurnsUpTo(codec, events, i) + TurnExchangeAt(codec, events, i)
    ensures Spoken(events[i]) && !Opens(events, i) ==> TurnsUpTo(codec, events, i + 1) == TurnsUpTo(codec, events, i)
    ensures !Spoken(events[i]) ==>
      TurnsUpTo(codec, events, i + 1) in
        {TurnsUpTo(codec, events, i), AppendUserText(TurnsUpTo(codec, events, i), UserSideText(events[i]))}
  {
    hide TurnExchangeAt, AppendUserText, UserSideText;
  }

  ghost predicate UsersApart(codec: Codec, events: seq<Event>, n: nat)
    requires n <= |events|
  {
    NoAdjacentUsers(TurnsUpTo(codec, events, n))
  }

  lemma UserTextKeepsApart(ms: seq<TurnMessage>, text: string)
    requires NoAdjacentUsers(ms)
    ensures NoAdjacentUsers(AppendUserText(ms, text))
  {
  }

  lemma ExchangeKeepsApart(codec: Codec, events: seq<Event>, i: nat, ms: seq<TurnMessage>)
    requires i < |events| && NoAdjacentUsers(ms)
    ensures NoAdjacentUsers(ms + TurnExchangeAt(codec, events, i))
  {
    TurnExchangeShape(codec, events, i);
    hide TurnExchangeAt, BlocksAt, AnswersAt;
  }

  lemma UsersApartStep(codec: Codec, events: seq<Event>, i: nat)
    requires i < |events| && UsersApart(codec, events, i)
    ensures UsersApart(codec, events, i + 1)
  {
    hide *;
    var ms := TurnsUpTo(codec, events, i);
    assert NoAdjacentUsers(ms) by { UsersApartMeans(codec, events, i); }
    TurnsStep(codec, events, i);
    ExchangeKeepsApart(codec, events, i, ms);
    UserTextKeepsApart(ms, UserSideText(events[i]));
    UsersApartMeans(codec, events, i + 1);
  }

  lemma UsersApartMeans(codec: Codec, events: seq<Event>, n: nat)
    requires n <= |events|
    ensures UsersApart(codec, events, n) <==> NoAdjacentUsers(TurnsUpTo(codec, events, n))
  {
    hide TurnsUpTo, NoAdjacentUsers;
  }

  lemma {:induction false} AllUsersApart(codec: Codec, events: seq<Event>, n: nat)
    requires n <= |events|
    ensures UsersApart(codec, events, n)
  {
    if n == 0 {
      hide TurnsWith;
    } else {
      hide *;
      AllUsersApart(codec, events, n - 1);
      UsersApartStep(codec, events, n - 1);
    }
  }

  /** Two user messages never stand next to each other. */
  lemma UsersNeverAdjacent(codec: Codec, events: seq<Event>)
    ensures NoAdjacentUsers(Turns(codec, events))
  {
    hide TurnsUpTo, NoAdjacentUsers;
    AllUsersApart(codec, events, |events|);
  }

  // ------------------------------------------------------- calls and answers

  lemma {:induction false} UseIdsOfItems(xs: seq<Keyed<AssistantBlock>>)
    ensures UseIdsIn(Items(xs)) == UseIdsIn(Items(Keep(xs, IsUse)))
  {
    if xs != [] {
      UseIdsOfItems(xs[1..]);
      assert Items(xs)[1..] == Items(xs[1..]);
      if IsUse(xs[0].item) {
        assert Items(Keep(xs, IsUse))[1..] == Items(Keep(xs[1..], IsUse));
      }
    }
  }

  lemma {:induction false} UseIdsOfNumbered(calls: seq<Keyed<Call>>, from: nat)
    ensures UseIdsIn(Items(NumberCalls(calls, from))) == Ids(calls)
  {
    if calls != [] {
      UseIdsOfNumbered(calls[1..], from + 1);
      assert Items(NumberCalls(calls, from))[1..] == Items(NumberCalls(calls[1..], from + 1));
    }
  }

  predicate IsUse(b: AssistantBlock) { b.ToolUse? }

  /** The blocks of an assistant message hold its calls in order, whatever texts stand between them. */
  lemma MixedUseIds(texts: seq<Keyed<string>>, calls: seq<Keyed<Call>>)
    requires Sorted(calls)
    ensures UseIdsIn(Items(Sort(MixedBlocks(texts, calls)))) == Ids(calls)
  {
    hide *;
    var used := NumberCalls(calls, |texts|);
    MixedUses(texts, calls);
    KeepSort(MixedBlocks(texts, calls), IsUse);
    NumberedSorted(calls, |texts|);
    SortOfSorted(used);
    UseIdsOfItems(Sort(MixedBlocks(texts, calls)));
    UseIdsOfNumbered(calls, |texts|);
  }

  lemma MixedUses(texts: seq<Keyed<string>>, calls: seq<Keyed<Call>>)
    ensures Keep(MixedBlocks(texts, calls), IsUse) == NumberCalls(calls, |texts|)
  {
    var named, used := NumberTexts(texts, 0), NumberCalls(calls, |texts|);
    KeepAppend(named, used, IsUse);
    KeepNone(named, IsUse);
    KeepAll(used, IsUse);
    hide Keep, NumberTexts, NumberCalls;
  }

  /** Numbering a list that is sorted by block index leaves it sorted. */
  lemma NumberedSorted(calls: seq<Keyed<Call>>, from: nat)
    requires Sorted(calls)
    ensures Sorted(NumberCalls(calls, from))
  {
  }

  lemma BlocksUseIds(codec: Codec, events: seq<Event>, i: nat)
    requires i < |events|
    ensures UseIdsIn(BlocksAt(codec, events, i)) == IdsAt(codec, events, i)
  {
    var group := Group(events, KeyAt(events, i));
    SortSorted(CallsUpTo(codec, group, PairedSet(events), |group|));
    MixedUseIds(GroupTexts(group), GroupCalls(codec, group, PairedSet(events)));
  }

  /** Fresh, distinct ids are all answered, in order. */
  lemma {:induction false} FreshResultIds(codec: Codec, events: seq<Event>, ids: seq<string>, answered: set<string>)
    requires forall i, j | 0 <= i < j < |ids| :: ids[i] != ids[j]
    requires forall id | id in ids :: id !in answered
    ensures ResultIdsIn(ResultBlocks(codec, events, ids, answered)) == ids
  {
    if ids != [] {
      assert ids[0] in ids;
      var rest := ResultBlocks(codec, events, ids[1..], answered + {ids[0]});
      FreshResultIds(codec, events, ids[1..], answered + {ids[0]});
      assert ResultBlocks(codec, events, ids, answered)[1..] == rest;
      assert ids == [ids[0]] + ids[1..];
    }
  }

  lemma FreshIds(codec: Codec, events: seq<Event>, i: nat)
    requires i < |events| && Opens(events, i) && Fresh(events, i)
    ensures ResultIdsIn(AnswersAt(codec, events, i)) == IdsAt(codec, events, i)
  {
    ExchangeIds(codec, events, i);
    var ids := IdsAt(codec, events, i);
    forall id | id in ids ensures id !in ShownBefore(events, i) {
      assert id in IdsOfKey(events, KeyAt(events, i));
    }
    hide IdsAt;
    FreshResultIds(codec, events, ids, ShownBefore(events, i));
  }

  lemma FreshTurnExchange(codec: Codec, events: seq<Event>, i: nat)
    requires i < |events| && Opens(events, i) && Fresh(events, i)
    ensures AnsweredTurns(TurnExchangeAt(codec, events, i))
  {
    TurnExchangeShape(codec, events, i);
    BlocksUseIds(codec, events, i);
    FreshIds(codec, events, i);
    var blocks, answers := BlocksAt(codec, events, i), AnswersAt(codec, events, i);
    hide TurnExchangeAt, BlocksAt, AnswersAt, IdsAt, Opens, Fresh, UseIdsIn;
    if blocks != [] {
      if answers == [] { AnsweredAlone(FromAssistant(blocks)); }
      else {
        ResultsHaveIds(codec, events, i);
        AnsweredPair(FromAssistant(blocks), FromUser(Blocks(answers)));
        assert [FromAssistant(blocks)] + [FromUser(Blocks(answers))] == [FromAssistant(blocks), FromUser(Blocks(answers))];
      }
    }
  }

  lemma ResultsHaveIds(codec: Codec, events: seq<Event>, i: nat)
    requires i < |events| && AnswersAt(codec, events, i) != []
    ensures ResultIdsIn(AnswersAt(codec, events, i)) != []
  {
    FirstIsResult(codec, events, IdsAt(codec, events, i), ShownBefore(events, i));
  }

  lemma {:induction false} FirstIsResult(codec: Codec, events: seq<Event>, ids: seq<string>, answered: set<string>)
    requires ResultBlocks(codec, events, ids, answered) != []
    ensures ResultBlocks(codec, events, ids, answered)[0].ResultBlock?
  {
    if ids[0] in answered { FirstIsResult(codec, events, ids[1..], answered); }
  }

  lemma {:induction false} ResultIdsOfText(blocks: seq<UserBlock>, text: string)
    ensures ResultIdsIn(blocks + [UserTextBlock(text)]) == ResultIdsIn(blocks)
  {
    if blocks != [] {
      ResultIdsOfText(blocks[1..], text);
      assert (blocks + [UserTextBlock(text)])[1..] == blocks[1..] + [UserTextBlock(text)];
    }
  }

  lemma UserTextKeepsAnswered(ms: seq<TurnMessage>, text: string)
    requires AnsweredTurns(ms)
    ensures AnsweredTurns(AppendUserText(ms, text))
  {
    if ms == [] || !ms[|ms| - 1].FromUser? {
      AnsweredAlone(FromUser(Plain(text)));
      AnsweredAppend(ms, [FromUser(Plain(text))]);
    } else {
      var last := ms[|ms| - 1].content;
      var blocks := if last.Plain? then [UserTextBlock(last.text)] else last.blocks;
      ResultIdsOfText(blocks, text);
      AnsweredReplaceLast(ms, FromUser(Blocks(blocks + [UserTextBlock(text)])));
    }
  }

  ghost predicate TurnsAnsweredUpTo(codec: Codec, events: seq<Event>, n: nat)
    requires n <= |events|
  {
    AnsweredTurns(TurnsUpTo(codec, events, n))
  }

  lemma TurnsAnsweredStep(codec: Codec, events: seq<Event>, i: nat)
    requires i < |events| && Fresh(events, i) && TurnsAnsweredUpTo(codec, events, i)
    ensures TurnsAnsweredUpTo(codec, events, i + 1)
  {
    hide AnsweredTurns, TurnsUpTo, TurnExchangeAt, AppendUserText, Opens, Fresh, UserSideText;
    var ms := TurnsUpTo(codec, events, i);
    TurnsStep(codec, events, i);
    if Opens(events, i) {
      FreshTurnExchange(codec, events, i);
      AnsweredAppend(ms, TurnExchangeAt(codec, events, i));
    }
    UserTextKeepsAnswered(ms, UserSideText(events[i]));
  }

  lemma NothingAnswered(codec: Codec, events: seq<Event>)
    ensures TurnsAnsweredUpTo(codec, events, 0)
  {
    hide TurnsWith;
  }

  lemma {:induction false} TurnsAnswered(codec: Codec, events: seq<Event>, n: nat)
    requires n <= |events| && Clean(events, n)
    ensures TurnsAnsweredUpTo(codec, events, n)
  {
    hide *;
    if n == 0 {
      NothingAnswered(codec, events);
    } else {
      CleanStep(events, n - 1);
      TurnsAnswered(codec, events, n - 1);
      TurnsAnsweredStep(codec, events, n - 1);
    }
  }

  // ---------------------------------------------------------- reuse breaks it

  /** Ids answered before leave fewer results than ids. */
  lemma {:induction false} StaleResultIds(codec: Codec, events: seq<Event>, ids: seq<string>, answered: set<string>)
    ensures |ResultIdsIn(ResultBlocks(codec, events, ids, answered))| <= |ids|
    ensures (exists id :: id in ids && id in answered) ==> |ResultIdsIn(ResultBlocks(codec, events, ids, answered))| < |ids|
  {
    if ids != [] {
      assert ids == [ids[0]] + ids[1..];
      if ids[0] in answered {
        StaleResultIds(codec, events, ids[1..], answered);
      } else {
        StaleResultIds(codec, events, ids[1..], answered + {ids[0]});
        assert ResultBlocks(codec, events, ids, answered)[1..] == ResultBlocks(codec, events, ids[1..], answered + {ids[0]});
      }
    }
  }

  /** Position `k` holds a message with `calls` calls, and too few results follow it. */
  ghost predicate Gap(ms: seq<TurnMessage>, head: seq<TurnMessage>, calls: nat) {
    var k := |head|;
    && k < |ms| && ms[..k] == head && ms[k].FromAssistant? && |UseIds(ms[k])| == calls > 0
    && (k + 1 < |ms| ==> |ResultIds(ms[k + 1])| < calls)
  }

  lemma GapBreaks(ms: seq<TurnMessage>, head: seq<TurnMessage>, calls: nat)
    requires Gap(ms, head, calls) && AnsweredTurns(head)
    ensures !AnsweredTurns(ms)
  {
    var tail := ms[|head|..];
    assert ms == head + tail;
    AnsweredAppend(head, tail);
    hide UseIds, ResultIds, AnsweredTurns;
    if AnsweredTurns(tail) { AnswerCounts(tail); }
  }

  lemma AnswerCounts(ms: seq<TurnMessage>)
    requires ms != [] && AnsweredTurns(ms) && UseIds(ms[0]) != []
    ensures |ms| > 1 && |ResultIds(ms[1])| == |UseIds(ms[0])|
  {
    AnsweredParts(ms);
    hide UseIds, ResultIds, AnsweredTurns;
    assert |multiset(ResultIds(ms[1]))| == |multiset(UseIds(ms[0]))|;
  }

  lemma GapStays(ms: seq<TurnMessage>, head: seq<TurnMessage>, calls: nat, m: TurnMessage)
    requires Gap(ms, head, calls) && ResultIds(m) == []
    ensures Gap(ms + [m], head, calls)
  {
    hide UseIds, ResultIds;
    assert (ms + [m])[..|head|] == ms[..|head|];
  }

  lemma TextKeepsGap(ms: seq<TurnMessage>, head: seq<TurnMessage>, calls: nat, text: string)
    requires Gap(ms, head, calls)
    ensures Gap(AppendUserText(ms, text), head, calls)
  {
    if !ms[|ms| - 1].FromUser? {
      GapStays(ms, head, calls, FromUser(Plain(text)));
    } else {
      var last := ms[|ms| - 1].content;
      var blocks := if last.Plain? then [UserTextBlock(last.text)] else last.blocks;
      ResultIdsOfText(blocks, text);
      hide UseIds;
      assert ResultIdsIn(blocks) == ResultIds(ms[|ms| - 1]);
      assert AppendUserText(ms, text)[..|head|] == ms[..|head|];
    }
  }

  lemma ExchangeKeepsGap(codec: Codec, events: seq<Event>, i: nat, ms: seq<TurnMessage>, head: seq<TurnMessage>, calls: nat)
    requires i < |events| && Gap(ms, head, calls)
    ensures Gap(ms + TurnExchangeAt(codec, events, i), head, calls)
  {
    TurnExchangeShape(codec, events, i);
    var blocks, answers := BlocksAt(codec, events, i), AnswersAt(codec, events, i);
    hide TurnExchangeAt, BlocksAt, AnswersAt, Gap;
    if blocks == [] {
      assert ms + [] == ms;
    } else {
      var more := ms + [FromAssistant(blocks)];
      GapStays(ms, head, calls, FromAssistant(blocks));
      if answers != [] {
        GapStaysBehind(more, head, calls, FromUser(Blocks(answers)), ms);
        assert ms + ([FromAssistant(blocks)] + [FromUser(Blocks(answers))]) == more + [FromUser(Blocks(answers))];
      }
    }
  }

  /** Further on anything may follow. */
  lemma GapStaysBehind(ms: seq<TurnMessage>, head: seq<TurnMessage>, calls: nat, m: TurnMessage, before: seq<TurnMessage>)
    requires Gap(ms, head, calls) && |head| < |before| && |ms| == |before| + 1
    ensures Gap(ms + [m], head, calls)
  {
    hide UseIds, ResultIds;
    assert (ms + [m])[..|head|] == ms[..|head|];
  }

  lemma GapLength(ms: seq<TurnMessage>, head: seq<TurnMessage>, calls: nat)
    requires Gap(ms, head, calls)
    ensures |head| < |ms|
  {
  }

  ghost predicate GapUpTo(codec: Codec, events: seq<Event>, n: nat, head: seq<TurnMessage>, calls: nat)
    requires n <= |events|
  {
    Gap(TurnsUpTo(codec, events, n), head, calls)
  }

  lemma GapStep(codec: Codec, events: seq<Event>, i: nat, head: seq<TurnMessage>, calls: nat)
    requires i < |events| && GapUpTo(codec, events, i, head, calls)
    ensures GapUpTo(codec, events, i + 1, head, calls)
  {
    hide TurnsUpTo, TurnExchangeAt, AppendUserText, UserSideText, Opens, Gap;
    var ms := TurnsUpTo(codec, events, i);
    TurnsStep(codec, events, i);
    ExchangeKeepsGap(codec, events, i, ms, head, calls);
    TextKeepsGap(ms, head, calls, UserSideText(events[i]));
  }

  lemma {:induction false} GapToEnd(codec: Codec, events: seq<Event>, m: nat, n: nat, head: seq<TurnMessage>, calls: nat)
    requires m <= n <= |events| && GapUpTo(codec, events, m, head, calls)
    ensures GapUpTo(codec, events, n, head, calls)
    decreases n
  {
    hide GapUpTo;
    if m < n {
      GapToEnd(codec, events, m, n - 1, head, calls);
      GapStep(codec, events, n - 1, head, calls);
    }
  }

  lemma StaleTurnExchange(codec: Codec, events: seq<Event>, m: nat)
    requires m < |events| && !Fresh(events, m)
    ensures Opens(events, m) && UseIdsIn(BlocksAt(codec, events, m)) == IdsAt(codec, events, m)
    ensures |ResultIdsIn(AnswersAt(codec, events, m))| < |IdsAt(codec, events, m)|
  {
    ExchangeIds(codec, events, m);
    BlocksUseIds(codec, events, m);
    hide BlocksAt, IdsAt, ResultBlocks;
    var ids, shown := IdsAt(codec, events, m), ShownBefore(events, m);
    var stale :| stale in IdsOfKey(events, KeyAt(events, m)) && stale in shown;
    assert stale in ids;
    StaleResultIds(codec, events, ids, shown);
  }

  lemma GapOpens(codec: Codec, events: seq<Event>, m: nat)
    requires m < |events| && !Fresh(events, m)
    ensures GapUpTo(codec, events, m + 1, TurnsUpTo(codec, events, m), |IdsAt(codec, events, m)|)
  {
    StaleTurnExchange(codec, events, m);
    TurnExchangeShape(codec, events, m);
    TurnsStep(codec, events, m);
    var blocks, answers, head := BlocksAt(codec, events, m), AnswersAt(codec, events, m), TurnsUpTo(codec, events, m);
    hide TurnExchangeAt, BlocksAt, AnswersAt, IdsAt, TurnsUpTo, Opens, Fresh, AppendUserText, UserSideText;
    var ms := TurnsUpTo(codec, events, m + 1);
    assert ms == head + ([FromAssistant(blocks)] + (if answers == [] then [] else [FromUser(Blocks(answers))]));
    assert ms[|head|] == FromAssistant(blocks) && ms[..|head|] == head;
  }

  /** The first message that reuses an id is left without an answer of its own. */
  lemma ReuseOrphans(codec: Codec, events: seq<Event>, m: nat)
    requires m < |events| && Clean(events, m) && !Fresh(events, m)
    ensures !AnsweredTurns(Turns(codec, events))
  {
    hide *;
    var head, calls := TurnsUpTo(codec, events, m), |IdsAt(codec, events, m)|;
    GapOpens(codec, events, m);
    GapToEnd(codec, events, m + 1, |events|, head, calls);
    TurnsAnswered(codec, events, m);
    AnsweredIs(codec, events, m);
    GapIs(codec, events, head, calls);
    GapBreaks(Turns(codec, events), head, calls);
  }

  lemma AnsweredIs(codec: Codec, events: seq<Event>, n: nat)
    requires n <= |events| && TurnsAnsweredUpTo(codec, events, n)
    ensures AnsweredTurns(TurnsUpTo(codec, events, n))
  {
    hide TurnsUpTo, AnsweredTurns;
  }

  lemma GapIs(codec: Codec, events: seq<Event>, head: seq<TurnMessage>, calls: nat)
    requires GapUpTo(codec, events, |events|, head, calls)
    ensures Gap(Turns(codec, events), head, calls)
  {
    hide TurnsUpTo, Gap;
  }

  /**
    For every event list: each call is answered in the very next message, with no
    stray result, if and only if no call id is shown under two assistant messages.
   */
  lemma AnsweredTurnsExactly(codec: Codec, events: seq<Event>)
    ensures AnsweredTurns(Turns(codec, events)) <==> NoReuse(events)
  {
    NoReuseIsClean(events);
    hide *;
    if Clean(events, |events|) {
      TurnsAnswered(codec, events, |events|);
      AllAnswered(codec, events);
    } else {
      var m := FirstReuse(events, |events|);
      ReuseOrphans(codec, events, m);
    }
  }

  lemma AllAnswered(codec: Codec, events: seq<Event>)
    requires TurnsAnsweredUpTo(codec, events, |events|)
    ensures AnsweredTurns(Turns(codec, events))
  {
    hide TurnsUpTo, AnsweredTurns;
  }
}
