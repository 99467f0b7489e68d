/**
  Rebuilding an OpenAI chat transcript from the events a model may see, and
  when the result is well-formed.
 */
module OpenAiTranscript {
  import opened JsonValue
  import opened Tables
  import opened Sorting
  import opened ContextEvents
  import opened ProviderMessages
  import opened Exchanges

  // ---------------------------------------------------------- specification

  function FirstOutput(codec: Codec, payload: Json, keys: seq<string>): Option<string> {
    if keys == [] then None
    else
      match Get(payload, keys[0])
      case Some(Str(s)) => Some(s)
      case Some(Null) => FirstOutput(codec, payload, keys[1..])
      case Some(v) => Some(codec.dumps(v))
      case None => FirstOutput(codec, payload, keys[1..])
  }

  /** `_tool_result_content`. */
  function ToolResultContent(codec: Codec, payload: Json): string {
    match FirstOutput(codec, payload, ["model_output", "content", "output"])
    case Some(text) => text
    case None =>
      match Get(payload, "structured_output")
      case Some(v) =>
        if v != Null then codec.dumps(v) else ErrorTypeText(codec, payload)
      case None => ErrorTypeText(codec, payload)
  }

  function ErrorTypeText(codec: Codec, payload: Json): string {
    match Get(payload, "error_type")
    case Some(v) => if Truthy(v) then ShowText(codec, v) else ""
    case None => ""
  }

  function ShownOutput(codec: Codec, events: seq<Event>, id: string): string {
    match ResultFor(events, id)
    case Some(payload) => ToolResultContent(codec, payload)
    case None => ""
  }

  /** The ids of all answered calls. */
  function PairedSet(events: seq<Event>): set<string> {
    set i | 0 <= i < |events| && events[i].kind.ToolCall? && Paired(events, ToolCallId(events[i].payload))
      :: ToolCallId(events[i].payload)
  }

  lemma PairedSetMeaning(events: seq<Event>)
    ensures forall id :: id in PairedSet(events) <==> Paired(events, id)
  {
    forall id | Paired(events, id) ensures id in PairedSet(events) {
      var i, j :| 0 <= i < j < |events| && CallAt(events, i, id) && ResultAt(events, j, id);
    }
  }

  function JoinTexts(texts: seq<Keyed<string>>): string {
    if texts == [] then "" else texts[0].item + JoinTexts(texts[1..])
  }

  /** The OpenAI rendering of calls; the arguments pass through `_tool_input` once more on the way to text. */
  function FunctionCalls(codec: Codec, calls: seq<Keyed<Call>>): (r: seq<FunctionCall>)
  {
    seq(|calls|, i requires 0 <= i < |calls| =>
      FunctionCall(calls[i].item.id, calls[i].item.name, codec.dumps(ToolInput(codec, calls[i].item.input))))
  }

  function GroupMessage(codec: Codec, group: seq<Member>, paired: set<string>): Option<ChatMessage> {
    var content := JoinTexts(GroupTexts(group));
    var calls := GroupCalls(codec, group, paired);
    if content == "" && calls == [] then None
    else Some(AssistantMsg(if content == "" then None else Some(content), FunctionCalls(codec, calls)))
  }

  /** The answers to `ids`, leaving out ids answered before. */
  function ResultMessages(codec: Codec, events: seq<Event>, ids: seq<string>, answered: set<string>): seq<ChatMessage> {
    if ids == [] then []
    else if ids[0] in answered then ResultMessages(codec, events, ids[1..], answered)
    else [ToolMsg(ids[0], ShownOutput(codec, events, ids[0]))] + ResultMessages(codec, events, ids[1..], answered + {ids[0]})
  }

  function SetOf(ids: seq<string>): set<string> {
    set id | id in ids
  }

  function KeyAt(events: seq<Event>, i: nat): string
    requires i < |events|
  {
    GroupKey(events[i], i)
  }

  /** Event `i` is the first of its assistant message. */
  predicate Opens(events: seq<Event>, i: nat)
    requires i < |events|
  {
    Spoken(events[i]) && forall j | 0 <= j < i && Spoken(events[j]) :: KeyAt(events, j) != KeyAt(events, i)
  }

  /** The ids shown by the assistant message called `key`. */
  function IdsOfKey(events: seq<Event>, key: string): set<string> {
    ShownIds(Group(events, key), PairedSet(events), |Group(events, key)|)
  }

  /** The ids shown by the messages opened among the first `n` events. */
  function ShownBefore(events: seq<Event>, n: nat): set<string>
    requires n <= |events|
  {
    if n == 0 then {}
    else ShownBefore(events, n - 1) + (if Opens(events, n - 1) then IdsOfKey(events, KeyAt(events, n - 1)) else {})
  }

  /** The assistant message opened by event `i`, if it says anything. */
  function MessageAt(codec: Codec, events: seq<Event>, i: nat): Option<ChatMessage>
    requires i < |events|
  {
    GroupMessage(codec, Group(events, KeyAt(events, i)), PairedSet(events))
  }

  /** The call ids of that message, in order. */
  function IdsAt(codec: Codec, events: seq<Event>, i: nat): seq<string>
    requires i < |events|
  {
    Ids(GroupCalls(codec, Group(events, KeyAt(events, i)), PairedSet(events)))
  }

  /** That message with the answers it brings along. */
  function ExchangeAt(codec: Codec, events: seq<Event>, i: nat): seq<ChatMessage>
    requires i < |events|
  {
    match MessageAt(codec, events, i)
    case None => []
    case Some(message) => [message] + ResultMessages(codec, events, IdsAt(codec, events, i), ShownBefore(events, i))
  }

  function NoteOf(e: Event): string {
    if e.kind.ContextCheckpoint? then CheckpointText(e.payload) else NoteText(e.payload)
  }

  predicate Note(e: Event) {
    e.kind.SystemNote? || e.kind.RecoveryNote? || e.kind.ContextCheckpoint?
  }

  /** What an event that is not part of an assistant message contributes.  A tool result contributes nothing where it stands. */
  function PlainMessages(e: Event): seq<ChatMessage> {
    if e.kind.UserMessage? then (if UserText(e.payload) != "" then [UserMsg(UserText(e.payload))] else [])
    else if Note(e) then (if NoteOf(e) != "" then [SystemMsg(NoteOf(e))] else [])
    else []
  }

  /** What event `i` contributes. */
  function EventMessages(codec: Codec, events: seq<Event>, i: nat): seq<ChatMessage>
    requires i < |events|
  {
    if !Spoken(events[i]) then PlainMessages(events[i])
    else if Opens(events, i) then ExchangeAt(codec, events, i)
    else []
  }

  function ChatUpTo(codec: Codec, events: seq<Event>, n: nat): seq<ChatMessage>
    requires n <= |events|
  {
    if n == 0 then [] else ChatUpTo(codec, events, n - 1) + EventMessages(codec, events, n - 1)
  }

  /** The transcript of the selected events. */
  function Chat(codec: Codec, events: seq<Event>): seq<ChatMessage> {
    ChatUpTo(codec, events, |events|)
  }

  function WithPrompt(ms: seq<ChatMessage>, prompt: string): seq<ChatMessage> {
    if prompt == "" || (ms != [] && ms[|ms| - 1] == UserMsg(prompt)) then ms else ms + [UserMsg(prompt)]
  }

  // ------------------------------------------------------------ construction

  /** `_openai_assistant_message`. */
  method OpenAiAssistantMessage(codec: Codec, group: seq<Member>, paired: set<string>)
    returns (message: Option<ChatMessage>, ids: seq<string>)
    ensures message == GroupMessage(codec, group, paired)
    ensures message.Some? ==> ids == Ids(GroupCalls(codec, group, paired))
  {
    var texts := GroupTextBlocks(group);
    var toolCalls := GroupToolCalls(codec, group, paired);
    var content := JoinTexts(texts);
    if content == "" && toolCalls == [] { return None, []; }
    var calls;
    calls, ids := RenderCalls(codec, toolCalls);
    message := Some(AssistantMsg(if content == "" then None else Some(content), calls));
  }

  method RenderCalls(codec: Codec, toolCalls: seq<Keyed<Call>>) returns (calls: seq<FunctionCall>, ids: seq<string>)
    ensures calls == FunctionCalls(codec, toolCalls) && ids == Ids(toolCalls)
  {
    calls, ids := [], [];
    for k := 0 to |toolCalls|
      invariant |calls| == |ids| == k
      invariant forall l | 0 <= l < k :: calls[l] == FunctionCalls(codec, toolCalls)[l] && ids[l] == Ids(toolCalls)[l]
    {
      var call := toolCalls[k].item;
      calls := calls + [FunctionCall(call.id, call.name, codec.dumps(ToolInput(codec, call.input)))];
      ids := ids + [call.id];
    }
  }

  /** `_append_openai_tool_results`. */
  method AppendResults(
    codec: Codec, events: seq<Event>, messages: seq<ChatMessage>, ids: seq<string>, results: map<string, Json>, answered: set<string>)
    returns (messages': seq<ChatMessage>, answered': set<string>)
    requires forall id | id in ids :: id in results && Some(results[id]) == ResultFor(events, id)
    ensures messages' == messages + ResultMessages(codec, events, ids, answered)
    ensures answered' == answered + SetOf(ids)
  {
    messages', answered' := messages, answered;
    for k := 0 to |ids|
      invariant messages' + ResultMessages(codec, events, ids[k..], answered') == messages + ResultMessages(codec, events, ids, answered)
      invariant answered' == answered + SetOf(ids[..k])
    {
      var id := ids[k];
      AppendOne(ids, k);
      assert ids[k..][1..] == ids[k + 1..];
      if id in answered' { continue; }
      messages' := messages' + [ToolMsg(id, ToolResultContent(codec, results[id]))];
      answered' := answered' + {id};
    }
    assert ids[..|ids|] == ids;
  }

  /** The ids one assistant message makes available are those its group shows. */
  lemma ExchangeIds(codec: Codec, events: seq<Event>, i: nat)
    requires i < |events|
    ensures SetOf(IdsAt(codec, events, i)) == IdsOfKey(events, KeyAt(events, i))
    ensures forall k, l | 0 <= k < l < |IdsAt(codec, events, i)| :: IdsAt(codec, events, i)[k] != IdsAt(codec, events, i)[l]
    ensures MessageAt(codec, events, i).None? ==> IdsOfKey(events, KeyAt(events, i)) == {}
    ensures MessageAt(codec, events, i).Some? ==>
      MessageAt(codec, events, i).value.AssistantMsg? && CallIds(MessageAt(codec, events, i).value.calls) == IdsAt(codec, events, i)
  {
    GroupCallIds(codec, Group(events, KeyAt(events, i)), PairedSet(events));
    var calls := GroupCalls(codec, Group(events, KeyAt(events, i)), PairedSet(events));
    if calls == [] {
      assert Ids(calls) == [];
    }
  }

  lemma IdsArePaired(events: seq<Event>, key: string, id: string)
    requires id in IdsOfKey(events, key)
    ensures id != "" && id in PairedSet(events)
  {
    var i := ShownIdsFrom(Group(events, key), PairedSet(events), |Group(events, key)|, id);
  }

  /** `build_openai_messages`. */
  method BuildOpenAiMessages(codec: Codec, log: seq<Event>, prompt: string) returns (messages: seq<ChatMessage>)
    ensures messages == WithPrompt(Chat(codec, SelectContext(codec, log)), prompt)
  {
    var selected := SelectContextEvents(codec, log);
    messages := BuildChat(codec, selected);
    hide Chat, SelectContext;
    if prompt != "" && !(messages != [] && messages[|messages| - 1] == UserMsg(prompt)) {
      messages := messages + [UserMsg(prompt)];
    }
  }

  /** The keys of the assistant messages met among the first `n` events. */
  function KeysBefore(events: seq<Event>, n: nat): set<string>
    requires n <= |events|
  {
    set j | 0 <= j < n && Spoken(events[j]) :: KeyAt(events, j)
  }

  /** What the loops know before event `n`: the messages met, and that no id is available without its answer. */
  ghost predicate Tracked(events: seq<Event>, n: nat, emittedGroups: set<string>, available: set<string>, emittedResults: set<string>)
    requires n <= |events|
  {
    emittedGroups == KeysBefore(events, n) && available == emittedResults == ShownBefore(events, n)
  }

  lemma TrackedStart(events: seq<Event>)
    ensures Tracked(events, 0, {}, {}, {})
  {
  }

  lemma TrackedStep(
    events: seq<Event>, i: nat, emittedGroups: set<string>, available: set<string>, emittedResults: set<string>)
    requires i < |events| && Tracked(events, i, emittedGroups, available, emittedResults)
    ensures available == emittedResults == ShownBefore(events, i)
    ensures Opens(events, i) <==> Spoken(events[i]) && GroupKey(events[i], i) !in emittedGroups
    ensures !Opens(events, i) ==> Tracked(events, i + 1, emittedGroups, available, emittedResults)
    ensures Opens(events, i) ==>
      Tracked(events, i + 1, emittedGroups + {GroupKey(events[i], i)},
              available + IdsOfKey(events, KeyAt(events, i)), emittedResults + IdsOfKey(events, KeyAt(events, i)))
  {
    hide IdsOfKey, GroupKey;
    KeysBeforeStep(events, i);
  }

  lemma KeysBeforeStep(events: seq<Event>, n: nat)
    requires n < |events|
    ensures KeysBefore(events, n + 1) == KeysBefore(events, n) + (if Spoken(events[n]) then {KeyAt(events, n)} else {})
    ensures Opens(events, n) <==> Spoken(events[n]) && KeyAt(events, n) !in KeysBefore(events, n)
  {
    hide GroupKey;
  }

  lemma ChatCases(codec: Codec, events: seq<Event>, i: nat)
    requires i < |events|
    ensures Opens(events, i) ==> ChatUpTo(codec, events, i + 1) == ChatUpTo(codec, events, i) + ExchangeAt(codec, events, i)
    ensures !Opens(events, i) ==> ChatUpTo(codec, events, i + 1) == ChatUpTo(codec, events, i) + PlainMessages(events[i])
    ensures !(events[i].kind.UserMessage? || Note(events[i])) ==> PlainMessages(events[i]) == []
  {
    hide ExchangeAt;
    ChatStep(codec, events, i);
  }

  /**
    The loop of `build_openai_messages`.  Its last branch, which would emit a
    tool result where it stands, is never taken: an id becomes available only
    together with its answer.
   */
  method BuildChat(codec: Codec, selected: seq<Event>) returns (messages: seq<ChatMessage>)
    ensures messages == Chat(codec, selected)
  {
    hide *;
    var paired := PairedToolCallIds(selected);
    PairedSetMeaning(selected);
    assert paired == PairedSet(selected);
    var results := PairedToolResults(selected, paired);
    var groups := AssistantGroups(selected);
    messages := [];
    var emittedGroups: set<string> := {};
    var available: set<string> := {};
    var emittedResults: set<string> := {};
    TrackedStart(selected);
    ChatEnds(codec, selected);
    for index := 0 to |selected|
      invariant messages == ChatUpTo(codec, selected, index)
      invariant Tracked(selected, index, emittedGroups, available, emittedResults)
    {
      var event := selected[index];
      ChatCases(codec, selected, index);
      TrackedStep(selected, index, emittedGroups, available, emittedResults);
      KindCases(event);
      if event.kind.UserMessage? || event.kind.SystemNote? || event.kind.RecoveryNote? || event.kind.ContextCheckpoint? {
        messages := AppendPlain(messages, event);
      } else if event.kind.AssistantMessage? || event.kind.ToolCall? {
        var key := GroupKey(event, index);
        if key in emittedGroups { continue; }
        messages, available, emittedResults :=
          EmitGroup(codec, selected, index, groups[key], paired, results, messages, available, emittedResults);
        emittedGroups := emittedGroups + {key};
      } else if event.kind.ToolResult? {
        var id := ToolResultId(event.payload);
        if id != "" && id in available && id !in emittedResults { assert false; }
      }
    }
  }

  lemma ChatEnds(codec: Codec, events: seq<Event>)
    ensures ChatUpTo(codec, events, 0) == [] && ChatUpTo(codec, events, |events|) == Chat(codec, events)
  {
    hide EventMessages;
  }

  lemma KindCases(e: Event)
    ensures Spoken(e) <==> e.kind.AssistantMessage? || e.kind.ToolCall?
    ensures Note(e) <==> e.kind.SystemNote? || e.kind.RecoveryNote? || e.kind.ContextCheckpoint?
  {
  }

  /** The branches of the loop for user messages and notes. */
  method AppendPlain(messages: seq<ChatMessage>, event: Event) returns (messages': seq<ChatMessage>)
    requires event.kind.UserMessage? || Note(event)
    ensures messages' == messages + PlainMessages(event)
  {
    messages' := messages;
    if event.kind.UserMessage? {
      var text := UserText(event.payload);
      if text != "" { messages' := messages + [UserMsg(text)]; }
    } else {
      var text := if event.kind.ContextCheckpoint? then CheckpointText(event.payload) else NoteText(event.payload);
      if text != "" { messages' := messages + [SystemMsg(text)]; }
    }
  }

  /** The branch of the loop that emits a whole assistant message. */
  method EmitGroup(
    codec: Codec, selected: seq<Event>, index: nat, group: seq<Member>, paired: set<string>, results: map<string, Json>,
    messages: seq<ChatMessage>, available: set<string>, emittedResults: set<string>)
    returns (messages': seq<ChatMessage>, available': set<string>, emittedResults': set<string>)
    requires index < |selected| && Opens(selected, index)
    requires group == Group(selected, GroupKey(selected[index], index)) && paired == PairedSet(selected)
    requires results.Keys == paired && forall id | id in paired :: Some(results[id]) == ResultFor(selected, id)
    requires available == emittedResults == ShownBefore(selected, index)
    ensures messages' == messages + ExchangeAt(codec, selected, index)
    ensures available' == emittedResults' == available + IdsOfKey(selected, KeyAt(selected, index))
  {
    var message, ids := OpenAiAssistantMessage(codec, group, paired);
    hide *;
    ExchangeShape(codec, selected, index);
    ExchangeIds(codec, selected, index);
    IdsHaveResults(codec, selected, index);
    if message.None? {
      messages', available', emittedResults' := messages, available, emittedResults;
    } else {
      messages' := messages + [message.value];
      available' := available + SetOf(ids);
      messages', emittedResults' := AppendResults(codec, selected, messages', ids, results, emittedResults);
      assert messages' == messages + ([message.value] + ResultMessages(codec, selected, ids, emittedResults));
    }
  }

  /** The parts of an exchange, by name. */
  lemma ExchangeShape(codec: Codec, events: seq<Event>, i: nat)
    requires i < |events|
    ensures KeyAt(events, i) == GroupKey(events[i], i)
    ensures MessageAt(codec, events, i) == GroupMessage(codec, Group(events, KeyAt(events, i)), PairedSet(events))
    ensures IdsAt(codec, events, i) == Ids(GroupCalls(codec, Group(events, KeyAt(events, i)), PairedSet(events)))
    ensures MessageAt(codec, events, i).None? ==> ExchangeAt(codec, events, i) == []
    ensures MessageAt(codec, events, i).Some? ==>
      ExchangeAt(codec, events, i)
      == [MessageAt(codec, events, i).value] + ResultMessages(codec, events, IdsAt(codec, events, i), ShownBefore(events, i))
  {
  }

  lemma IdsHaveResults(codec: Codec, events: seq<Event>, i: nat)
    requires i < |events|
    ensures forall id | id in IdsAt(codec, events, i) :: id in PairedSet(events)
  {
    ExchangeIds(codec, events, i);
    forall id | id in IdsAt(codec, events, i) ensures id in PairedSet(events) {
      assert id in IdsOfKey(events, KeyAt(events, i));
      IdsArePaired(events, KeyAt(events, i), id);
    }
  }

  lemma ChatStep(codec: Codec, events: seq<Event>, i: nat)
    requires i < |events|
    ensures ChatUpTo(codec, events, i + 1) == ChatUpTo(codec, events, i) + EventMessages(codec, events, i)
  {
  }

  // --------------------------------------------------------- well-formedness

  /** Call event `i` can be shown. */
  predicate ShowableAt(events: seq<Event>, i: nat)
    requires i < |events|
  {
    Showable(events[i], PairedSet(events))
  }

  function CallIdAt(events: seq<Event>, i: nat): string
    requires i < |events|
  {
    ToolCallId(events[i].payload)
  }

  /** No id is shown under two different assistant messages. */
  predicate NoReuse(events: seq<Event>) {
    forall i, j | 0 <= i < |events| && 0 <= j < |events| && ShowableAt(events, i) && ShowableAt(events, j)
        && CallIdAt(events, i) == CallIdAt(events, j) ::
      KeyAt(events, i) == KeyAt(events, j)
  }

  lemma IdsOfKeyHas(events: seq<Event>, i: nat)
    requires i < |events| && ShowableAt(events, i)
    ensures CallIdAt(events, i) in IdsOfKey(events, KeyAt(events, i))
  {
    var group := Group(events, KeyAt(events, i));
    GroupMembers(events, KeyAt(events, i), |events|);
    assert Member(i, events[i]) in group;
    var k :| 0 <= k < |group| && group[k] == Member(i, events[i]);
    ShownIdsHas(group, PairedSet(events), |group|, k);
  }

  lemma IdsOfKeyFrom(events: seq<Event>, key: string, id: string) returns (i: nat)
    requires id in IdsOfKey(events, key)
    ensures i < |events| && ShowableAt(events, i) && CallIdAt(events, i) == id && KeyAt(events, i) == key
  {
    var group := Group(events, key);
    GroupMembers(events, key, |events|);
    var k := ShownIdsFrom(group, PairedSet(events), |group|, id);
    assert group[k] in group;
    i := group[k].order;
  }

  /** Every spoken event has an opening event with its key. */
  lemma {:induction false} OpeningOf(events: seq<Event>, i: nat) returns (o: nat)
    requires i < |events| && Spoken(events[i])
    ensures o <= i && Opens(events, o) && KeyAt(events, o) == KeyAt(events, i)
  {
    if Opens(events, i) { o := i; }
    else {
      var j :| 0 <= j < i && Spoken(events[j]) && KeyAt(events, j) == KeyAt(events, i);
      o := OpeningOf(events, j);
    }
  }

  lemma {:induction false} ShownBeforeHas(events: seq<Event>, n: nat, j: nat)
    requires j < n <= |events| && Opens(events, j)
    ensures IdsOfKey(events, KeyAt(events, j)) <= ShownBefore(events, n)
  {
    if j < n - 1 { ShownBeforeHas(events, n - 1, j); }
  }

  lemma {:induction false} ShownBeforeFrom(events: seq<Event>, n: nat, id: string) returns (j: nat)
    requires n <= |events| && id in ShownBefore(events, n)
    ensures j < n && Opens(events, j) && id in IdsOfKey(events, KeyAt(events, j))
  {
    if Opens(events, n - 1) && id in IdsOfKey(events, KeyAt(events, n - 1)) { j := n - 1; }
    else { j := ShownBeforeFrom(events, n - 1, id); }
  }

  /** The message opened by event `m` shares no id with an earlier one. */
  ghost predicate Fresh(events: seq<Event>, m: nat)
    requires m < |events|
  {
    Opens(events, m) ==> IdsOfKey(events, KeyAt(events, m)) !! ShownBefore(events, m)
  }

  ghost predicate Clean(events: seq<Event>, n: nat)
    requires n <= |events|
  {
    forall m | 0 <= m < n :: Fresh(events, m)
  }

  lemma NoReuseIsFresh(events: seq<Event>, m: nat)
    requires NoReuse(events) && m < |events|
    ensures Fresh(events, m)
  {
    if Opens(events, m) {
      forall id | id in IdsOfKey(events, KeyAt(events, m)) && id in ShownBefore(events, m) ensures false {
        var j := ShownBeforeFrom(events, m, id);
        var a := IdsOfKeyFrom(events, KeyAt(events, m), id);
        var b := IdsOfKeyFrom(events, KeyAt(events, j), id);
      }
    }
  }

  lemma CleanIsNoReuse(events: seq<Event>, i: nat, j: nat)
    requires Clean(events, |events|)
    requires i < |events| && j < |events| && ShowableAt(events, i) && ShowableAt(events, j)
    requires CallIdAt(events, i) == CallIdAt(events, j)
    ensures KeyAt(events, i) == KeyAt(events, j)
  {
    var a := OpeningOf(events, i);
    var b := OpeningOf(events, j);
    IdsOfKeyHas(events, i);
    IdsOfKeyHas(events, j);
    assert Fresh(events, a) && Fresh(events, b);
    if a < b { ShownBeforeHas(events, b, a); }
    if b < a { ShownBeforeHas(events, a, b); }
  }

  lemma NoReuseIsClean(events: seq<Event>)
    ensures NoReuse(events) <==> Clean(events, |events|)
  {
    if NoReuse(events) {
      forall m | 0 <= m < |events| ensures Fresh(events, m) { NoReuseIsFresh(events, m); }
    }
    if Clean(events, |events|) {
      forall i, j | 0 <= i < |events| && 0 <= j < |events| && ShowableAt(events, i) && ShowableAt(events, j)
          && CallIdAt(events, i) == CallIdAt(events, j)
        ensures KeyAt(events, i) == KeyAt(events, j)
      {
        CleanIsNoReuse(events, i, j);
      }
    }
  }

  /** Answers to fresh, distinct ids come complete and in order. */
  lemma {:induction false} FreshIdsAnswered(codec: Codec, events: seq<Event>, ids: seq<string>, answered: set<string>)
    requires forall i, j | 0 <= i < j < |ids| :: ids[i] != ids[j]
    requires forall id | id in ids :: id !in answered
    ensures AllTools(ResultMessages(codec, events, ids, answered))
    ensures AnsweredIds(ResultMessages(codec, events, ids, answered)) == ids
  {
    if ids != [] {
      var rest := ResultMessages(codec, events, ids[1..], answered + {ids[0]});
      FreshIdsAnswered(codec, events, ids[1..], answered + {ids[0]});
      var head := ToolMsg(ids[0], ShownOutput(codec, events, ids[0]));
      assert ids[0] in ids;
      assert ResultMessages(codec, events, ids, answered) == [head] + rest;
      assert ([head] + rest)[1..] == rest;
      assert AnsweredIds([head] + rest) == [ids[0]] + AnsweredIds(rest);
    }
  }

  /** An id answered before leaves a gap. */
  lemma {:induction false} StaleIdsMissing(codec: Codec, events: seq<Event>, ids: seq<string>, answered: set<string>)
    ensures AllTools(ResultMessages(codec, events, ids, answered))
    ensures |ResultMessages(codec, events, ids, answered)| <= |ids|
    ensures (exists id :: id in ids && id in answered) ==> |ResultMessages(codec, events, ids, answered)| < |ids|
  {
    if ids != [] {
      if ids[0] in answered {
        StaleIdsMissing(codec, events, ids[1..], answered);
      } else {
        StaleIdsMissing(codec, events, ids[1..], answered + {ids[0]});
        if id :| id in ids && id in answered {
          assert id in ids[1..];
        }
      }
    }
  }

  lemma FreshExchangeOrdered(codec: Codec, events: seq<Event>, i: nat)
    requires i < |events| && Opens(events, i) && Fresh(events, i)
    ensures WellOrdered(ExchangeAt(codec, events, i))
  {
    ExchangeIds(codec, events, i);
    var message := MessageAt(codec, events, i);
    if message.Some? {
      var ids := IdsAt(codec, events, i);
      var calls := message.value.calls;
      forall id | id in ids ensures id !in ShownBefore(events, i) && id != "" {
        assert id in IdsOfKey(events, KeyAt(events, i));
        IdsArePaired(events, KeyAt(events, i), id);
      }
      FreshIdsAnswered(codec, events, ids, ShownBefore(events, i));
      forall k | 0 <= k < |calls| ensures calls[k].id != "" {
        assert CallIds(calls)[k] == ids[k] && ids[k] in ids;
      }
      OrderedExchange(message.value, ResultMessages(codec, events, ids, ShownBefore(events, i)));
    }
  }

  lemma FreshEventOrdered(codec: Codec, events: seq<Event>, i: nat)
    requires i < |events| && Fresh(events, i)
    ensures WellOrdered(EventMessages(codec, events, i))
  {
    if Spoken(events[i]) {
      if Opens(events, i) { FreshExchangeOrdered(codec, events, i); }
    } else if PlainMessages(events[i]) != [] {
      FormedPlain(PlainMessages(events[i])[0]);
    }
  }

  lemma CleanStep(events: seq<Event>, i: nat)
    requires i < |events| && Clean(events, i + 1)
    ensures Clean(events, i) && Fresh(events, i)
  {
    hide Fresh;
  }

  lemma NothingOrdered(codec: Codec, events: seq<Event>)
    ensures OrderedUpTo(codec, events, 0)
  {
    hide EventMessages;
  }

  ghost predicate OrderedUpTo(codec: Codec, events: seq<Event>, n: nat)
    requires n <= |events|
  {
    WellOrdered(ChatUpTo(codec, events, n))
  }

  lemma OrderedStep(codec: Codec, events: seq<Event>, i: nat)
    requires i < |events| && Fresh(events, i) && OrderedUpTo(codec, events, i)
    ensures OrderedUpTo(codec, events, i + 1)
  {
    hide WellOrdered, ChatUpTo, EventMessages, Fresh;
    ChatStep(codec, events, i);
    FreshEventOrdered(codec, events, i);
    OrderedAppend(ChatUpTo(codec, events, i), EventMessages(codec, events, i));
  }

  lemma {:induction false} CleanPrefixOrdered(codec: Codec, events: seq<Event>, n: nat)
    requires n <= |events| && Clean(events, n)
    ensures OrderedUpTo(codec, events, n)
  {
    hide *;
    if n == 0 {
      NothingOrdered(codec, events);
    } else {
      CleanStep(events, n - 1);
      CleanPrefixOrdered(codec, events, n - 1);
      OrderedStep(codec, events, n - 1);
    }
  }

  ghost predicate StartsPlain(ms: seq<ChatMessage>) {
    ms == [] || !ms[0].ToolMsg?
  }

  lemma EventStartsPlain(codec: Codec, events: seq<Event>, i: nat)
    requires i < |events|
    ensures StartsPlain(EventMessages(codec, events, i))
  {
    if Opens(events, i) { ExchangeIds(codec, events, i); }
  }

  lemma StartsPlainAppend(head: seq<ChatMessage>, before: seq<ChatMessage>, chunk: seq<ChatMessage>)
    requires StartsPlain(before) && StartsPlain(chunk)
    ensures StartsPlain(before + chunk)
    ensures (head + before) + chunk == head + (before + chunk)
  {
  }

  /** What follows the first `m` events never starts with a tool message. */
  lemma {:induction false} TailStartsPlain(codec: Codec, events: seq<Event>, m: nat, n: nat) returns (tail: seq<ChatMessage>)
    requires m <= n <= |events|
    ensures ChatUpTo(codec, events, n) == ChatUpTo(codec, events, m) + tail
    ensures StartsPlain(tail)
    decreases n
  {
    hide ChatUpTo, EventMessages;
    if m == n { tail := []; }
    else {
      var before := TailStartsPlain(codec, events, m, n - 1);
      EventStartsPlain(codec, events, n - 1);
      ChatStep(codec, events, n - 1);
      tail := before + EventMessages(codec, events, n - 1);
      StartsPlainAppend(ChatUpTo(codec, events, m), before, EventMessages(codec, events, n - 1));
    }
  }

  lemma GapIsNotOrdered(m: ChatMessage, answers: seq<ChatMessage>, tail: seq<ChatMessage>)
    requires m.AssistantMsg? && |answers| < |m.calls|
    requires StartsPlain(tail)
    ensures !WellOrdered([m] + answers + tail)
  {
    var ms := [m] + answers + tail;
    if |m.calls| < |ms| {
      assert ms[1..1 + |m.calls|][|answers|] == tail[0];
    }
  }

  lemma GapBreaks(head: seq<ChatMessage>, m: ChatMessage, answers: seq<ChatMessage>, tail: seq<ChatMessage>)
    requires WellOrdered(head)
    requires m.AssistantMsg? && |answers| < |m.calls|
    requires StartsPlain(tail)
    ensures !WellOrdered(head + ([m] + answers) + tail)
  {
    GapIsNotOrdered(m, answers, tail);
    OrderedAppend(head, [m] + answers + tail);
    assert head + ([m] + answers) + tail == head + ([m] + answers + tail);
  }

  lemma StaleExchange(codec: Codec, events: seq<Event>, m: nat)
    requires m < |events| && !Fresh(events, m)
    ensures MessageAt(codec, events, m).Some? && MessageAt(codec, events, m).value.AssistantMsg?
    ensures |ResultMessages(codec, events, IdsAt(codec, events, m), ShownBefore(events, m))| < |MessageAt(codec, events, m).value.calls|
  {
    var ids, shown := IdsAt(codec, events, m), ShownBefore(events, m);
    ExchangeIds(codec, events, m);
    var stale :| stale in IdsOfKey(events, KeyAt(events, m)) && stale in shown;
    assert stale in ids;
    StaleIdsMissing(codec, events, ids, shown);
    var calls := MessageAt(codec, events, m).value.calls;
    assert |calls| == |CallIds(calls)| == |ids|;
  }

  /** The first message that reuses an id is left with an unanswered call. */
  lemma ReuseBreaks(codec: Codec, events: seq<Event>, m: nat)
    requires m < |events| && Clean(events, m) && !Fresh(events, m)
    ensures !WellOrdered(Chat(codec, events))
  {
    StaleExchange(codec, events, m);
    var message := MessageAt(codec, events, m).value;
    var answers := ResultMessages(codec, events, IdsAt(codec, events, m), ShownBefore(events, m));
    var tail := TailStartsPlain(codec, events, m + 1, |events|);
    CleanPrefixOrdered(codec, events, m);
    assert EventMessages(codec, events, m) == [message] + answers;
    assert Chat(codec, events) == ChatUpTo(codec, events, m) + ([message] + answers) + tail;
    GapBreaks(ChatUpTo(codec, events, m), message, answers, tail);
  }

  /**
    The rebuilt transcript is well-formed, each call answered at once and in
    order, if and only if no call id is shown under two assistant messages.
   */
  lemma WellOrderedExactly(codec: Codec, events: seq<Event>)
    ensures WellOrdered(Chat(codec, events)) <==> NoReuse(events)
  {
    NoReuseIsClean(events);
    if Clean(events, |events|) {
      CleanPrefixOrdered(codec, events, |events|);
    } else {
      var m := FirstReuse(events, |events|);
      ReuseBreaks(codec, events, m);
    }
  }

  lemma {:induction false} FirstReuse(events: seq<Event>, n: nat) returns (m: nat)
    requires n <= |events| && !Clean(events, n)
    ensures m < n && Clean(events, m) && !Fresh(events, m)
  {
    if Clean(events, n - 1) { m := n - 1; }
    else { m := FirstReuse(events, n - 1); }
  }

  // ------------------------------------------------------ each call just once

  /** The ids of all calls that can be shown. */
  function ShowableIds(events: seq<Event>): set<string> {
    set i | 0 <= i < |events| && ShowableAt(events, i) :: CallIdAt(events, i)
  }

  lemma AllShown(events: seq<Event>)
    ensures ShownBefore(events, |events|) == ShowableIds(events)
  {
    forall id | id in ShownBefore(events, |events|) ensures id in ShowableIds(events) {
      var j := ShownBeforeFrom(events, |events|, id);
      var i := IdsOfKeyFrom(events, KeyAt(events, j), id);
    }
    forall i | 0 <= i < |events| && ShowableAt(events, i) ensures CallIdAt(events, i) in ShownBefore(events, |events|) {
      var o := OpeningOf(events, i);
      IdsOfKeyHas(events, i);
      ShownBeforeHas(events, |events|, o);
    }
  }

  lemma {:induction false} DistinctIsSet(ids: seq<string>)
    requires forall i, j | 0 <= i < j < |ids| :: ids[i] != ids[j]
    ensures multiset(ids) == multiset(SetOf(ids))
  {
    if ids != [] {
      var rest := ids[1..];
      DistinctIsSet(rest);
      assert ids == [ids[0]] + rest;
      assert ids[0] !in rest;
      assert SetOf(ids) == {ids[0]} + SetOf(rest);
    }
  }

  lemma DisjointSum(a: set<string>, b: set<string>)
    requires a !! b
    ensures multiset(a + b) == multiset(a) + multiset(b)
  {
  }

  lemma SumOfParts(a: seq<string>, b: seq<string>)
    ensures multiset(a + b) == multiset(a) + multiset(b)
  {
  }

  lemma AnswersOfCons(m: ChatMessage, rest: seq<ChatMessage>)
    ensures AllAnswers([m] + rest) == (if m.ToolMsg? then [m.callId] else []) + AllAnswers(rest)
  {
    assert ([m] + rest)[1..] == rest;
  }

  lemma {:induction false} ResultsAnswerOnce(codec: Codec, events: seq<Event>, ids: seq<string>, answered: set<string>)
    ensures multiset(AllAnswers(ResultMessages(codec, events, ids, answered))) == multiset(SetOf(ids) - answered)
  {
    if ids != [] {
      var rest := SetOf(ids[1..]);
      SetOfCons(ids);
      hide SetOf, AllAnswers, ShownOutput;
      if ids[0] in answered {
        ResultsAnswerOnce(codec, events, ids[1..], answered);
        assert SetOf(ids) - answered == rest - answered;
      } else {
        var answered' := answered + {ids[0]};
        ResultsAnswerOnce(codec, events, ids[1..], answered');
        OneMoreAnswer(ToolMsg(ids[0], ShownOutput(codec, events, ids[0])), ResultMessages(codec, events, ids[1..], answered'), rest - answered');
        assert SetOf(ids) - answered == {ids[0]} + (rest - answered');
      }
    }
  }

  lemma SetOfCons(ids: seq<string>)
    requires ids != []
    ensures SetOf(ids) == {ids[0]} + SetOf(ids[1..])
  {
    assert ids == [ids[0]] + ids[1..];
  }

  lemma OneMoreAnswer(m: ChatMessage, tail: seq<ChatMessage>, others: set<string>)
    requires m.ToolMsg? && m.callId !in others
    requires multiset(AllAnswers(tail)) == multiset(others)
    ensures multiset(AllAnswers([m] + tail)) == multiset({m.callId} + others)
  {
    AnswersOfCons(m, tail);
    hide AllAnswers;
    SumOfParts([m.callId], AllAnswers(tail));
    DisjointSum({m.callId}, others);
  }

  lemma AnswersOfExchange(codec: Codec, events: seq<Event>, i: nat)
    requires i < |events| && Opens(events, i)
    ensures multiset(AllAnswers(ExchangeAt(codec, events, i)))
      == multiset(IdsOfKey(events, KeyAt(events, i)) - ShownBefore(events, i))
  {
    ExchangeIds(codec, events, i);
    var message := MessageAt(codec, events, i);
    if message.Some? {
      var answers := ResultMessages(codec, events, IdsAt(codec, events, i), ShownBefore(events, i));
      AnswersOfCons(message.value, answers);
      ResultsAnswerOnce(codec, events, IdsAt(codec, events, i), ShownBefore(events, i));
    }
  }

  lemma ShownStep(events: seq<Event>, i: nat)
    requires i < |events|
    ensures ShownBefore(events, i + 1) == ShownBefore(events, i) + if Opens(events, i) then IdsOfKey(events, KeyAt(events, i)) else {}
  {
  }

  /** An event that opens no assistant message shows no call and no answer. */
  lemma QuietEvent(codec: Codec, events: seq<Event>, i: nat)
    requires i < |events|
    ensures Opens(events, i) ==> EventMessages(codec, events, i) == ExchangeAt(codec, events, i)
    ensures !Opens(events, i) ==> AllAnswers(EventMessages(codec, events, i)) == [] && AllCalls(EventMessages(codec, events, i)) == []
  {
  }

  lemma AnswersOfEvent(codec: Codec, events: seq<Event>, i: nat)
    requires i < |events|
    ensures multiset(AllAnswers(EventMessages(codec, events, i))) == multiset(ShownBefore(events, i + 1) - ShownBefore(events, i))
  {
    hide *;
    ShownStep(events, i);
    QuietEvent(codec, events, i);
    var before, after := ShownBefore(events, i), ShownBefore(events, i + 1);
    if Opens(events, i) {
      AnswersOfExchange(codec, events, i);
      assert after - before == IdsOfKey(events, KeyAt(events, i)) - before;
    } else {
      assert after - before == {};
    }
  }

  /** Two stretches of messages whose ids add up. */
  lemma IdsAddUp(head: seq<string>, chunk: seq<string>, before: set<string>, after: set<string>)
    requires before <= after
    requires multiset(head) == multiset(before) && multiset(chunk) == multiset(after - before)
    ensures multiset(head + chunk) == multiset(after)
  {
    DisjointSum(before, after - before);
    assert before + (after - before) == after;
  }

  /** The answers given up to event `n` are exactly the ids shown so far, each once. */
  ghost predicate AnswersSettled(codec: Codec, events: seq<Event>, n: nat)
    requires n <= |events|
  {
    multiset(AllAnswers(ChatUpTo(codec, events, n))) == multiset(ShownBefore(events, n))
  }

  lemma AnswersStep(codec: Codec, events: seq<Event>, i: nat)
    requires i < |events| && AnswersSettled(codec, events, i)
    ensures AnswersSettled(codec, events, i + 1)
  {
    hide ChatUpTo, ShownBefore, EventMessages, AllAnswers, Opens, IdsOfKey;
    var head, chunk := ChatUpTo(codec, events, i), EventMessages(codec, events, i);
    ChatStep(codec, events, i);
    ShownStep(events, i);
    AnswersOfEvent(codec, events, i);
    AllAnswersAppend(head, chunk);
    IdsAddUp(AllAnswers(head), AllAnswers(chunk), ShownBefore(events, i), ShownBefore(events, i + 1));
  }

  lemma {:induction false} AnswersUpTo(codec: Codec, events: seq<Event>, n: nat)
    requires n <= |events|
    ensures AnswersSettled(codec, events, n)
  {
    if n == 0 {
      hide EventMessages, Opens;
    } else {
      hide *;
      AnswersUpTo(codec, events, n - 1);
      AnswersStep(codec, events, n - 1);
    }
  }

  /** No answer is repeated, and every call that can be shown is answered somewhere. */
  lemma AnsweredExactlyOnce(codec: Codec, events: seq<Event>)
    ensures multiset(AllAnswers(Chat(codec, events))) == multiset(ShowableIds(events))
  {
    AnswersUpTo(codec, events, |events|);
    AllShown(events);
  }

  lemma {:induction false} NoCallsInTools(block: seq<ChatMessage>)
    requires AllTools(block)
    ensures AllCalls(block) == []
  {
    if block != [] { NoCallsInTools(block[1..]); }
  }

  lemma {:induction false} CallIdsAppend(a: seq<FunctionCall>, b: seq<FunctionCall>)
    ensures CallIds(a + b) == CallIds(a) + CallIds(b)
  {
  }

  lemma CallsOfBlock(m: ChatMessage, answers: seq<ChatMessage>)
    requires m.AssistantMsg? && AllTools(answers)
    ensures AllCalls([m] + answers) == m.calls
  {
    NoCallsInTools(answers);
    assert ([m] + answers)[1..] == answers;
  }

  lemma CallsOfExchange(codec: Codec, events: seq<Event>, i: nat)
    requires i < |events| && Opens(events, i)
    ensures multiset(CallIds(AllCalls(ExchangeAt(codec, events, i)))) == multiset(IdsOfKey(events, KeyAt(events, i)))
  {
    ExchangeIds(codec, events, i);
    var message := MessageAt(codec, events, i);
    if message.Some? {
      StaleIdsMissing(codec, events, IdsAt(codec, events, i), ShownBefore(events, i));
      CallsOfBlock(message.value, ResultMessages(codec, events, IdsAt(codec, events, i), ShownBefore(events, i)));
      DistinctIsSet(IdsAt(codec, events, i));
    }
  }

  lemma CallsOfEvent(codec: Codec, events: seq<Event>, i: nat)
    requires i < |events| && Fresh(events, i)
    ensures multiset(CallIds(AllCalls(EventMessages(codec, events, i)))) == multiset(ShownBefore(events, i + 1) - ShownBefore(events, i))
  {
    var before, after := ShownBefore(events, i), ShownBefore(events, i + 1);
    ShownStep(events, i);
    QuietEvent(codec, events, i);
    if Opens(events, i) {
      assert IdsOfKey(events, KeyAt(events, i)) !! before;
      hide *;
      CallsOfExchange(codec, events, i);
      assert after - before == IdsOfKey(events, KeyAt(events, i));
    } else {
      assert after - before == {};
    }
  }

  ghost predicate CallsSettled(codec: Codec, events: seq<Event>, n: nat)
    requires n <= |events|
  {
    multiset(CallIds(AllCalls(ChatUpTo(codec, events, n)))) == multiset(ShownBefore(events, n))
  }

  lemma CallsStep(codec: Codec, events: seq<Event>, i: nat)
    requires i < |events| && Fresh(events, i) && CallsSettled(codec, events, i)
    ensures CallsSettled(codec, events, i + 1)
  {
    hide ChatUpTo, ShownBefore, EventMessages, AllCalls, CallIds, Opens, IdsOfKey, Fresh;
    var head, chunk := ChatUpTo(codec, events, i), EventMessages(codec, events, i);
    ChatStep(codec, events, i);
    ShownStep(events, i);
    CallsOfEvent(codec, events, i);
    AllCallsAppend(head, chunk);
    CallIdsAppend(AllCalls(head), AllCalls(chunk));
    IdsAddUp(CallIds(AllCalls(head)), CallIds(AllCalls(chunk)), ShownBefore(events, i), ShownBefore(events, i + 1));
  }

  lemma NothingCalled(codec: Codec, events: seq<Event>)
    ensures CallsSettled(codec, events, 0)
  {
    hide EventMessages, Opens;
  }

  lemma {:induction false} CallsUpToClean(codec: Codec, events: seq<Event>, n: nat)
    requires n <= |events| && Clean(events, n)
    ensures CallsSettled(codec, events, n)
  {
    hide *;
    if n == 0 {
      NothingCalled(codec, events);
    } else {
      CleanStep(events, n - 1);
      CallsUpToClean(codec, events, n - 1);
      CallsStep(codec, events, n - 1);
    }
  }

  /** Without reuse, every paired named call appears in the transcript exactly once. */
  lemma ShownExactlyOnce(codec: Codec, events: seq<Event>)
    requires NoReuse(events)
    ensures multiset(CallIds(AllCalls(Chat(codec, events)))) == multiset(ShowableIds(events))
  {
    NoReuseIsClean(events);
    CallsUpToClean(codec, events, |events|);
    AllShown(events);
  }
}
