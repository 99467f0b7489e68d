/**
  The two provider formats say the same thing: the same texts, calls and
  results in the same order, and exactly when the call arguments agree too.
 */
module ProviderEquivalence {
  import opened JsonValue
  import opened Tables
  import opened Sorting
  import opened ContextEvents
  import opened ProviderMessages
  import opened Exchanges
  import opened OpenAiTranscript
  import opened AnthropicTranscript

  // ----------------------------------------------- one assistant message

  predicate IsText(b: AssistantBlock) { b.TextBlock? }

  lemma {:induction false} TextsOfKept(xs: seq<Keyed<AssistantBlock>>)
    ensures TextOfBlocks(Items(xs)) == TextOfBlocks(Items(Keep(xs, IsText)))
  {
    if xs != [] {
      TextsOfKept(xs[1..]);
      assert Items(xs)[1..] == Items(xs[1..]);
      if IsText(xs[0].item) {
        assert Items(Keep(xs, IsText))[1..] == Items(Keep(xs[1..], IsText));
      }
    }
  }

  lemma {:induction false} CallsOfKept(codec: Codec, xs: seq<Keyed<AssistantBlock>>)
    ensures CallsOfBlocks(codec, Items(xs)) == CallsOfBlocks(codec, Items(Keep(xs, IsUse)))
  {
    if xs != [] {
      CallsOfKept(codec, xs[1..]);
      assert Items(xs)[1..] == Items(xs[1..]);
      if IsUse(xs[0].item) {
        assert Items(Keep(xs, IsUse))[1..] == Items(Keep(xs[1..], IsUse));
      }
    }
  }

  /** Numbering a list that is sorted by block index leaves it sorted. */
  lemma NumberedTextsSorted(texts: seq<Keyed<string>>)
    requires Sorted(texts)
    ensures Sorted(NumberTexts(texts, 0))
  {
  }

  lemma {:induction false} TextsOfNumbered(texts: seq<Keyed<string>>, from: nat)
    ensures TextOfBlocks(Items(NumberTexts(texts, from))) == JoinTexts(texts)
  {
    if texts != [] {
      TextsOfNumbered(texts[1..], from + 1);
      assert Items(NumberTexts(texts, from))[1..] == Items(NumberTexts(texts[1..], from + 1));
    }
  }

  /** The calls as the Anthropic form holds them, rendered to text once. */
  function DirectCalls(codec: Codec, calls: seq<Keyed<Call>>): (r: seq<FunctionCall>)
  {
    seq(|calls|, i requires 0 <= i < |calls| =>
      FunctionCall(calls[i].item.id, calls[i].item.name, codec.dumps(calls[i].item.input)))
  }

  lemma {:induction false} CallsOfNumbered(codec: Codec, calls: seq<Keyed<Call>>, from: nat)
    ensures CallsOfBlocks(codec, Items(NumberCalls(calls, from))) == DirectCalls(codec, calls)
  {
    if calls != [] {
      CallsOfNumbered(codec, calls[1..], from + 1);
      assert Items(NumberCalls(calls, from))[1..] == Items(NumberCalls(calls[1..], from + 1));
    }
  }

  /** Interleaving texts and calls by block index changes neither the text nor the order of the calls. */
  lemma InterleavingKeepsBoth(codec: Codec, texts: seq<Keyed<string>>, calls: seq<Keyed<Call>>)
    requires Sorted(texts) && Sorted(calls)
    ensures TextOfBlocks(Items(Sort(MixedBlocks(texts, calls)))) == JoinTexts(texts)
    ensures CallsOfBlocks(codec, Items(Sort(MixedBlocks(texts, calls)))) == DirectCalls(codec, calls)
  {
    var named, used := NumberTexts(texts, 0), NumberCalls(calls, |texts|);
    var mixed := MixedBlocks(texts, calls);
    assert Keep(mixed, IsText) == named by {
      KeepAppend(named, used, IsText);
      KeepAll(named, IsText);
      KeepNone(used, IsText);
    }
    assert Keep(mixed, IsUse) == used by {
      KeepAppend(named, used, IsUse);
      KeepNone(named, IsUse);
      KeepAll(used, IsUse);
    }
    NumberedTextsSorted(texts);
    NumberedSorted(calls, |texts|);
    KeepSort(mixed, IsText);
    KeepSort(mixed, IsUse);
    SortOfSorted(named);
    SortOfSorted(used);
    TextsOfKept(Sort(mixed));
    CallsOfKept(codec, Sort(mixed));
    TextsOfNumbered(texts, 0);
    CallsOfNumbered(codec, calls, |texts|);
  }

  /** Decoding the input once more on the way to text changes nothing. */
  predicate SettledInput(codec: Codec, call: Keyed<Call>) {
    codec.dumps(ToolInput(codec, call.item.input)) == codec.dumps(call.item.input)
  }

  predicate SettledCalls(codec: Codec, calls: seq<Keyed<Call>>) {
    forall k | 0 <= k < |calls| :: SettledInput(codec, calls[k])
  }

  lemma SameCallsExactly(codec: Codec, calls: seq<Keyed<Call>>)
    ensures FunctionCalls(codec, calls) == DirectCalls(codec, calls) <==> SettledCalls(codec, calls)
  {
    if FunctionCalls(codec, calls) == DirectCalls(codec, calls) {
      forall k | 0 <= k < |calls| ensures SettledInput(codec, calls[k]) {
        assert FunctionCalls(codec, calls)[k] == DirectCalls(codec, calls)[k];
      }
    }
  }

  // ------------------------------------------------------------- one event

  lemma {:induction false} SameResults(codec: Codec, events: seq<Event>, ids: seq<string>, answered: set<string>)
    ensures ChatTranscript(ResultMessages(codec, events, ids, answered)) == UserBlocksMeaning(ResultBlocks(codec, events, ids, answered))
  {
    if ids != [] {
      if ids[0] in answered {
        SameResults(codec, events, ids[1..], answered);
      } else {
        SameResults(codec, events, ids[1..], answered + {ids[0]});
        assert ResultMessages(codec, events, ids, answered)[1..] == ResultMessages(codec, events, ids[1..], answered + {ids[0]});
        assert ResultBlocks(codec, events, ids, answered)[1..] == ResultBlocks(codec, events, ids[1..], answered + {ids[0]});
      }
    }
  }

  /** The calls shown by the message that event `i` opens. */
  function CallsAt(codec: Codec, events: seq<Event>, i: nat): seq<Keyed<Call>>
    requires i < |events|
  {
    GroupCalls(codec, Group(events, KeyAt(events, i)), PairedSet(events))
  }

  function TextsAt(events: seq<Event>, i: nat): seq<Keyed<string>>
    requires i < |events|
  {
    GroupTexts(Group(events, KeyAt(events, i)))
  }

  /** What an exchange says, given how its calls are rendered. */
  function ExchangeSaid(codec: Codec, events: seq<Event>, i: nat, calls: seq<FunctionCall>): seq<Said>
    requires i < |events|
  {
    if JoinTexts(TextsAt(events, i)) == "" && CallsAt(codec, events, i) == [] then []
    else
      [AssistantSide(JoinTexts(TextsAt(events, i)), calls)]
      + ChatTranscript(ResultMessages(codec, events, IdsAt(codec, events, i), ShownBefore(events, i)))
  }

  lemma ChatExchangeSays(codec: Codec, events: seq<Event>, i: nat)
    requires i < |events|
    ensures ChatTranscript(ExchangeAt(codec, events, i))
      == ExchangeSaid(codec, events, i, FunctionCalls(codec, CallsAt(codec, events, i)))
  {
    var message := MessageAt(codec, events, i);
    if message.Some? {
      var answers := ResultMessages(codec, events, IdsAt(codec, events, i), ShownBefore(events, i));
      assert ([message.value] + answers)[1..] == answers;
    }
  }

  lemma {:induction false} NoBlankTexts(group: seq<Member>, n: nat)
    requires n <= |group|
    ensures forall t | t in TextsUpTo(group, n).blocks :: t.item != ""
  {
    if n > 0 {
      NoBlankTexts(group, n - 1);
      var before := TextsUpTo(group, n - 1);
      var e := group[n - 1].event;
      if e.kind.AssistantMessage? && Get(e.payload, "text_blocks").Some? && Get(e.payload, "text_blocks").value.Arr? {
        var raw := Get(e.payload, "text_blocks").value.items;
        NoBlankBlocks(before, group[n - 1].order, raw, |raw|);
      }
    }
  }

  lemma {:induction false} NoBlankBlocks(texts: Texts, order: nat, raw: seq<Json>, n: nat)
    requires n <= |raw|
    requires forall t | t in texts.blocks :: t.item != ""
    ensures forall t | t in AddBlocksUpTo(texts, order, raw, n).blocks :: t.item != ""
  {
    if n > 0 { NoBlankBlocks(texts, order, raw, n - 1); }
  }

  lemma NonBlankHead(texts: seq<Keyed<string>>)
    requires forall t | t in texts :: t.item != ""
    ensures JoinTexts(texts) == "" ==> texts == []
  {
  }

  /** A message without text has no text block at all. */
  lemma BlankMeansNone(group: seq<Member>)
    requires JoinTexts(GroupTexts(group)) == ""
    ensures GroupTexts(group) == []
  {
    NoBlankTexts(group, |group|);
    SameMembers(TextsUpTo(group, |group|).blocks);
    NonBlankHead(GroupTexts(group));
  }

  lemma TurnExchangeTranscript(codec: Codec, blocks: seq<AssistantBlock>, answers: seq<UserBlock>)
    ensures TurnTranscript(codec, [FromAssistant(blocks)] + (if answers == [] then [] else [FromUser(Blocks(answers))]))
      == [AssistantSide(TextOfBlocks(blocks), CallsOfBlocks(codec, blocks))] + UserBlocksMeaning(answers)
  {
    if answers != [] {
      assert ([FromAssistant(blocks)] + [FromUser(Blocks(answers))])[1..] == [FromUser(Blocks(answers))];
      assert TurnTranscript(codec, [FromUser(Blocks(answers))]) == UserBlocksMeaning(answers) + [];
    }
  }

  lemma BlocksSay(codec: Codec, events: seq<Event>, i: nat)
    requires i < |events|
    ensures TextOfBlocks(BlocksAt(codec, events, i)) == JoinTexts(TextsAt(events, i))
    ensures CallsOfBlocks(codec, BlocksAt(codec, events, i)) == DirectCalls(codec, CallsAt(codec, events, i))
    ensures BlocksAt(codec, events, i) == [] <==> JoinTexts(TextsAt(events, i)) == "" && CallsAt(codec, events, i) == []
  {
    var group := Group(events, KeyAt(events, i));
    SortSorted(TextsUpTo(group, |group|).blocks);
    SortSorted(CallsUpTo(codec, group, PairedSet(events), |group|));
    InterleavingKeepsBoth(codec, TextsAt(events, i), CallsAt(codec, events, i));
    BlocksCount(TextsAt(events, i), CallsAt(codec, events, i));
    if JoinTexts(TextsAt(events, i)) == "" { BlankMeansNone(group); }
  }

  lemma TurnExchangeSays(codec: Codec, events: seq<Event>, i: nat)
    requires i < |events|
    ensures TurnTranscript(codec, TurnExchangeAt(codec, events, i))
      == ExchangeSaid(codec, events, i, DirectCalls(codec, CallsAt(codec, events, i)))
  {
    TurnExchangeShape(codec, events, i);
    BlocksSay(codec, events, i);
    SameResults(codec, events, IdsAt(codec, events, i), ShownBefore(events, i));
    TurnExchangeTranscript(codec, BlocksAt(codec, events, i), AnswersAt(codec, events, i));
    hide TurnExchangeAt, BlocksAt, AnswersAt, IdsAt, TextsAt, CallsAt, JoinTexts, ShownBefore;
  }

  /** What event `i` says in either format; `direct` picks the rendering of the calls. */
  function EventSaid(codec: Codec, events: seq<Event>, i: nat, direct: bool): seq<Said>
    requires i < |events|
  {
    if Spoken(events[i]) then
      if Opens(events, i) then
        ExchangeSaid(codec, events, i,
          if direct then DirectCalls(codec, CallsAt(codec, events, i)) else FunctionCalls(codec, CallsAt(codec, events, i)))
      else []
    else if UserSideText(events[i]) != "" then [UserSide(UserSideText(events[i]))]
    else []
  }

  function LogSaid(codec: Codec, events: seq<Event>, n: nat, direct: bool): seq<Said>
    requires n <= |events|
  {
    if n == 0 then [] else LogSaid(codec, events, n - 1, direct) + EventSaid(codec, events, n - 1, direct)
  }

  lemma ChatEventSays(codec: Codec, events: seq<Event>, i: nat)
    requires i < |events|
    ensures ChatTranscript(EventMessages(codec, events, i)) == EventSaid(codec, events, i, false)
  {
    hide ExchangeSaid, ExchangeAt, Opens;
    ChatExchangeSays(codec, events, i);
  }

  /** The chat transcript of the first `n` events says what those events say. */
  ghost predicate ChatSettled(codec: Codec, events: seq<Event>, n: nat)
    requires n <= |events|
  {
    ChatTranscript(ChatUpTo(codec, events, n)) == LogSaid(codec, events, n, false)
  }

  lemma LogStep(codec: Codec, events: seq<Event>, i: nat, direct: bool)
    requires i < |events|
    ensures LogSaid(codec, events, i + 1, direct) == LogSaid(codec, events, i, direct) + EventSaid(codec, events, i, direct)
  {
  }

  lemma ChatSettledStep(codec: Codec, events: seq<Event>, i: nat)
    requires i < |events| && ChatSettled(codec, events, i)
    ensures ChatSettled(codec, events, i + 1)
  {
    hide EventMessages, EventSaid, ChatTranscript, ChatUpTo, LogSaid;
    ChatEventSays(codec, events, i);
    ChatStep(codec, events, i);
    LogStep(codec, events, i, false);
    ChatTranscriptAppend(ChatUpTo(codec, events, i), EventMessages(codec, events, i));
  }

  lemma {:induction false} ChatSays(codec: Codec, events: seq<Event>, n: nat)
    requires n <= |events|
    ensures ChatSettled(codec, events, n)
  {
    if n == 0 {
      hide EventMessages, EventSaid;
    } else {
      hide *;
      ChatSays(codec, events, n - 1);
      ChatSettledStep(codec, events, n - 1);
    }
  }

  lemma UserTextSays(codec: Codec, ms: seq<TurnMessage>, text: string)
    ensures TurnTranscript(codec, AppendUserText(ms, text)) == TurnTranscript(codec, ms) + [UserSide(text)]
  {
    hide TurnTranscript, UserBlocksMeaning;
    if ms == [] || !ms[|ms| - 1].FromUser? {
      OneTurnSays(codec, FromUser(Plain(text)));
      TurnTranscriptAppend(codec, ms, [FromUser(Plain(text))]);
    } else {
      var init, m := ms[..|ms| - 1], ms[|ms| - 1];
      var blocks := if m.content.Plain? then [UserTextBlock(m.content.text)] else m.content.blocks;
      var joined := FromUser(Blocks(blocks + [UserTextBlock(text)]));
      assert ms == init + [m] && AppendUserText(ms, text) == init + [joined];
      TurnTranscriptAppend(codec, init, [m]);
      TurnTranscriptAppend(codec, init, [joined]);
      OneTurnSays(codec, m);
      OneTurnSays(codec, joined);
      JoinedTextSays(codec, m, text);
    }
  }

  lemma JoinedTextSays(codec: Codec, m: TurnMessage, text: string)
    requires m.FromUser?
    ensures var blocks := if m.content.Plain? then [UserTextBlock(m.content.text)] else m.content.blocks;
      UserBlocksMeaning(blocks + [UserTextBlock(text)]) == TurnMeaning(codec, m) + [UserSide(text)]
  {
    var blocks := if m.content.Plain? then [UserTextBlock(m.content.text)] else m.content.blocks;
    UserBlocksAppend(blocks, [UserTextBlock(text)]);
    assert UserBlocksMeaning([UserTextBlock(text)]) == [UserSide(text)];
  }

  lemma OneTurnSays(codec: Codec, m: TurnMessage)
    ensures TurnTranscript(codec, [m]) == TurnMeaning(codec, m)
  {
  }

  lemma TurnEventSays(codec: Codec, events: seq<Event>, i: nat, ms: seq<TurnMessage>)
    requires i < |events|
    ensures TurnTranscript(codec, TurnsWith(codec, events, i, ms)) == TurnTranscript(codec, ms) + EventSaid(codec, events, i, true)
  {
    hide ExchangeSaid, TurnExchangeAt, Opens, TurnTranscript, AppendUserText, UserSideText;
    TurnExchangeSays(codec, events, i);
    TurnTranscriptAppend(codec, ms, TurnExchangeAt(codec, events, i));
    UserTextSays(codec, ms, UserSideText(events[i]));
  }

  ghost predicate TurnsSettled(codec: Codec, events: seq<Event>, n: nat)
    requires n <= |events|
  {
    TurnTranscript(codec, TurnsUpTo(codec, events, n)) == LogSaid(codec, events, n, true)
  }

  lemma TurnsSettledStep(codec: Codec, events: seq<Event>, i: nat)
    requires i < |events| && TurnsSettled(codec, events, i)
    ensures TurnsSettled(codec, events, i + 1)
  {
    hide TurnsWith, TurnsUpTo, EventSaid, TurnTranscript, LogSaid;
    TurnEventSays(codec, events, i, TurnsUpTo(codec, events, i));
    TurnsUnfold(codec, events, i);
    LogStep(codec, events, i, true);
  }

  lemma {:induction false} TurnsSay(codec: Codec, events: seq<Event>, n: nat)
    requires n <= |events|
    ensures TurnsSettled(codec, events, n)
  {
    if n == 0 {
      hide TurnsWith, EventSaid;
    } else {
      hide *;
      TurnsSay(codec, events, n - 1);
      TurnsSettledStep(codec, events, n - 1);
    }
  }

  // ------------------------------------------------------------- whole logs

  /** Every call that is shown renders the same whether its input is decoded once or twice. */
  predicate SettledInputs(codec: Codec, events: seq<Event>, n: nat)
    requires n <= |events|
  {
    forall i | 0 <= i < n && Opens(events, i) :: SettledCalls(codec, CallsAt(codec, events, i))
  }

  lemma SameEventExactly(codec: Codec, events: seq<Event>, i: nat)
    requires i < |events|
    ensures |EventSaid(codec, events, i, true)| == |EventSaid(codec, events, i, false)|
    ensures EventSaid(codec, events, i, true) == EventSaid(codec, events, i, false) <==>
      (Opens(events, i) ==> SettledCalls(codec, CallsAt(codec, events, i)))
  {
    if Opens(events, i) {
      var calls := CallsAt(codec, events, i);
      SameCallsExactly(codec, calls);
      hide CallsAt, TextsAt, IdsAt, ShownBefore, JoinTexts, SettledCalls;
      var direct, decoded := EventSaid(codec, events, i, true), EventSaid(codec, events, i, false);
      if direct == decoded && direct != [] {
        assert direct[0] == decoded[0];
      }
    }
  }

  /** The two renderings of the first `n` events are equally long, and equal exactly when the inputs are settled. */
  ghost predicate SameExactly(codec: Codec, events: seq<Event>, n: nat)
    requires n <= |events|
  {
    && |LogSaid(codec, events, n, true)| == |LogSaid(codec, events, n, false)|
    && (LogSaid(codec, events, n, true) == LogSaid(codec, events, n, false) <==> SettledInputs(codec, events, n))
  }

  lemma SettledStep(codec: Codec, events: seq<Event>, i: nat)
    requires i < |events|
    ensures SettledInputs(codec, events, i + 1) <==>
      SettledInputs(codec, events, i) && (Opens(events, i) ==> SettledCalls(codec, CallsAt(codec, events, i)))
  {
    hide Opens, SettledCalls, CallsAt;
  }

  lemma SameStep(codec: Codec, events: seq<Event>, i: nat)
    requires i < |events| && SameExactly(codec, events, i)
    ensures SameExactly(codec, events, i + 1)
  {
    hide EventSaid, LogSaid, Opens, SettledCalls, CallsAt, SettledInputs;
    SameEventExactly(codec, events, i);
    SettledStep(codec, events, i);
    LogStep(codec, events, i, true);
    LogStep(codec, events, i, false);
    SplitEqual(LogSaid(codec, events, i, true), LogSaid(codec, events, i, false),
               EventSaid(codec, events, i, true), EventSaid(codec, events, i, false));
  }

  lemma {:induction false} SameLogExactly(codec: Codec, events: seq<Event>, n: nat)
    requires n <= |events|
    ensures SameExactly(codec, events, n)
  {
    if n == 0 {
      hide EventSaid, Opens, SettledCalls, CallsAt;
    } else {
      hide *;
      SameLogExactly(codec, events, n - 1);
      SameStep(codec, events, n - 1);
    }
  }

  lemma SplitEqual(a: seq<Said>, b: seq<Said>, x: seq<Said>, y: seq<Said>)
    requires |a| == |b|
    ensures a + x == b + y <==> a == b && x == y
  {
    if a + x == b + y {
      assert a == (a + x)[..|a|] && b == (b + y)[..|a|];
      assert x == (a + x)[|a|..] && y == (b + y)[|a|..];
    }
  }

  /**
    The two back ends mean the same: for every log the two transcripts say the
    same user texts, notes, assistant texts, calls and results in the same
    order, if and only if no shown call has an input whose decoded form would
    decode again to something else.
   */
  lemma BackEndsAgreeExactly(codec: Codec, events: seq<Event>)
    ensures TurnTranscript(codec, Turns(codec, events)) == ChatTranscript(Chat(codec, events)) <==>
      SettledInputs(codec, events, |events|)
    ensures |TurnTranscript(codec, Turns(codec, events))| == |ChatTranscript(Chat(codec, events))|
  {
    ChatSays(codec, events, |events|);
    TurnsSay(codec, events, |events|);
    SameLogExactly(codec, events, |events|);
  }

  // ------------------------------------------------ which inputs are settled

  /** Call event `j` is shown: it can be, and no earlier call of its message has its id. */
  predicate FirstShown(events: seq<Event>, j: nat)
    requires j < |events|
  {
    ShowableAt(events, j) && forall i | 0 <= i < j && ShowableAt(events, i) && KeyAt(events, i) == KeyAt(events, j) ::
      CallIdAt(events, i) != CallIdAt(events, j)
  }

  /** The input of a call event as it is stored. */
  function StoredInput(events: seq<Event>, j: nat): Json
    requires j < |events|
  {
    RawInput(events[j].payload)
  }

  /** The stored input is a text that decodes to null, or to a text that decodes again to something else. */
  predicate TwiceEncoded(codec: Codec, input: Json) {
    input.Str? &&
    match codec.loads(input.s)
    case Some(Null) => true
    case Some(Str(inner)) => codec.loads(inner).Some? && codec.loads(inner).value != Str(inner)
    case _ => false
  }

  function ShownCall(codec: Codec, events: seq<Event>, j: nat): Keyed<Call>
    requires j < |events|
  {
    MemberCall(codec, Member(j, events[j]))
  }

  lemma {:induction false} CallFrom(codec: Codec, group: seq<Member>, paired: set<string>, n: nat, c: Keyed<Call>) returns (m: nat)
    requires n <= |group| && c in CallsUpTo(codec, group, paired, n)
    ensures m < n && Showable(group[m].event, paired) && c == MemberCall(codec, group[m])
    ensures ToolCallId(group[m].event.payload) !in ShownIds(group, paired, m)
  {
    hide MemberCall, Showable;
    if c in CallsUpTo(codec, group, paired, n - 1) { m := CallFrom(codec, group, paired, n - 1, c); }
    else { m := n - 1; }
  }

  lemma {:induction false} CallHas(codec: Codec, group: seq<Member>, paired: set<string>, n: nat, m: nat)
    requires m < n <= |group| && Showable(group[m].event, paired)
    requires ToolCallId(group[m].event.payload) !in ShownIds(group, paired, m)
    ensures MemberCall(codec, group[m]) in CallsUpTo(codec, group, paired, n)
  {
    hide MemberCall, Showable;
    if m < n - 1 { CallHas(codec, group, paired, n - 1, m); }
  }

  lemma MemberIndex(events: seq<Event>, j: nat) returns (m: nat)
    requires j < |events| && Spoken(events[j])
    ensures m < |Group(events, KeyAt(events, j))| && Group(events, KeyAt(events, j))[m] == Member(j, events[j])
  {
    var key := KeyAt(events, j);
    GroupMembers(events, key, |events|);
    assert Member(j, events[j]) in Group(events, key);
    m :| 0 <= m < |Group(events, key)| && Group(events, key)[m] == Member(j, events[j]);
  }

  /** Being first among the events is being first in the group. */
  lemma FirstIsFirst(events: seq<Event>, j: nat, m: nat)
    requires j < |events| && ShowableAt(events, j)
    requires m < |Group(events, KeyAt(events, j))| && Group(events, KeyAt(events, j))[m] == Member(j, events[j])
    ensures FirstShown(events, j) <==> CallIdAt(events, j) !in ShownIds(Group(events, KeyAt(events, j)), PairedSet(events), m)
  {
    hide *;
    if CallIdAt(events, j) in ShownIds(Group(events, KeyAt(events, j)), PairedSet(events), m) { ShownMeansEarlier(events, j, m); }
    if !FirstShown(events, j) { EarlierMeansShown(events, j, m); }
  }

  lemma ShownMeansEarlier(events: seq<Event>, j: nat, m: nat)
    requires j < |events| && m < |Group(events, KeyAt(events, j))| && Group(events, KeyAt(events, j))[m] == Member(j, events[j])
    requires CallIdAt(events, j) in ShownIds(Group(events, KeyAt(events, j)), PairedSet(events), m)
    ensures !FirstShown(events, j)
  {
    var group := Group(events, KeyAt(events, j));
    GroupMembers(events, KeyAt(events, j), |events|);
    var l := ShownIdsFrom(group, PairedSet(events), m, CallIdAt(events, j));
    hide GroupUpTo, PairedSet, GroupKey, ToolCallId, TextAt, ShownIds;
    assert group[l] in group && group[l].order < group[m].order;
    assert ShowableAt(events, group[l].order);
  }

  lemma EarlierMeansShown(events: seq<Event>, j: nat, m: nat)
    requires j < |events| && m < |Group(events, KeyAt(events, j))| && Group(events, KeyAt(events, j))[m] == Member(j, events[j])
    requires ShowableAt(events, j) && !FirstShown(events, j)
    ensures CallIdAt(events, j) in ShownIds(Group(events, KeyAt(events, j)), PairedSet(events), m)
  {
    hide *;
    var i := EarlierCall(events, j);
    var l := EarlierMember(events, KeyAt(events, j), i, m);
    SameShowable(events, i);
    ShownIdsHas(Group(events, KeyAt(events, j)), PairedSet(events), m, l);
  }

  lemma SameShowable(events: seq<Event>, i: nat)
    requires i < |events|
    ensures ShowableAt(events, i) <==> Showable(events[i], PairedSet(events))
    ensures CallIdAt(events, i) == ToolCallId(events[i].payload)
  {
    hide PairedSet, Showable;
  }

  lemma EarlierMember(events: seq<Event>, key: string, i: nat, m: nat) returns (l: nat)
    requires m < |Group(events, key)| && i < Group(events, key)[m].order && i < |events|
    requires Spoken(events[i]) && KeyAt(events, i) == key
    ensures l < m && Group(events, key)[l] == Member(i, events[i])
  {
    var group := Group(events, key);
    GroupMembers(events, key, |events|);
    hide GroupUpTo, GroupKey, Spoken;
    assert Member(i, events[i]) in group;
    l :| 0 <= l < |group| && group[l] == Member(i, events[i]);
  }

  lemma EarlierCall(events: seq<Event>, j: nat) returns (i: nat)
    requires j < |events| && ShowableAt(events, j) && !FirstShown(events, j)
    ensures i < j && Spoken(events[i]) && ShowableAt(events, i)
    ensures KeyAt(events, i) == KeyAt(events, j) && CallIdAt(events, i) == CallIdAt(events, j)
  {
    hide PairedSet, GroupKey, ToolCallId, TextAt;
    i :| 0 <= i < j && ShowableAt(events, i) && KeyAt(events, i) == KeyAt(events, j) && CallIdAt(events, i) == CallIdAt(events, j);
  }

  lemma ShownCallHas(codec: Codec, events: seq<Event>, o: nat, j: nat) returns (k: nat)
    requires o < |events| && j < |events| && FirstShown(events, j) && KeyAt(events, o) == KeyAt(events, j)
    ensures k < |CallsAt(codec, events, o)| && CallsAt(codec, events, o)[k] == ShownCall(codec, events, j)
  {
    var group, paired := Group(events, KeyAt(events, j)), PairedSet(events);
    var m := MemberIndex(events, j);
    FirstIsFirst(events, j, m);
    hide Group, PairedSet, GroupKey, FirstShown, MemberCall;
    CallHas(codec, group, paired, |group|, m);
    SameMembers(CallsUpTo(codec, group, paired, |group|));
    assert ShownCall(codec, events, j) in CallsAt(codec, events, o);
    k :| 0 <= k < |CallsAt(codec, events, o)| && CallsAt(codec, events, o)[k] == ShownCall(codec, events, j);
  }

  lemma UnsortedHas(raw: seq<Keyed<Call>>, k: nat)
    requires k < |Sort(raw)|
    ensures Sort(raw)[k] in raw
  {
    SortPermutes(raw);
    assert Sort(raw)[k] in multiset(Sort(raw));
  }

  lemma ShownCallFrom(codec: Codec, events: seq<Event>, o: nat, k: nat) returns (j: nat)
    requires o < |events| && k < |CallsAt(codec, events, o)|
    ensures j < |events| && FirstShown(events, j) && CallsAt(codec, events, o)[k] == ShownCall(codec, events, j)
  {
    var group, paired := Group(events, KeyAt(events, o)), PairedSet(events);
    GroupMembers(events, KeyAt(events, o), |events|);
    hide Group, PairedSet, GroupKey, FirstShown, MemberCall, CallsUpTo, Sort;
    var raw := CallsUpTo(codec, group, paired, |group|);
    UnsortedHas(raw, k);
    var m := CallFrom(codec, group, paired, |group|, Sort(raw)[k]);
    assert group[m] in group;
    j := group[m].order;
    FirstIsFirst(events, j, m);
  }

  ghost predicate ShownSettled(codec: Codec, events: seq<Event>) {
    forall j | 0 <= j < |events| && FirstShown(events, j) :: SettledInput(codec, ShownCall(codec, events, j))
  }

  /** Message by message or event by event, the inputs in question are those of the shown call events. */
  lemma SettledByEvent(codec: Codec, events: seq<Event>)
    ensures SettledInputs(codec, events, |events|) <==> ShownSettled(codec, events)
  {
    hide FirstShown, Opens, CallsAt, ShownCall, SettledInput;
    if ShownSettled(codec, events) {
      forall i | 0 <= i < |events| && Opens(events, i) ensures SettledCalls(codec, CallsAt(codec, events, i)) {
        forall k | 0 <= k < |CallsAt(codec, events, i)| ensures SettledInput(codec, CallsAt(codec, events, i)[k]) {
          var j := ShownCallFrom(codec, events, i, k);
        }
      }
    }
    if SettledInputs(codec, events, |events|) {
      forall j | 0 <= j < |events| && FirstShown(events, j) ensures SettledInput(codec, ShownCall(codec, events, j)) {
        ShownIsSpoken(events, j);
        var o := OpeningOf(events, j);
        var k := ShownCallHas(codec, events, o, j);
      }
    }
  }

  lemma ShownIsSpoken(events: seq<Event>, j: nat)
    requires j < |events| && FirstShown(events, j)
    ensures Spoken(events[j])
  {
    hide PairedSet, GroupKey;
  }

  ghost predicate InjectiveText(codec: Codec) {
    forall a, b :: codec.dumps(a) == codec.dumps(b) ==> a == b
  }

  /** For a call the two renderings agree exactly when its stored input is not encoded twice. */
  lemma SettledIsNotTwiceEncoded(codec: Codec, events: seq<Event>, j: nat)
    requires j < |events| && InjectiveText(codec)
    ensures SettledInput(codec, ShownCall(codec, events, j)) <==> !TwiceEncoded(codec, StoredInput(events, j))
  {
    hide IntegerIndex, ToolCallId, TextAt;
    var once := ToolInput(codec, StoredInput(events, j));
    assert ShownCall(codec, events, j).item.input == once;
    assert SettledInput(codec, ShownCall(codec, events, j)) <==> ToolInput(codec, once) == once;
  }

  /**
    In terms of the log: with a rendering that tells values apart, the back ends
    agree if and only if no shown call stores an input that is encoded twice.
   */
  lemma BackEndsAgreeUnlessTwiceEncoded(codec: Codec, events: seq<Event>)
    requires InjectiveText(codec)
    ensures TurnTranscript(codec, Turns(codec, events)) == ChatTranscript(Chat(codec, events)) <==>
      forall j | 0 <= j < |events| && FirstShown(events, j) :: !TwiceEncoded(codec, StoredInput(events, j))
  {
    BackEndsAgreeExactly(codec, events);
    SettledByEvent(codec, events);
    hide FirstShown, SettledInputs, TwiceEncoded, Turns, Chat, TurnTranscript, ChatTranscript, SettledInput, ShownCall;
    forall j: nat | j < |events| && FirstShown(events, j)
      ensures SettledInput(codec, ShownCall(codec, events, j)) <==> !TwiceEncoded(codec, StoredInput(events, j))
    {
      SettledIsNotTwiceEncoded(codec, events, j);
    }
  }

  /** Logs whose call inputs are objects, as both loops write them, always agree, whatever the rendering. */
  lemma ObjectInputsAgree(codec: Codec, events: seq<Event>)
    requires forall j | 0 <= j < |events| && events[j].kind.ToolCall? :: StoredInput(events, j).Obj?
    ensures TurnTranscript(codec, Turns(codec, events)) == ChatTranscript(Chat(codec, events))
  {
    BackEndsAgreeExactly(codec, events);
    SettledByEvent(codec, events);
    hide SettledInputs, Turns, Chat, TurnTranscript, ChatTranscript, PairedSet, GroupKey, IntegerIndex, ToolCallId, TextAt;
    forall j | 0 <= j < |events| && FirstShown(events, j) ensures SettledInput(codec, ShownCall(codec, events, j)) {
      assert ToolInput(codec, StoredInput(events, j)) == StoredInput(events, j);
    }
  }

  const CALL_FIELDS := map["message_id" := Str("m"), "tool_call_id" := Str("c"), "name" := Str("f"), "input" := Str("null")]
  const RESULT_FIELDS := map["tool_call_id" := Str("c"), "content" := Str("done")]

  /**
    A log of three events on which the two outputs differ: a message, its call
    with the input text "null", and the result.  Decoded once the input is null,
    decoded twice it is an empty object.
   */
  lemma NullInputDiffers(codec: Codec, message: Event, call: Event, result: Event)
    requires codec.loads("null") == Some(Null) && codec.dumps(Null) != codec.dumps(Obj(map[]))
    requires message.kind.AssistantMessage? && message.payload == Obj(map["message_id" := Str("m")])
    requires call.kind.ToolCall? && call.payload == Obj(CALL_FIELDS)
    requires result.kind.ToolResult? && result.payload == Obj(RESULT_FIELDS)
    ensures var events := [message, call, result];
      TurnTranscript(codec, Turns(codec, events)) != ChatTranscript(Chat(codec, events))
  {
    var events := [message, call, result];
    hide *;
    NullCallShown(events);
    NullIsUnsettled(codec, events);
    BackEndsAgreeExactly(codec, events);
    SettledByEvent(codec, events);
    UnsettledShown(codec, events, 1);
  }

  lemma UnsettledShown(codec: Codec, events: seq<Event>, j: nat)
    requires j < |events| && FirstShown(events, j) && !SettledInput(codec, ShownCall(codec, events, j))
    ensures !ShownSettled(codec, events)
  {
    hide FirstShown, SettledInput, ShownCall;
  }

  lemma NullIsUnsettled(codec: Codec, events: seq<Event>)
    requires |events| == 3 && StoredInput(events, 1) == Str("null")
    requires codec.loads("null") == Some(Null) && codec.dumps(Null) != codec.dumps(Obj(map[]))
    ensures !SettledInput(codec, ShownCall(codec, events, 1))
  {
    hide RawInput, IntegerIndex, ToolCallId, TextAt;
  }

  lemma NullCallShown(events: seq<Event>)
    requires |events| == 3 && events[0].kind.AssistantMessage?
    requires events[1].kind.ToolCall? && events[1].payload == Obj(CALL_FIELDS)
    requires events[2].kind.ToolResult? && events[2].payload == Obj(RESULT_FIELDS)
    ensures FirstShown(events, 1) && StoredInput(events, 1) == Str("null")
  {
    CallFields(events[1], events[2]);
    hide GroupKey, ToolCallId, ToolResultId, TextAt, RawInput, CALL_FIELDS, RESULT_FIELDS;
    assert CallAt(events, 1, "c") && ResultAt(events, 2, "c");
    assert Paired(events, "c");
    PairedSetMeaning(events);
    hide PairedSet;
  }

  lemma CallFields(call: Event, result: Event)
    requires call.payload == Obj(CALL_FIELDS) && result.payload == Obj(RESULT_FIELDS)
    ensures ToolCallId(call.payload) == "c" && TextAt(call.payload, "name") == "f" && RawInput(call.payload) == Str("null")
    ensures ToolResultId(result.payload) == "c"
  {
    assert |"message_id"| == 10 && |"tool_call_id"| == 12 && |"name"| == 4 && |"input"| == 5 && |"content"| == 7;
  }

  // ------------------------------------------------------ the current prompt

  /** In the last user message nothing follows a text but texts. */
  ghost predicate TextsLast(ms: seq<TurnMessage>) {
    ms != [] && ms[|ms| - 1].FromUser? && ms[|ms| - 1].content.Blocks? ==>
      var blocks := ms[|ms| - 1].content.blocks;
      blocks != [] && (blocks[|blocks| - 1].UserTextBlock? || LastText(blocks).None?)
  }

  lemma {:induction false} ResultsHoldNoText(codec: Codec, events: seq<Event>, ids: seq<string>, answered: set<string>)
    ensures forall b | b in ResultBlocks(codec, events, ids, answered) :: b.ResultBlock?
  {
    if ids != [] {
      ResultsHoldNoText(codec, events, ids[1..], if ids[0] in answered then answered else answered + {ids[0]});
    }
  }

  lemma {:induction false} NoTextToFind(blocks: seq<UserBlock>)
    requires forall b | b in blocks :: b.ResultBlock?
    ensures LastText(blocks).None?
  {
    if blocks != [] {
      assert blocks[|blocks| - 1] in blocks;
      NoTextToFind(blocks[..|blocks| - 1]);
    }
  }

  lemma ExchangeTextsLast(codec: Codec, events: seq<Event>, i: nat, ms: seq<TurnMessage>)
    requires i < |events| && TextsLast(ms)
    ensures TextsLast(ms + TurnExchangeAt(codec, events, i))
  {
    TurnExchangeShape(codec, events, i);
    ResultsHoldNoText(codec, events, IdsAt(codec, events, i), ShownBefore(events, i));
    NoTextToFind(AnswersAt(codec, events, i));
    hide TurnExchangeAt, BlocksAt, AnswersAt, LastText;
  }

  lemma UserTextTextsLast(ms: seq<TurnMessage>, text: string)
    ensures TextsLast(AppendUserText(ms, text))
  {
  }

  ghost predicate TextsLastUpTo(codec: Codec, events: seq<Event>, n: nat)
    requires n <= |events|
  {
    TextsLast(TurnsUpTo(codec, events, n))
  }

  lemma TextsLastStep(codec: Codec, events: seq<Event>, i: nat)
    requires i < |events| && TextsLastUpTo(codec, events, i)
    ensures TextsLastUpTo(codec, events, i + 1)
  {
    hide TextsLast, TurnsUpTo, AppendUserText, TurnExchangeAt, UserSideText, Opens;
    var ms := TurnsUpTo(codec, events, i);
    TurnsStep(codec, events, i);
    ExchangeTextsLast(codec, events, i, ms);
    UserTextTextsLast(ms, UserSideText(events[i]));
  }

  lemma {:induction false} TurnsTextsLast(codec: Codec, events: seq<Event>, n: nat)
    requires n <= |events|
    ensures TextsLastUpTo(codec, events, n)
  {
    if n == 0 {
      hide TurnsWith;
    } else {
      hide *;
      TurnsTextsLast(codec, events, n - 1);
      TextsLastStep(codec, events, n - 1);
    }
  }

  function LastOf<T>(xs: seq<T>): Option<T> {
    if xs == [] then None else Some(xs[|xs| - 1])
  }

  lemma {:induction false} LastBlockSays(blocks: seq<UserBlock>)
    requires blocks != []
    ensures LastOf(UserBlocksMeaning(blocks)) == Some(UserBlockMeaning(blocks[|blocks| - 1]))
  {
    UserBlocksAppend(blocks[..|blocks| - 1], [blocks[|blocks| - 1]]);
    assert blocks == blocks[..|blocks| - 1] + [blocks[|blocks| - 1]];
    assert UserBlocksMeaning([blocks[|blocks| - 1]]) == [UserBlockMeaning(blocks[|blocks| - 1])];
  }

  /** The last user text of a transcript is what the user's side said last of all, if it did. */
  lemma LastTurnSays(codec: Codec, ms: seq<TurnMessage>, text: string)
    requires TextsLast(ms)
    ensures LastUserText(ms) == Some(text) <==> LastOf(TurnTranscript(codec, ms)) == Some(UserSide(text))
  {
    if ms != [] {
      var m := ms[|ms| - 1];
      assert ms == ms[..|ms| - 1] + [m];
      TurnTranscriptAppend(codec, ms[..|ms| - 1], [m]);
      OneTurnSays(codec, m);
      if m.FromUser? && m.content.Blocks? { LastBlockSays(m.content.blocks); }
      hide TurnTranscript;
    }
  }

  lemma LastChatSays(ms: seq<ChatMessage>)
    ensures LastOf(ChatTranscript(ms)) == if ms == [] then None else Some(ChatMeaning(ms[|ms| - 1]))
  {
    if ms != [] {
      hide ChatTranscript, ChatMeaning;
      var init, m := ms[..|ms| - 1], ms[|ms| - 1];
      assert ms == init + [m];
      ChatTranscriptAppend(init, [m]);
      OneChatSays(m);
    }
  }

  lemma OneChatSays(m: ChatMessage)
    ensures ChatTranscript([m]) == [ChatMeaning(m)]
  {
  }

  lemma PromptSays(codec: Codec, turns: seq<TurnMessage>, chat: seq<ChatMessage>, prompt: string)
    ensures TurnTranscript(codec, AppendUserText(turns, prompt)) == TurnTranscript(codec, turns) + [UserSide(prompt)]
    ensures ChatTranscript(chat + [UserMsg(prompt)]) == ChatTranscript(chat) + [UserSide(prompt)]
  {
    UserTextSays(codec, turns, prompt);
    ChatTranscriptAppend(chat, [UserMsg(prompt)]);
    assert ChatTranscript([UserMsg(prompt)]) == [UserSide(prompt)];
  }

  /** The log ends with a note that reads, in the Anthropic form, like this very prompt. */
  predicate EndsWithNote(chat: seq<ChatMessage>, prompt: string) {
    chat != [] && chat[|chat| - 1].SystemMsg? && NOTE_PREFIX + chat[|chat| - 1].text == prompt
  }

  /**
    Without a turn id both back ends drop a prompt that repeats the last text.
    They decide alike unless the log ends with a note that reads like the prompt.
   */
  lemma PromptAgreesExactly(codec: Codec, events: seq<Event>, prompt: string)
    requires SettledInputs(codec, events, |events|) && prompt != ""
    ensures TurnTranscript(codec, TurnsWithPrompt(Turns(codec, events), prompt))
         == ChatTranscript(WithPrompt(Chat(codec, events), prompt))
      <==> !EndsWithNote(Chat(codec, events), prompt)
  {
    var turns, chat := Turns(codec, events), Chat(codec, events);
    hide *;
    BackEndsAgreeExactly(codec, events);
    TurnsTextsLastHere(codec, events);
    PromptAgrees(codec, turns, chat, prompt);
  }

  lemma TurnsTextsLastHere(codec: Codec, events: seq<Event>)
    ensures TextsLast(Turns(codec, events))
  {
    hide TextsLast, TurnsUpTo;
    TurnsTextsLast(codec, events, |events|);
  }

  lemma PromptAgrees(codec: Codec, turns: seq<TurnMessage>, chat: seq<ChatMessage>, prompt: string)
    requires TextsLast(turns) && TurnTranscript(codec, turns) == ChatTranscript(chat) && prompt != ""
    ensures TurnTranscript(codec, TurnsWithPrompt(turns, prompt)) == ChatTranscript(WithPrompt(chat, prompt))
      <==> !EndsWithNote(chat, prompt)
  {
    LastTurnSays(codec, turns, prompt);
    LastChatSays(chat);
    PromptSays(codec, turns, chat, prompt);
    hide TurnTranscript, ChatTranscript, AppendUserText, LastUserText, TextsLast;
    if TurnTranscript(codec, TurnsWithPrompt(turns, prompt)) == ChatTranscript(WithPrompt(chat, prompt)) {
      assert |ChatTranscript(chat) + [UserSide(prompt)]| == |ChatTranscript(chat)| + 1;
    }
  }

  // --------------------------------------------------------- either provider

  /** The turn's own prompt is in the log already; a steer of the turn is not its prompt. */
  predicate PromptRecorded(log: seq<Event>, turn: TurnId) {
    exists e | e in log :: e.turn == turn && e.kind.UserMessage? && Get(e.payload, "source") != Some(Str("task_message"))
  }

  /** The history either provider starts from: with a turn id, the prompt is added exactly when the turn's log lacks it. */
  function ProviderChat(codec: Codec, log: seq<Event>, prompt: string, turn: Option<TurnId>): seq<ChatMessage> {
    var chat := Chat(codec, SelectContext(codec, log));
    if turn.None? then WithPrompt(chat, prompt)
    else if prompt != "" && !PromptRecorded(log, turn.value) then chat + [UserMsg(prompt)]
    else chat
  }

  function ProviderTurns(codec: Codec, log: seq<Event>, prompt: string, turn: Option<TurnId>): seq<TurnMessage> {
    var turns := Turns(codec, SelectContext(codec, log));
    if turn.None? then TurnsWithPrompt(turns, prompt)
    else if prompt != "" && !PromptRecorded(log, turn.value) then AppendUserText(turns, prompt)
    else turns
  }

  /** From a log that reuses no call id, the OpenAI history is well-formed and the Anthropic one answered. */
  lemma ProviderHistoryFormed(codec: Codec, log: seq<Event>, prompt: string, turn: Option<TurnId>)
    requires NoReuse(SelectContext(codec, log))
    ensures WellFormed(ProviderChat(codec, log, prompt, turn))
    ensures AnsweredTurns(ProviderTurns(codec, log, prompt, turn))
  {
    FormedPlain(UserMsg(prompt));
    hide *;
    var selected := SelectContext(codec, log);
    WellOrderedExactly(codec, selected);
    AnsweredTurnsExactly(codec, selected);
    var chat, turns := Chat(codec, selected), Turns(codec, selected);
    OrderedIsFormed(chat);
    FormedAppend(chat, [UserMsg(prompt)]);
    UserTextKeepsAnswered(turns, prompt);
    ProviderHistoryCases(codec, log, prompt, turn);
  }

  lemma ProviderHistoryCases(codec: Codec, log: seq<Event>, prompt: string, turn: Option<TurnId>)
    ensures var chat := Chat(codec, SelectContext(codec, log));
      ProviderChat(codec, log, prompt, turn) == chat || ProviderChat(codec, log, prompt, turn) == chat + [UserMsg(prompt)]
    ensures var turns := Turns(codec, SelectContext(codec, log));
      ProviderTurns(codec, log, prompt, turn) == turns || ProviderTurns(codec, log, prompt, turn) == AppendUserText(turns, prompt)
  {
    hide Chat, Turns, SelectContext, AppendUserText, LastUserText;
  }

  /** The user said something in this turn that did not come as a message to the running task. */
  ghost predicate Asked(log: seq<Event>, turn: TurnId) {
    exists i :: 0 <= i < |log| && log[i].turn == turn && log[i].kind == UserMessage
                && !(Get(log[i].payload, "source").Some? && Get(log[i].payload, "source").value == Str("task_message"))
  }

  lemma AskedExactly(log: seq<Event>, turn: TurnId)
    ensures PromptRecorded(log, turn) <==> Asked(log, turn)
  {
    if PromptRecorded(log, turn) {
      var e :| e in log && e.turn == turn && e.kind.UserMessage? && Get(e.payload, "source") != Some(Str("task_message"));
      var i :| 0 <= i < |log| && log[i] == e;
    }
    if Asked(log, turn) {
      var i :| 0 <= i < |log| && log[i].turn == turn && log[i].kind == UserMessage
        && !(Get(log[i].payload, "source").Some? && Get(log[i].payload, "source").value == Str("task_message"));
      assert log[i] in log;
    }
  }

  /** Both histories of a turn say what the log says, and then the prompt if the turn's log lacks it. */
  lemma ProviderHistorySays(codec: Codec, log: seq<Event>, prompt: string, turn: TurnId)
    ensures var said := if prompt != "" && !Asked(log, turn) then [UserSide(prompt)] else [];
      && ChatTranscript(ProviderChat(codec, log, prompt, Some(turn))) == ChatTranscript(Chat(codec, SelectContext(codec, log))) + said
      && TurnTranscript(codec, ProviderTurns(codec, log, prompt, Some(turn)))
         == TurnTranscript(codec, Turns(codec, SelectContext(codec, log))) + said
  {
    PromptSays(codec, Turns(codec, SelectContext(codec, log)), Chat(codec, SelectContext(codec, log)), prompt);
    AskedExactly(log, turn);
    hide Chat, Turns, SelectContext, AppendUserText, TurnTranscript, ChatTranscript, PromptRecorded, Asked;
  }

  /** `build_provider_messages` for the OpenAI form. */
  method BuildProviderChat(codec: Codec, log: seq<Event>, prompt: string, turn: Option<TurnId>) returns (messages: seq<ChatMessage>)
    ensures messages == ProviderChat(codec, log, prompt, turn)
  {
    if turn.None? {
      messages := BuildOpenAiMessages(codec, log, prompt);
      return;
    }
    var recorded := false;
    for i := 0 to |log|
      invariant recorded <==> PromptRecorded(log[..i], turn.value)
    {
      var event := log[i];
      AppendOne(log, i);
      if event.turn == turn.value && event.kind.UserMessage? && Get(event.payload, "source") != Some(Str("task_message")) {
        assert event in log[..i + 1];
        recorded := true;
      }
    }
    assert log[..|log|] == log;
    messages := BuildOpenAiMessages(codec, log, "");
    if prompt != "" && !recorded {
      messages := messages + [UserMsg(prompt)];
    }
  }

  /** `build_provider_messages` for the Anthropic form. */
  method BuildProviderTurns(codec: Codec, log: seq<Event>, prompt: string, turn: Option<TurnId>) returns (messages: seq<TurnMessage>)
    ensures messages == ProviderTurns(codec, log, prompt, turn)
    ensures NoAdjacentUsers(messages)
  {
    UsersNeverAdjacent(codec, SelectContext(codec, log));
    UserTextKeepsApart(Turns(codec, SelectContext(codec, log)), prompt);
    hide Turns, SelectContext, AppendUserText, LastUserText, NoAdjacentUsers;
    if turn.None? {
      messages := BuildAnthropicMessages(codec, log, prompt);
      return;
    }
    var recorded := PromptRecorded(log, turn.value);
    messages := BuildAnthropicMessages(codec, log, "");
    if prompt != "" && !recorded {
      messages := AppendUserText(messages, prompt);
    }
  }
}
