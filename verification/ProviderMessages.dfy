/**
  The two provider message formats, what a well-formed OpenAI transcript is,
  and the provider-independent meaning of either format.
 */
module ProviderMessages {
  import opened JsonValue

  // ------------------------------------------------------------- OpenAI form

  datatype FunctionCall = FunctionCall(id: string, name: string, arguments: string)

  datatype ChatMessage =
    | SystemMsg(text: string)
    | UserMsg(text: string)
    | AssistantMsg(content: Option<string>, calls: seq<FunctionCall>)
    | ToolMsg(callId: string, output: string)

  function CallIds(calls: seq<FunctionCall>): (r: seq<string>)
  {
    seq(|calls|, i requires 0 <= i < |calls| => calls[i].id)
  }

  /** The calls a message makes; none unless it is an assistant message. */
  function CallsOf(m: ChatMessage): seq<FunctionCall> {
    if m.AssistantMsg? then m.calls else []
  }

  ghost predicate AllTools(block: seq<ChatMessage>) {
    forall i | 0 <= i < |block| :: block[i].ToolMsg?
  }

  function AnsweredIds(block: seq<ChatMessage>): (r: seq<string>)
  {
    seq(|block|, i requires 0 <= i < |block| => if block[i].ToolMsg? then block[i].callId else "")
  }

  /** `block` answers exactly `calls`, each as often as it was made. */
  ghost predicate Answers(block: seq<ChatMessage>, calls: seq<FunctionCall>) {
    AllTools(block) && multiset(AnsweredIds(block)) == multiset(CallIds(calls))
  }

  /** ... and in the same order. */
  ghost predicate AnswersInOrder(block: seq<ChatMessage>, calls: seq<FunctionCall>) {
    AllTools(block) && AnsweredIds(block) == CallIds(calls)
  }

  ghost predicate NamedCalls(calls: seq<FunctionCall>) {
    forall i | 0 <= i < |calls| :: calls[i].id != ""
  }

  /** Each assistant message with calls is followed at once by the answers to exactly those calls; no tool message stands elsewhere. */
  ghost predicate WellFormed(ms: seq<ChatMessage>)
    decreases |ms|
  {
    ms == [] ||
    (&& !ms[0].ToolMsg?
     && var calls := CallsOf(ms[0]);
        && NamedCalls(calls)
        && |calls| < |ms|
        && Answers(ms[1..1 + |calls|], calls)
        && WellFormed(ms[1 + |calls|..]))
  }

  ghost predicate WellOrdered(ms: seq<ChatMessage>)
    decreases |ms|
  {
    ms == [] ||
    (&& !ms[0].ToolMsg?
     && var calls := CallsOf(ms[0]);
        && NamedCalls(calls)
        && |calls| < |ms|
        && AnswersInOrder(ms[1..1 + |calls|], calls)
        && WellOrdered(ms[1 + |calls|..]))
  }

  lemma {:induction false} OrderedIsFormed(ms: seq<ChatMessage>)
    requires WellOrdered(ms)
    ensures WellFormed(ms)
    decreases |ms|
  {
    if ms != [] { OrderedIsFormed(ms[1 + |CallsOf(ms[0])|..]); }
  }

  /** After a well-ordered beginning, the whole is well-ordered exactly when the rest is. */
  lemma {:induction false} OrderedAppend(a: seq<ChatMessage>, b: seq<ChatMessage>)
    requires WellOrdered(a)
    ensures WellOrdered(a + b) <==> WellOrdered(b)
    decreases |a|
  {
    if a == [] {
      assert a + b == b;
    } else {
      var k := 1 + |CallsOf(a[0])|;
      var whole := a + b;
      assert whole[0] == a[0] && whole[1..k] == a[1..k] && whole[k..] == a[k..] + b;
      OrderedAppend(a[k..], b);
    }
  }

  lemma {:induction false} FormedAppend(a: seq<ChatMessage>, b: seq<ChatMessage>)
    requires WellFormed(a)
    ensures WellFormed(a + b) <==> WellFormed(b)
    decreases |a|
  {
    if a == [] {
      assert a + b == b;
    } else {
      var k := 1 + |CallsOf(a[0])|;
      var whole := a + b;
      assert whole[0] == a[0] && whole[1..k] == a[1..k] && whole[k..] == a[k..] + b;
      FormedAppend(a[k..], b);
    }
  }

  lemma FormedPlain(m: ChatMessage)
    requires !m.ToolMsg? && CallsOf(m) == []
    ensures WellFormed([m]) && WellOrdered([m])
  {
    assert [m][1..1] == [];
  }

  /** One assistant message and its answers. */
  lemma OrderedExchange(m: ChatMessage, block: seq<ChatMessage>)
    requires m.AssistantMsg? && NamedCalls(m.calls)
    requires AnswersInOrder(block, m.calls)
    ensures WellOrdered([m] + block)
  {
    var ms := [m] + block;
    assert |block| == |AnsweredIds(block)| == |m.calls|;
    assert ms[1..1 + |m.calls|] == block && ms[1 + |m.calls|..] == [];
  }

  lemma FormedExchange(m: ChatMessage, block: seq<ChatMessage>)
    requires m.AssistantMsg? && NamedCalls(m.calls)
    requires Answers(block, m.calls)
    ensures WellFormed([m] + block)
  {
    AnswersCount(block, m.calls);
    var ms := [m] + block;
    assert ms[1..1 + |m.calls|] == block && ms[1 + |m.calls|..] == [];
    FormedJoin(ms);
    hide WellFormed, Answers, NamedCalls;
  }

  lemma FormedJoin(ms: seq<ChatMessage>)
    requires ms != [] && !ms[0].ToolMsg? && |CallsOf(ms[0])| < |ms| && NamedCalls(CallsOf(ms[0]))
    requires Answers(ms[1..1 + |CallsOf(ms[0])|], CallsOf(ms[0]))
    requires ms[1 + |CallsOf(ms[0])|..] == [] || WellFormed(ms[1 + |CallsOf(ms[0])|..])
    ensures WellFormed(ms)
  {
    hide Answers, NamedCalls;
  }

  lemma AnswersCount(block: seq<ChatMessage>, calls: seq<FunctionCall>)
    requires Answers(block, calls)
    ensures |block| == |calls|
  {
    assert |block| == |AnsweredIds(block)| == |multiset(AnsweredIds(block))| == |multiset(CallIds(calls))| == |calls|;
  }

  /** All calls of a transcript, in order. */
  function AllCalls(ms: seq<ChatMessage>): seq<FunctionCall> {
    if ms == [] then [] else CallsOf(ms[0]) + AllCalls(ms[1..])
  }

  lemma {:induction false} AllCallsAppend(a: seq<ChatMessage>, b: seq<ChatMessage>)
    ensures AllCalls(a + b) == AllCalls(a) + AllCalls(b)
  {
    if a == [] { assert a + b == b; }
    else {
      assert (a + b)[1..] == a[1..] + b;
      AllCallsAppend(a[1..], b);
    }
  }

  /** The call ids answered anywhere in a transcript, in order. */
  function AllAnswers(ms: seq<ChatMessage>): seq<string> {
    if ms == [] then [] else (if ms[0].ToolMsg? then [ms[0].callId] else []) + AllAnswers(ms[1..])
  }

  lemma {:induction false} AllAnswersAppend(a: seq<ChatMessage>, b: seq<ChatMessage>)
    ensures AllAnswers(a + b) == AllAnswers(a) + AllAnswers(b)
  {
    if a == [] { assert a + b == b; }
    else {
      assert (a + b)[1..] == a[1..] + b;
      AllAnswersAppend(a[1..], b);
    }
  }

  // ---------------------------------------------------------- Anthropic form

  datatype AssistantBlock = TextBlock(text: string) | ToolUse(id: string, name: string, input: Json)

  datatype UserBlock = UserTextBlock(text: string) | ResultBlock(callId: string, output: string, isError: bool)

  datatype UserContent = Plain(text: string) | Blocks(blocks: seq<UserBlock>)

  datatype TurnMessage = FromUser(content: UserContent) | FromAssistant(blocks: seq<AssistantBlock>)

  predicate NoAdjacentUsers(ms: seq<TurnMessage>) {
    forall i | 0 <= i < |ms| - 1 :: !(ms[i].FromUser? && ms[i + 1].FromUser?)
  }

  function UseIdsIn(blocks: seq<AssistantBlock>): seq<string> {
    if blocks == [] then []
    else if blocks[0].ToolUse? then [blocks[0].id] + UseIdsIn(blocks[1..])
    else UseIdsIn(blocks[1..])
  }

  function ResultIdsIn(blocks: seq<UserBlock>): seq<string> {
    if blocks == [] then []
    else if blocks[0].ResultBlock? then [blocks[0].callId] + ResultIdsIn(blocks[1..])
    else ResultIdsIn(blocks[1..])
  }

  /** The calls a message makes. */
  function UseIds(m: TurnMessage): seq<string> {
    if m.FromAssistant? then UseIdsIn(m.blocks) else []
  }

  /** The calls a message answers. */
  function ResultIds(m: TurnMessage): seq<string> {
    if m.FromUser? && m.content.Blocks? then ResultIdsIn(m.content.blocks) else []
  }

  /** Each message with calls is followed at once by one user message that answers exactly those; no result stands elsewhere. */
  ghost predicate AnsweredTurns(ms: seq<TurnMessage>)
    decreases |ms|
  {
    ms == [] ||
    (&& ResultIds(ms[0]) == []
     && if UseIds(ms[0]) == [] then AnsweredTurns(ms[1..])
        else
          && |ms| > 1 && multiset(ResultIds(ms[1])) == multiset(UseIds(ms[0]))
          && AnsweredTurns(ms[2..]))
  }

  /** The first message of an answered conversation, with its answer if it makes calls, and the rest. */
  lemma AnsweredParts(ms: seq<TurnMessage>)
    requires ms != [] && AnsweredTurns(ms)
    ensures ResultIds(ms[0]) == []
    ensures UseIds(ms[0]) == [] ==> AnsweredTurns(ms[1..])
    ensures UseIds(ms[0]) != [] ==>
      |ms| > 1 && multiset(ResultIds(ms[1])) == multiset(UseIds(ms[0])) && AnsweredTurns(ms[2..])
  {
  }

  lemma AnsweredJoin(ms: seq<TurnMessage>, k: nat)
    requires ms != [] && ResultIds(ms[0]) == []
    requires k == (if UseIds(ms[0]) == [] then 1 else 2) <= |ms|
    requires k == 2 ==> multiset(ResultIds(ms[1])) == multiset(UseIds(ms[0]))
    ensures AnsweredTurns(ms) <==> AnsweredTurns(ms[k..])
  {
    hide UseIds, ResultIds;
  }

  lemma AnsweredAlone(m: TurnMessage)
    requires ResultIds(m) == [] && UseIds(m) == []
    ensures AnsweredTurns([m])
  {
  }

  lemma AnsweredPair(m: TurnMessage, answer: TurnMessage)
    requires ResultIds(m) == [] && UseIds(m) != [] && multiset(ResultIds(answer)) == multiset(UseIds(m))
    ensures AnsweredTurns([m, answer])
  {
  }

  lemma {:induction false} AnsweredAppend(a: seq<TurnMessage>, b: seq<TurnMessage>)
    requires AnsweredTurns(a)
    ensures AnsweredTurns(a + b) <==> AnsweredTurns(b)
    decreases |a|
  {
    hide *;
    if a == [] {
      assert a + b == b;
    } else {
      AnsweredParts(a);
      var k := if UseIds(a[0]) == [] then 1 else 2;
      AnsweredAppend(a[k..], b);
      SplitFront(a, b, k);
      AnsweredJoin(a + b, k);
    }
  }

  lemma SplitFront<T>(a: seq<T>, b: seq<T>, k: nat)
    requires 1 <= k <= 2 && k <= |a|
    ensures (a + b)[0] == a[0] && (k == 2 ==> (a + b)[1] == a[1]) && (a + b)[k..] == a[k..] + b
  {
  }

  /** An answered conversation stays so when its last message is replaced by one that makes and answers the same calls. */
  lemma {:induction false} AnsweredReplaceLast(ms: seq<TurnMessage>, m: TurnMessage)
    requires ms != [] && AnsweredTurns(ms)
    requires UseIds(m) == UseIds(ms[|ms| - 1]) && ResultIds(m) == ResultIds(ms[|ms| - 1])
    ensures AnsweredTurns(ms[|ms| - 1 := m])
    decreases |ms|
  {
    hide *;
    AnsweredParts(ms);
    if |ms| == 1 {
      AnsweredAlone(m);
      assert ms[0 := m] == [m];
    } else if UseIds(ms[0]) != [] && |ms| == 2 {
      AnsweredPair(ms[0], m);
      assert ms[1 := m] == [ms[0], m];
    } else {
      var k := if UseIds(ms[0]) == [] then 1 else 2;
      AnsweredReplaceLast(ms[k..], m);
      ReplacedTail(ms, m, k);
      AnsweredJoin(ms[|ms| - 1 := m], k);
    }
  }

  lemma ReplacedTail<T>(ms: seq<T>, m: T, k: nat)
    requires 1 <= k <= 2 && k < |ms|
    ensures var whole := ms[|ms| - 1 := m];
      whole[k..] == ms[k..][|ms[k..]| - 1 := m] && whole[0] == ms[0] && (k == 2 ==> whole[1] == ms[1])
  {
  }

  // ------------------------------------------------------------ their meaning

  /** What was said: by the user's side (notes included), by the assistant, by a tool. */
  datatype Said =
    | UserSide(text: string)
    | AssistantSide(text: string, calls: seq<FunctionCall>)
    | ToolSide(callId: string, output: string)

  const NOTE_PREFIX := "[System context]\n"

  function ChatMeaning(m: ChatMessage): Said {
    match m
    case SystemMsg(text) => UserSide(NOTE_PREFIX + text)
    case UserMsg(text) => UserSide(text)
    case AssistantMsg(content, calls) => AssistantSide(if content.Some? then content.value else "", calls)
    case ToolMsg(callId, output) => ToolSide(callId, output)
  }

  function ChatTranscript(ms: seq<ChatMessage>): seq<Said> {
    if ms == [] then [] else [ChatMeaning(ms[0])] + ChatTranscript(ms[1..])
  }

  lemma {:induction false} ChatTranscriptAppend(a: seq<ChatMessage>, b: seq<ChatMessage>)
    ensures ChatTranscript(a + b) == ChatTranscript(a) + ChatTranscript(b)
  {
    if a == [] { assert a + b == b; }
    else {
      assert (a + b)[1..] == a[1..] + b;
      ChatTranscriptAppend(a[1..], b);
    }
  }

  function TextOfBlocks(blocks: seq<AssistantBlock>): string {
    if blocks == [] then ""
    else (if blocks[0].TextBlock? then blocks[0].text else "") + TextOfBlocks(blocks[1..])
  }

  function CallsOfBlocks(codec: Codec, blocks: seq<AssistantBlock>): seq<FunctionCall> {
    if blocks == [] then []
    else
      (if blocks[0].ToolUse? then [FunctionCall(blocks[0].id, blocks[0].name, codec.dumps(blocks[0].input))] else [])
      + CallsOfBlocks(codec, blocks[1..])
  }

  function UserBlockMeaning(block: UserBlock): Said {
    match block
    case UserTextBlock(text) => UserSide(text)
    case ResultBlock(callId, output, _) => ToolSide(callId, output)
  }

  function UserBlocksMeaning(blocks: seq<UserBlock>): seq<Said> {
    if blocks == [] then [] else [UserBlockMeaning(blocks[0])] + UserBlocksMeaning(blocks[1..])
  }

  lemma {:induction false} UserBlocksAppend(a: seq<UserBlock>, b: seq<UserBlock>)
    ensures UserBlocksMeaning(a + b) == UserBlocksMeaning(a) + UserBlocksMeaning(b)
  {
    if a == [] { assert a + b == b; }
    else {
      assert (a + b)[1..] == a[1..] + b;
      UserBlocksAppend(a[1..], b);
    }
  }

  function TurnMeaning(codec: Codec, m: TurnMessage): seq<Said> {
    match m
    case FromUser(Plain(text)) => [UserSide(text)]
    case FromUser(Blocks(blocks)) => UserBlocksMeaning(blocks)
    case FromAssistant(blocks) => [AssistantSide(TextOfBlocks(blocks), CallsOfBlocks(codec, blocks))]
  }

  function TurnTranscript(codec: Codec, ms: seq<TurnMessage>): seq<Said> {
    if ms == [] then [] else TurnMeaning(codec, ms[0]) + TurnTranscript(codec, ms[1..])
  }

  lemma {:induction false} TurnTranscriptAppend(codec: Codec, a: seq<TurnMessage>, b: seq<TurnMessage>)
    ensures TurnTranscript(codec, a + b) == TurnTranscript(codec, a) + TurnTranscript(codec, b)
  {
    if a == [] { assert a + b == b; }
    else {
      assert (a + b)[1..] == a[1..] + b;
      TurnTranscriptAppend(codec, a[1..], b);
    }
  }
}
