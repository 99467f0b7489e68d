/**
  What the rebuilt transcripts say, told from the events alone: which text
  answers a call, which texts and notes appear and in which order, and which
  calls with which inputs.
 */
module TranscriptContents {
  import opened JsonValue
  import opened Tables
  import opened Sorting
  import opened ContextEvents
  import opened ProviderMessages
  import opened Exchanges
  import opened OpenAiTranscript
  import opened AnthropicTranscript
  import opened ProviderEquivalence

  // ------------------------------------------------------------ tool outputs

  function Plainly(codec: Codec, value: Json): string {
    if value.Str? then value.s else codec.dumps(value)
  }

  /**
    `s` is the text of a result: its `model_output`, else its `content`, else its
    `output`, a text as it is and anything else rendered; without those the
    rendered `structured_output`, else the name of the error, else nothing.  Null
    counts as absent.
   */
  ghost predicate Tells(codec: Codec, payload: Json, s: string) {
    var model, content, output := ValueAt(payload, "model_output"), ValueAt(payload, "content"), ValueAt(payload, "output");
    var structured, error := ValueAt(payload, "structured_output"), ValueAt(payload, "error_type");
    if model != Null then s == Plainly(codec, model)
    else if content != Null then s == Plainly(codec, content)
    else if output != Null then s == Plainly(codec, output)
    else if structured != Null then s == codec.dumps(structured)
    else if error.Str? then s == error.s
    else if Truthy(error) then s == codec.show(error)
    else s == ""
  }

  lemma OutputTells(codec: Codec, payload: Json)
    ensures Tells(codec, payload, ToolResultContent(codec, payload))
  {
    NextOutput(codec, payload, "model_output", ["content", "output"]);
    NextOutput(codec, payload, "content", ["output"]);
    NextOutput(codec, payload, "output", []);
    assert FirstOutput(codec, payload, []) == None;
    hide FirstOutput, ShowText;
    assert ["model_output"] + ["content", "output"] == ["model_output", "content", "output"];
    assert ["content"] + ["output"] == ["content", "output"] && ["output"] + [] == ["output"];
    ErrorIs(codec, payload);
  }

  lemma NextOutput(codec: Codec, payload: Json, key: string, rest: seq<string>)
    ensures FirstOutput(codec, payload, [key] + rest)
      == if ValueAt(payload, key) == Null then FirstOutput(codec, payload, rest) else Some(Plainly(codec, ValueAt(payload, key)))
  {
    assert ([key] + rest)[1..] == rest;
  }

  lemma ErrorIs(codec: Codec, payload: Json)
    ensures var error := ValueAt(payload, "error_type");
      ErrorTypeText(codec, payload) == if error.Str? then error.s else if Truthy(error) then codec.show(error) else ""
  {
  }

  /** A result that names its call, under either of the two keys. */
  predicate NamesResult(e: Event, id: string) {
    e.kind.ToolResult? && id != "" &&
    match Get(e.payload, "tool_call_id")
    case Some(v) => v == Str(id)
    case None => Get(e.payload, "tool_use_id") == Some(Str(id))
  }

  ghost predicate FirstNamed(events: seq<Event>, j: nat, id: string) {
    j < |events| && NamesResult(events[j], id) && forall k | 0 <= k < j :: !NamesResult(events[k], id)
  }

  lemma NamesIsResult(events: seq<Event>, j: nat, id: string)
    requires j < |events| && id != ""
    ensures NamesResult(events[j], id) <==> ResultAt(events, j, id)
  {
  }

  lemma {:induction false} FirstNamedIsFirst(events: seq<Event>, j: nat, id: string, n: nat)
    requires FirstNamed(events, j, id) && n <= |events|
    ensures FirstResult(events, id, n) == if j < n then Some(events[j].payload) else None
  {
    if n > 0 {
      FirstNamedIsFirst(events, j, id, n - 1);
      NamesIsResult(events, n - 1, id);
    }
  }

  lemma ShownOutputTells(codec: Codec, events: seq<Event>, j: nat, id: string)
    requires FirstNamed(events, j, id)
    ensures Tells(codec, events[j].payload, ShownOutput(codec, events, id))
    ensures ResultFor(events, id) == Some(events[j].payload)
  {
    FirstNamedIsFirst(events, j, id, |events|);
    OutputTells(codec, events[j].payload);
    hide Tells, ToolResultContent;
  }

  ghost predicate Truthful(codec: Codec, events: seq<Event>, ms: seq<ChatMessage>) {
    forall m | m in ms && m.ToolMsg? :: m.output == ShownOutput(codec, events, m.callId)
  }

  lemma {:induction false} ResultsTruthful(codec: Codec, events: seq<Event>, ids: seq<string>, answered: set<string>)
    ensures Truthful(codec, events, ResultMessages(codec, events, ids, answered))
  {
    hide ShownOutput;
    if ids != [] {
      ResultsTruthful(codec, events, ids[1..], if ids[0] in answered then answered else answered + {ids[0]});
    }
  }

  lemma EventTruthful(codec: Codec, events: seq<Event>, i: nat)
    requires i < |events|
    ensures Truthful(codec, events, EventMessages(codec, events, i))
  {
    hide ShownOutput, GroupMessage;
    if Spoken(events[i]) && Opens(events, i) {
      ResultsTruthful(codec, events, IdsAt(codec, events, i), ShownBefore(events, i));
      ExchangeIds(codec, events, i);
    }
  }

  lemma {:induction false} ChatTruthful(codec: Codec, events: seq<Event>, n: nat)
    requires n <= |events|
    ensures Truthful(codec, events, ChatUpTo(codec, events, n))
  {
    hide EventMessages, ShownOutput;
    if n > 0 {
      ChatTruthful(codec, events, n - 1);
      EventTruthful(codec, events, n - 1);
    }
  }

  lemma {:induction false} AnsweredIsThere(ms: seq<ChatMessage>, id: string)
    requires id in AllAnswers(ms)
    ensures exists m :: m in ms && m.ToolMsg? && m.callId == id
  {
    if !(ms[0].ToolMsg? && ms[0].callId == id) {
      AnsweredIsThere(ms[1..], id);
      var m :| m in ms[1..] && m.ToolMsg? && m.callId == id;
      assert m in ms;
    } else {
      assert ms[0] in ms;
    }
  }

  /**
    The OpenAI transcript answers each call that is shown with the text of the
    first result that names it, and with nothing else.
   */
  lemma ChatTellsResult(codec: Codec, events: seq<Event>, i: nat, j: nat, id: string) returns (s: string)
    requires i < |events| && ShowableAt(events, i) && CallIdAt(events, i) == id && FirstNamed(events, j, id)
    ensures Tells(codec, events[j].payload, s)
    ensures ToolMsg(id, s) in Chat(codec, events)
    ensures forall m | m in Chat(codec, events) && m.ToolMsg? && m.callId == id :: m.output == s
  {
    s := ShownOutput(codec, events, id);
    ShownOutputTells(codec, events, j, id);
    ChatTruthful(codec, events, |events|);
    AnsweredExactlyOnce(codec, events);
    hide ShowableAt, ShownOutput, ChatUpTo, AllAnswers, Tells, NamesResult;
    assert id in ShowableIds(events);
    assert id in multiset(AllAnswers(Chat(codec, events)));
    AnsweredIsThere(Chat(codec, events), id);
  }

  // ------------------------------------------------- tool outputs, Anthropic

  ghost predicate HasResult(ms: seq<TurnMessage>, b: UserBlock) {
    exists p :: 0 <= p < |ms| && ms[p].FromUser? && ms[p].content.Blocks? && b in ms[p].content.blocks
  }

  /** The result block a call is answered with. */
  function ResultOf(codec: Codec, events: seq<Event>, id: string): UserBlock {
    ResultBlock(id, ShownOutput(codec, events, id), Get(AnthropicTranscript.ResultPayload(events, id), "ok") == Some(Bool(false)))
  }

  ghost predicate TruthfulBlocks(codec: Codec, events: seq<Event>, blocks: seq<UserBlock>) {
    forall b | b in blocks && b.ResultBlock? :: b == ResultOf(codec, events, b.callId)
  }

  ghost predicate TruthfulTurns(codec: Codec, events: seq<Event>, ms: seq<TurnMessage>) {
    forall m | m in ms && m.FromUser? && m.content.Blocks? :: TruthfulBlocks(codec, events, m.content.blocks)
  }

  lemma {:induction false} BlocksTruthful(codec: Codec, events: seq<Event>, ids: seq<string>, answered: set<string>)
    ensures TruthfulBlocks(codec, events, ResultBlocks(codec, events, ids, answered))
    ensures forall id | id in ids && id !in answered :: ResultOf(codec, events, id) in ResultBlocks(codec, events, ids, answered)
  {
    hide ShownOutput, AnthropicTranscript.ResultPayload;
    if ids != [] {
      assert ids == [ids[0]] + ids[1..];
      BlocksTruthful(codec, events, ids[1..], if ids[0] in answered then answered else answered + {ids[0]});
    }
  }

  lemma ExchangeTruthful(codec: Codec, events: seq<Event>, i: nat, ms: seq<TurnMessage>)
    requires i < |events| && TruthfulTurns(codec, events, ms)
    ensures TruthfulTurns(codec, events, ms + TurnExchangeAt(codec, events, i))
  {
    TurnExchangeShape(codec, events, i);
    BlocksTruthful(codec, events, IdsAt(codec, events, i), ShownBefore(events, i));
    hide TurnExchangeAt, BlocksAt, AnswersAt, ResultBlocks, ResultOf;
  }

  lemma UserTextTruthful(codec: Codec, events: seq<Event>, ms: seq<TurnMessage>, text: string)
    requires TruthfulTurns(codec, events, ms)
    ensures TruthfulTurns(codec, events, AppendUserText(ms, text))
  {
    hide ResultOf;
  }

  ghost predicate TruthfulUpTo(codec: Codec, events: seq<Event>, n: nat)
    requires n <= |events|
  {
    TruthfulTurns(codec, events, TurnsUpTo(codec, events, n))
  }

  lemma TruthfulStep(codec: Codec, events: seq<Event>, i: nat)
    requires i < |events| && TruthfulUpTo(codec, events, i)
    ensures TruthfulUpTo(codec, events, i + 1)
  {
    hide TruthfulTurns, TurnsUpTo, TurnExchangeAt, AppendUserText, UserSideText, Opens;
    var ms := TurnsUpTo(codec, events, i);
    TurnsStep(codec, events, i);
    ExchangeTruthful(codec, events, i, ms);
    UserTextTruthful(codec, events, ms, UserSideText(events[i]));
  }

  lemma {:induction false} TurnsTruthful(codec: Codec, events: seq<Event>, n: nat)
    requires n <= |events|
    ensures TruthfulUpTo(codec, events, n)
  {
    if n == 0 {
      hide TurnsWith;
    } else {
      hide *;
      TurnsTruthful(codec, events, n - 1);
      TruthfulStep(codec, events, n - 1);
    }
  }

  /** The first message that shows an id. */
  lemma {:induction false} FirstShowing(events: seq<Event>, n: nat, id: string) returns (o: nat)
    requires n <= |events| && id in ShownBefore(events, n)
    ensures o < n && Opens(events, o) && id in IdsOfKey(events, KeyAt(events, o)) && id !in ShownBefore(events, o)
  {
    hide Opens, IdsOfKey;
    if id in ShownBefore(events, n - 1) { o := FirstShowing(events, n - 1, id); } else { o := n - 1; }
  }

  lemma TextKeepsResult(ms: seq<TurnMessage>, text: string, b: UserBlock)
    requires HasResult(ms, b)
    ensures HasResult(AppendUserText(ms, text), b)
  {
    var p :| 0 <= p < |ms| && ms[p].FromUser? && ms[p].content.Blocks? && b in ms[p].content.blocks;
    var after := AppendUserText(ms, text);
    assert p < |after| && after[p].FromUser? && after[p].content.Blocks? && b in after[p].content.blocks;
  }

  lemma MoreKeepsResult(ms: seq<TurnMessage>, more: seq<TurnMessage>, b: UserBlock)
    requires HasResult(ms, b)
    ensures HasResult(ms + more, b)
  {
    var p :| 0 <= p < |ms| && ms[p].FromUser? && ms[p].content.Blocks? && b in ms[p].content.blocks;
    assert (ms + more)[p] == ms[p];
  }

  ghost predicate HasResultUpTo(codec: Codec, events: seq<Event>, n: nat, b: UserBlock)
    requires n <= |events|
  {
    HasResult(TurnsUpTo(codec, events, n), b)
  }

  lemma ResultStep(codec: Codec, events: seq<Event>, i: nat, b: UserBlock)
    requires i < |events| && HasResultUpTo(codec, events, i, b)
    ensures HasResultUpTo(codec, events, i + 1, b)
  {
    hide HasResult, TurnsUpTo, TurnExchangeAt, AppendUserText, UserSideText, Opens;
    var ms := TurnsUpTo(codec, events, i);
    TurnsStep(codec, events, i);
    MoreKeepsResult(ms, TurnExchangeAt(codec, events, i), b);
    TextKeepsResult(ms, UserSideText(events[i]), b);
  }

  lemma {:induction false} ResultStays(codec: Codec, events: seq<Event>, m: nat, n: nat, b: UserBlock)
    requires m <= n <= |events| && HasResultUpTo(codec, events, m, b)
    ensures HasResultUpTo(codec, events, n, b)
    decreases n
  {
    hide HasResultUpTo;
    if m < n {
      ResultStays(codec, events, m, n - 1, b);
      ResultStep(codec, events, n - 1, b);
    }
  }

  lemma ResultAppears(codec: Codec, events: seq<Event>, o: nat, id: string)
    requires o < |events| && Opens(events, o) && id in IdsOfKey(events, KeyAt(events, o)) && id !in ShownBefore(events, o)
    ensures HasResultUpTo(codec, events, o + 1, ResultOf(codec, events, id))
  {
    ExchangeIds(codec, events, o);
    TurnExchangeShape(codec, events, o);
    TurnsStep(codec, events, o);
    BlocksTruthful(codec, events, IdsAt(codec, events, o), ShownBefore(events, o));
    NoBlocksHere(codec, events, o);
    hide TurnExchangeAt, BlocksAt, AnswersAt, ResultBlocks, ResultOf, TurnsUpTo, Opens, IdsOfKey, ShownBefore, IdsAt, UserSideText, AppendUserText;
    var ms, answers := TurnsUpTo(codec, events, o), AnswersAt(codec, events, o);
    assert id in IdsAt(codec, events, o);
    assert ResultOf(codec, events, id) in answers;
    var after := TurnsUpTo(codec, events, o + 1);
    assert after == ms + ([FromAssistant(BlocksAt(codec, events, o))] + [FromUser(Blocks(answers))]);
    assert after[|ms| + 1] == FromUser(Blocks(answers));
  }

  lemma NoBlocksHere(codec: Codec, events: seq<Event>, o: nat)
    requires o < |events| && IdsOfKey(events, KeyAt(events, o)) != {}
    ensures BlocksAt(codec, events, o) != []
  {
    if BlocksAt(codec, events, o) == [] { NoBlocksNoIds(codec, events, o); }
  }

  /** The Anthropic conversation tells the same text for each call that is shown, marked as an error when the result says it failed. */
  lemma TurnsTellResult(codec: Codec, events: seq<Event>, i: nat, j: nat, id: string) returns (s: string)
    requires i < |events| && ShowableAt(events, i) && CallIdAt(events, i) == id && FirstNamed(events, j, id)
    ensures Tells(codec, events[j].payload, s)
    ensures var b := ResultBlock(id, s, Get(events[j].payload, "ok") == Some(Bool(false)));
      && HasResult(Turns(codec, events), b)
      && forall m, c | m in Turns(codec, events) && m.FromUser? && m.content.Blocks? && c in m.content.blocks
             && c.ResultBlock? && c.callId == id :: c == b
  {
    s := ShownOutput(codec, events, id);
    ShownOutputTells(codec, events, j, id);
    AllShown(events);
    TurnsTruthful(codec, events, |events|);
    hide Tells, NamesResult, ShownOutput, ShowableAt, ShownBefore, TurnsUpTo, Opens, IdsOfKey, ResultFor;
    assert id in ShowableIds(events);
    var o := FirstShowing(events, |events|, id);
    ResultAppears(codec, events, o, id);
    ResultStays(codec, events, o + 1, |events|, ResultOf(codec, events, id));
  }

  // ------------------------------------------------------ user texts and notes

  /** What a plain event says by itself: a user's text as it is, a note stripped. */
  function PlainOf(e: Event): Option<ChatMessage> {
    match e.kind
    case UserMessage =>
      (match Get(e.payload, "content")
       case Some(Str(s)) => if s != "" then Some(UserMsg(s)) else None
       case _ => None)
    case SystemNote => NoteAt(e.payload, "content")
    case RecoveryNote => NoteAt(e.payload, "content")
    case ContextCheckpoint => NoteAt(e.payload, "summary")
    case _ => None
  }

  function NoteAt(payload: Json, key: string): Option<ChatMessage> {
    if Strip(TextAt(payload, key)) != "" then Some(SystemMsg(Strip(TextAt(payload, key)))) else None
  }

  lemma PlainIsSaid(codec: Codec, events: seq<Event>, i: nat)
    requires i < |events| && PlainOf(events[i]).Some?
    ensures EventMessages(codec, events, i) == [PlainOf(events[i]).value]
    ensures EventSaid(codec, events, i, true) == [ChatMeaning(PlainOf(events[i]).value)]
  {
    hide Strip;
    var notes, summaries := ["content", "text", "message"], ["summary", "content", "text", "message"];
    assert notes[0] == "content" && summaries[0] == "summary";
  }

  /** Messages of the events stand in the order of the events. */
  lemma {:induction false} ChatParts(codec: Codec, events: seq<Event>, i: nat, n: nat)
    requires i < n <= |events|
    ensures ChatUpTo(codec, events, i) + EventMessages(codec, events, i) <= ChatUpTo(codec, events, n)
    decreases n
  {
    hide EventMessages;
    if i < n - 1 { ChatParts(codec, events, i, n - 1); }
  }

  lemma {:induction false} SaidParts(codec: Codec, events: seq<Event>, i: nat, n: nat)
    requires i < n <= |events|
    ensures LogSaid(codec, events, i, true) + EventSaid(codec, events, i, true) <= LogSaid(codec, events, n, true)
    decreases n
  {
    hide EventSaid;
    if i < n - 1 { SaidParts(codec, events, i, n - 1); }
  }

  ghost predicate Before<T>(xs: seq<T>, a: T, b: T) {
    exists p, q :: 0 <= p < q < |xs| && xs[p] == a && xs[q] == b
  }

  lemma BeforeIn<T>(xs: seq<T>, a: seq<T>, b: seq<T>, x: T, y: T)
    requires a + [x] <= b && b + [y] <= xs
    ensures Before(xs, x, y)
  {
    assert xs[|a|] == (b + [y])[|a|] == b[|a|] == (a + [x])[|a|] == x;
    assert xs[|b|] == (b + [y])[|b|] == y;
  }

  /** User texts, notes and checkpoints appear in both transcripts, word for word and in the order of the log. */
  lemma PlainInOrder(codec: Codec, events: seq<Event>, i: nat, j: nat)
    requires i < j < |events| && PlainOf(events[i]).Some? && PlainOf(events[j]).Some?
    ensures var a, b := PlainOf(events[i]).value, PlainOf(events[j]).value;
      && Before(Chat(codec, events), a, b)
      && Before(TurnTranscript(codec, Turns(codec, events)), ChatMeaning(a), ChatMeaning(b))
  {
    PlainIsSaid(codec, events, i);
    PlainIsSaid(codec, events, j);
    ChatParts(codec, events, i, j);
    ChatParts(codec, events, j, |events|);
    SaidParts(codec, events, i, j);
    SaidParts(codec, events, j, |events|);
    TurnsSay(codec, events, |events|);
    hide EventMessages, EventSaid, ChatUpTo, LogSaid, PlainOf, ChatMeaning, TurnsUpTo, TurnTranscript;
    var a, b := PlainOf(events[i]).value, PlainOf(events[j]).value;
    BeforeIn(Chat(codec, events), ChatUpTo(codec, events, i), ChatUpTo(codec, events, j), a, b);
    BeforeIn(TurnTranscript(codec, Turns(codec, events)), LogSaid(codec, events, i, true), LogSaid(codec, events, j, true),
             ChatMeaning(a), ChatMeaning(b));
  }

  /** And nothing else is ever put into the user's mouth. */
  lemma {:induction false} UserTextsAreSaid(codec: Codec, events: seq<Event>, n: nat, m: ChatMessage)
    requires n <= |events| && m in ChatUpTo(codec, events, n) && m.UserMsg?
    ensures exists i :: 0 <= i < n && events[i].kind.UserMessage? && UserText(events[i].payload) == m.text
  {
    hide UserText;
    if m in ChatUpTo(codec, events, n - 1) {
      UserTextsAreSaid(codec, events, n - 1, m);
    } else {
      assert m in EventMessages(codec, events, n - 1);
      OnlyUsersSpeak(codec, events, n - 1, m);
    }
  }

  lemma OnlyUsersSpeak(codec: Codec, events: seq<Event>, i: nat, m: ChatMessage)
    requires i < |events| && m in EventMessages(codec, events, i) && m.UserMsg?
    ensures events[i].kind.UserMessage? && UserText(events[i].payload) == m.text
  {
    hide UserText;
    if Spoken(events[i]) {
      if Opens(events, i) {
        ExchangeIds(codec, events, i);
        OnlyTools(codec, events, IdsAt(codec, events, i), ShownBefore(events, i));
      }
    }
  }

  lemma {:induction false} OnlyTools(codec: Codec, events: seq<Event>, ids: seq<string>, answered: set<string>)
    ensures forall m | m in ResultMessages(codec, events, ids, answered) :: m.ToolMsg?
  {
    hide ShownOutput;
    if ids != [] { OnlyTools(codec, events, ids[1..], if ids[0] in answered then answered else answered + {ids[0]}); }
  }

  // ------------------------------------------------------------ calls and texts

  /** A call event that stores an id, a name and an input object. */
  ghost predicate StoresCall(e: Event, id: string, name: string, input: map<string, Json>) {
    && e.kind.ToolCall? && id != "" && name != ""
    && Get(e.payload, "tool_call_id") == Some(Str(id)) && Get(e.payload, "name") == Some(Str(name))
    && Get(e.payload, "input") == Some(Obj(input))
  }

  lemma StoredCallIs(codec: Codec, events: seq<Event>, j: nat, id: string, name: string, input: map<string, Json>)
    requires j < |events| && StoresCall(events[j], id, name, input)
    ensures ShownCall(codec, events, j).item == Call(id, name, Obj(input))
  {
  }

  lemma CallInMessage(codec: Codec, events: seq<Event>, j: nat) returns (o: nat, k: nat)
    requires j < |events| && FirstShown(events, j)
    ensures o < |events| && Opens(events, o) && KeyAt(events, o) == KeyAt(events, j)
    ensures k < |CallsAt(codec, events, o)| && CallsAt(codec, events, o)[k] == ShownCall(codec, events, j)
  {
    ShownIsSpoken(events, j);
    o := OpeningOf(events, j);
    k := ShownCallHas(codec, events, o, j);
  }

  /** A call that is shown appears with its id, its name and its input, in both transcripts. */
  lemma CallIsShown(codec: Codec, events: seq<Event>, j: nat, id: string, name: string, input: map<string, Json>)
    requires j < |events| && FirstShown(events, j) && StoresCall(events[j], id, name, input)
    ensures MakesCall(Chat(codec, events), FunctionCall(id, name, codec.dumps(Obj(input))))
    ensures SaysCall(TurnTranscript(codec, Turns(codec, events)), FunctionCall(id, name, codec.dumps(Obj(input))))
  {
    hide *;
    StoredCallIs(codec, events, j, id, name, input);
    var o, k := CallInMessage(codec, events, j);
    var m, said := ExchangeWithCall(codec, events, o, k, id, name, input);
    EventIsInChat(codec, events, o, m);
    EventIsInTurns(codec, events, o, said);
    CallIsSaid(TurnTranscript(codec, Turns(codec, events)), said, FunctionCall(id, name, codec.dumps(Obj(input))));
    CallIsMade(Chat(codec, events), m, FunctionCall(id, name, codec.dumps(Obj(input))));
  }

  ghost predicate MakesCall(ms: seq<ChatMessage>, call: FunctionCall) {
    exists m :: m in ms && m.AssistantMsg? && call in m.calls
  }

  ghost predicate SaysCall(said: seq<Said>, call: FunctionCall) {
    exists m :: m in said && m.AssistantSide? && call in m.calls
  }

  lemma CallIsMade(ms: seq<ChatMessage>, m: ChatMessage, call: FunctionCall)
    requires m in ms && m.AssistantMsg? && call in m.calls
    ensures MakesCall(ms, call)
  {
  }

  lemma CallIsSaid(said: seq<Said>, m: Said, call: FunctionCall)
    requires m in said && m.AssistantSide? && call in m.calls
    ensures SaysCall(said, call)
  {
  }

  lemma EventIsInChat(codec: Codec, events: seq<Event>, i: nat, m: ChatMessage)
    requires i < |events| && m in EventMessages(codec, events, i)
    ensures m in Chat(codec, events)
  {
    hide EventMessages, ChatUpTo;
    ChatParts(codec, events, i, |events|);
    InPrefix(ChatUpTo(codec, events, i), EventMessages(codec, events, i), Chat(codec, events), m);
  }

  lemma InPrefix<T>(a: seq<T>, b: seq<T>, xs: seq<T>, m: T)
    requires a + b <= xs && m in b
    ensures m in xs
  {
    var k :| 0 <= k < |b| && b[k] == m;
    assert xs[|a| + k] == (a + b)[|a| + k] == m;
  }

  lemma EventIsInTurns(codec: Codec, events: seq<Event>, i: nat, m: Said)
    requires i < |events| && m in EventSaid(codec, events, i, true)
    ensures m in TurnTranscript(codec, Turns(codec, events))
  {
    hide *;
    TurnsSay(codec, events, |events|);
    SaidParts(codec, events, i, |events|);
    InPrefix(LogSaid(codec, events, i, true), EventSaid(codec, events, i, true), LogSaid(codec, events, |events|, true), m);
    TurnsSayAll(codec, events);
  }

  lemma TurnsSayAll(codec: Codec, events: seq<Event>)
    requires TurnsSettled(codec, events, |events|)
    ensures TurnTranscript(codec, Turns(codec, events)) == LogSaid(codec, events, |events|, true)
  {
    hide TurnTranscript, LogSaid, TurnsUpTo;
  }

  lemma ExchangeWithCall(codec: Codec, events: seq<Event>, o: nat, k: nat, id: string, name: string, input: map<string, Json>)
    returns (m: ChatMessage, said: Said)
    requires o < |events| && Opens(events, o) && k < |CallsAt(codec, events, o)|
    requires CallsAt(codec, events, o)[k].item == Call(id, name, Obj(input))
    ensures m in EventMessages(codec, events, o) && m.AssistantMsg? && FunctionCall(id, name, codec.dumps(Obj(input))) in m.calls
    ensures said in EventSaid(codec, events, o, true) && said.AssistantSide?
    ensures FunctionCall(id, name, codec.dumps(Obj(input))) in said.calls
  {
    var calls := CallsAt(codec, events, o);
    var shown := FunctionCall(id, name, codec.dumps(Obj(input)));
    assert ToolInput(codec, Obj(input)) == Obj(input);
    assert FunctionCalls(codec, calls)[k] == shown;
    assert DirectCalls(codec, calls)[k] == shown;
    hide CallsAt, ResultMessages, Opens, GroupCalls, ToolInput, FunctionCalls, DirectCalls;
    CallsAtMeans(codec, events, o);
    m := EventMessages(codec, events, o)[0];
    said := EventSaid(codec, events, o, true)[0];
  }

  lemma CallsAtMeans(codec: Codec, events: seq<Event>, o: nat)
    requires o < |events|
    ensures CallsAt(codec, events, o) == GroupCalls(codec, Group(events, KeyAt(events, o)), PairedSet(events))
  {
    hide GroupCalls, Group, PairedSet, KeyAt;
  }

  /** Calls of one message that store their block index stand in the order of the indices. */
  lemma BlocksInOrder(codec: Codec, events: seq<Event>, i: nat, j: nat, o: nat, x: int, y: int)
    requires i < |events| && j < |events| && FirstShown(events, i) && FirstShown(events, j)
    requires o < |events| && KeyAt(events, o) == KeyAt(events, i) == KeyAt(events, j)
    requires Get(events[i].payload, "block_index") == Some(Int(x)) && Get(events[j].payload, "block_index") == Some(Int(y)) && x < y
    ensures Before(IdsAt(codec, events, o), CallIdAt(events, i), CallIdAt(events, j))
  {
    var k := ShownCallHas(codec, events, o, i);
    var l := ShownCallHas(codec, events, o, j);
    var calls := CallsAt(codec, events, o);
    SortSorted(CallsUpTo(codec, Group(events, KeyAt(events, o)), PairedSet(events), |Group(events, KeyAt(events, o))|));
    assert Sorted(calls);
    hide FirstShown, CallsAt, GroupCalls, KeyAt;
    assert calls[k].major == x && calls[l].major == y;
    assert l < k ==> Leq(calls[l], calls[k]);
    SameIdsAt(codec, events, o);
    assert IdsAt(codec, events, o)[k] == CallIdAt(events, i) && IdsAt(codec, events, o)[l] == CallIdAt(events, j);
  }

  lemma SameIdsAt(codec: Codec, events: seq<Event>, o: nat)
    requires o < |events|
    ensures IdsAt(codec, events, o) == Ids(CallsAt(codec, events, o))
  {
  }

  /** An assistant message that stores one text and is alone under its id says exactly this text. */
  lemma TextIsShown(codec: Codec, events: seq<Event>, i: nat, s: string, fields: map<string, Json>)
    requires i < |events| && events[i].kind.AssistantMessage? && s != ""
    requires Get(events[i].payload, "text_blocks") == Some(Arr([Obj(fields)])) && Get(Obj(fields), "text") == Some(Str(s))
    requires forall k | 0 <= k < |events| && k != i && Spoken(events[k]) :: KeyAt(events, k) != KeyAt(events, i)
    ensures AssistantMsg(Some(s), []) in Chat(codec, events)
    ensures AssistantSide(s, []) in TurnTranscript(codec, Turns(codec, events))
  {
    AloneInGroup(events, i, |events|);
    hide EventMessages, EventSaid, Chat, TurnTranscript, KeyAt, GroupUpTo, Get;
    OneText(codec, events, i, s, fields);
    EventIsInChat(codec, events, i, AssistantMsg(Some(s), []));
    EventIsInTurns(codec, events, i, AssistantSide(s, []));
  }

  lemma {:induction false} AloneInGroup(events: seq<Event>, i: nat, n: nat)
    requires i < |events| && Spoken(events[i]) && n <= |events|
    requires forall k | 0 <= k < |events| && k != i && Spoken(events[k]) :: KeyAt(events, k) != KeyAt(events, i)
    ensures GroupUpTo(events, KeyAt(events, i), n) == if i < n then [Member(i, events[i])] else []
  {
    if n > 0 { AloneInGroup(events, i, n - 1); }
  }

  lemma OneText(codec: Codec, events: seq<Event>, i: nat, s: string, fields: map<string, Json>)
    requires i < |events| && events[i].kind.AssistantMessage? && s != ""
    requires Get(events[i].payload, "text_blocks") == Some(Arr([Obj(fields)])) && Get(Obj(fields), "text") == Some(Str(s))
    requires Group(events, KeyAt(events, i)) == [Member(i, events[i])]
    requires forall k | 0 <= k < |events| && k != i && Spoken(events[k]) :: KeyAt(events, k) != KeyAt(events, i)
    ensures AssistantMsg(Some(s), []) in EventMessages(codec, events, i)
    ensures AssistantSide(s, []) in EventSaid(codec, events, i, true)
  {
    var group := [Member(i, events[i])];
    OneTextOf(group, s, fields);
    OneCallLess(codec, group, PairedSet(events));
    assert Opens(events, i);
    hide Group, KeyAt, PairedSet, GroupTexts, GroupCalls, ResultMessages, JoinTexts;
    NoCallsRendered(codec);
    assert EventMessages(codec, events, i)[0] == AssistantMsg(Some(s), []);
    assert EventSaid(codec, events, i, true)[0] == AssistantSide(s, []);
  }

  lemma NoCallsRendered(codec: Codec)
    ensures FunctionCalls(codec, []) == [] && DirectCalls(codec, []) == []
  {
  }

  lemma OneTextOf(group: seq<Member>, s: string, fields: map<string, Json>)
    requires |group| == 1 && group[0].event.kind.AssistantMessage? && s != ""
    requires Get(group[0].event.payload, "text_blocks") == Some(Arr([Obj(fields)])) && Get(Obj(fields), "text") == Some(Str(s))
    ensures JoinTexts(GroupTexts(group)) == s
  {
    var raw := [Obj(fields)];
    var start := Texts([], 0);
    assert TextsUpTo(group, 0) == start;
    assert AddBlocksUpTo(start, group[0].order, raw, 0) == start;
    var one := AddBlock(start, group[0].order, 0, raw[0]);
    assert AddBlocksUpTo(start, group[0].order, raw, 1) == one;
    assert TextsUpTo(group, 1) == one;
    assert |one.blocks| == 1 && one.blocks[0].item == s;
    SortOfSorted(one.blocks);
    assert JoinTexts(one.blocks[1..]) == "";
    assert s + "" == s;
  }

  lemma OneCallLess(codec: Codec, group: seq<Member>, paired: set<string>)
    requires |group| == 1 && group[0].event.kind.AssistantMessage?
    ensures GroupCalls(codec, group, paired) == []
  {
    assert CallsUpTo(codec, group, paired, 0) == [];
    assert CallsUpTo(codec, group, paired, 1) == [];
  }
}
