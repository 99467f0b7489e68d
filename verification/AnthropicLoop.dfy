/**
  The turn loop that talks to Anthropic: the same loop over block content, where
  all results of a reply travel in one user message.
 */
module AnthropicLoop {
  import opened JsonValue
  import opened ContextEvents
  import opened ProviderMessages
  import opened TurnCompaction
  import opened AgentLoop

  datatype ReplyBlock =
    | Says(text: string)
    | Uses(providerId: Option<string>, name: string, input: Json, inputError: Option<string>)

  type ReplyBlocks = seq<ReplyBlock>

  const NOT_OBJECT_TEXT := "tool input must be a JSON object"

  function PlannedUse(world: World<ReplyBlocks>, turn: nat, blockIndex: nat, b: ReplyBlock): PlannedCall
    requires b.Uses?
  {
    PlannedCall(
      CallId(world, turn, blockIndex, b.name, b.providerId), b.name, if b.input.Obj? then b.input else Obj(map[]),
      if b.inputError.Some? && b.inputError.value != "" then b.inputError
      else if !b.input.Obj? then Some(NOT_OBJECT_TEXT) else None)
  }

  /** The assistant content the loop records for the first `n` blocks of a reply. */
  function ContentUpTo(world: World<ReplyBlocks>, turn: nat, reply: seq<ReplyBlock>, n: nat): seq<AssistantBlock>
    requires n <= |reply|
  {
    if n == 0 then []
    else
      var before, b := ContentUpTo(world, turn, reply, n - 1), reply[n - 1];
      match b
      case Says(text) => before + [TextBlock(text)]
      case Uses(_, _, _, _) =>
        var call := PlannedUse(world, turn, n - 1, b);
        before + [ToolUse(call.id, call.name, call.input)]
  }

  function UsesUpTo(world: World<ReplyBlocks>, turn: nat, reply: seq<ReplyBlock>, n: nat): seq<PlannedCall>
    requires n <= |reply|
  {
    if n == 0 then []
    else if reply[n - 1].Uses? then UsesUpTo(world, turn, reply, n - 1) + [PlannedUse(world, turn, n - 1, reply[n - 1])]
    else UsesUpTo(world, turn, reply, n - 1)
  }

  /** The text of a reply as the honesty checks read it. */
  function SpokenText(reply: seq<ReplyBlock>, n: nat): string
    requires n <= |reply|
  {
    if n == 0 then ""
    else
      var before := SpokenText(reply, n - 1);
      if reply[n - 1].Says? && Strip(reply[n - 1].text) != "" then
        if before != "" then Strip(before + "\n" + Strip(reply[n - 1].text)) else Strip(reply[n - 1].text)
      else before
  }

  // -------------------------------------------------------------- one exchange

  datatype TurnWork = TurnWork(
    results: seq<UserBlock>, autos: seq<AssistantBlock>, failures: nat, edits: nat, autoBuilds: nat, stopped: bool)

  function Resulted(w: TurnWork, id: string, text: string, isError: bool): TurnWork {
    w.(results := w.results + [ResultBlock(id, text, isError)])
  }

  const BUILD_INPUT := Obj(map["task" := Str("assembleDebug"), "auto" := Bool(true)])

  /** The build after an edit; its block index counts the blocks already in the message. */
  function AutoUsed(world: World<ReplyBlocks>, turn: nat, blocks: nat, k: nat, w: TurnWork): TurnWork {
    var id := CallId(world, turn, blocks + |w.autos| + w.autoBuilds + 1, "run_gradle", None);
    var called := w.(autoBuilds := w.autoBuilds + 1, autos := w.autos + [ToolUse(id, "run_gradle", BUILD_INPUT)]);
    match world.build(turn, k)
    case Raised => called.(stopped := true)
    case Ran(ok, output) => Resulted(called, id, output, !ok).(failures := if ok then called.failures else called.failures + 1)
  }

  function RanUse(call: PlannedCall, ok: bool, output: string, w: TurnWork): TurnWork {
    Resulted(w, call.id, output, !ok).(
      edits := if IsEdit(call.name) && ok then w.edits + 1 else w.edits,
      failures := if IsBuild(call) && !ok then w.failures + 1 else w.failures)
  }

  function HandleUse(cfg: Config, world: World<ReplyBlocks>, turn: nat, blocks: nat, k: nat, call: PlannedCall, w: TurnWork): TurnWork {
    if call.error.Some? then Resulted(w, call.id, MALFORMED_TEXT + call.error.value, true)
    else if IsBuild(call) && w.failures >= RetryLimit(cfg) then Resulted(w, call.id, RefusalText(cfg), true)
    else
      match world.tool(turn, k)
      case Raised => w.(stopped := true)
      case Ran(ok, output) =>
        var ran := RanUse(call, ok, output, w);
        if cfg.autoBuild && IsEdit(call.name) && ok then AutoUsed(world, turn, blocks, k, ran) else ran
  }

  function HandledUses(cfg: Config, world: World<ReplyBlocks>, turn: nat, blocks: nat, calls: seq<PlannedCall>, n: nat, start: TurnWork): TurnWork
    requires n <= |calls|
  {
    if n == 0 then start
    else
      var before := HandledUses(cfg, world, turn, blocks, calls, n - 1, start);
      if before.stopped then before else HandleUse(cfg, world, turn, blocks, n - 1, calls[n - 1], before)
  }

  function PlannedIds(calls: seq<PlannedCall>): seq<string> {
    seq(|calls|, i requires 0 <= i < |calls| => calls[i].id)
  }

  /** One result for every call handled and for every automatic build, and nothing but results. */
  ghost predicate UseBalanced(calls: seq<PlannedCall>, n: nat, w: TurnWork)
    requires n <= |calls|
  {
    && (forall i | 0 <= i < |w.results| :: w.results[i].ResultBlock?)
    && multiset(ResultIdsIn(w.results)) == multiset(PlannedIds(calls[..n])) + multiset(UseIdsIn(w.autos))
  }

  lemma {:induction false} ResultIdsOneMore(blocks: seq<UserBlock>, id: string, text: string, isError: bool)
    ensures ResultIdsIn(blocks + [ResultBlock(id, text, isError)]) == ResultIdsIn(blocks) + [id]
  {
    if blocks != [] {
      ResultIdsOneMore(blocks[1..], id, text, isError);
      assert (blocks + [ResultBlock(id, text, isError)])[1..] == blocks[1..] + [ResultBlock(id, text, isError)];
    }
  }

  lemma {:induction false} UseIdsAppend(a: seq<AssistantBlock>, b: seq<AssistantBlock>)
    ensures UseIdsIn(a + b) == UseIdsIn(a) + UseIdsIn(b)
  {
    if a == [] { assert a + b == b; }
    else {
      assert (a + b)[1..] == a[1..] + b;
      UseIdsAppend(a[1..], b);
    }
  }

  lemma OneUseId(id: string, name: string, input: Json)
    ensures UseIdsIn([ToolUse(id, name, input)]) == [id]
  {
    assert [ToolUse(id, name, input)][1..] == [];
  }

  lemma IdsOneMore(calls: seq<PlannedCall>, n: nat)
    requires n < |calls|
    ensures PlannedIds(calls[..n + 1]) == PlannedIds(calls[..n]) + [calls[n].id]
  {
  }

  lemma ResultKeepsBalance(calls: seq<PlannedCall>, n: nat, w: TurnWork, text: string, isError: bool)
    requires n < |calls| && UseBalanced(calls, n, w)
    ensures UseBalanced(calls, n + 1, Resulted(w, calls[n].id, text, isError))
  {
    ResultIdsOneMore(w.results, calls[n].id, text, isError);
    IdsOneMore(calls, n);
    hide ResultIdsIn, UseIdsIn, PlannedIds;
  }

  lemma RanUseKeepsBalance(calls: seq<PlannedCall>, n: nat, w: TurnWork, ok: bool, output: string)
    requires n < |calls| && UseBalanced(calls, n, w)
    ensures UseBalanced(calls, n + 1, RanUse(calls[n], ok, output, w))
  {
    ResultKeepsBalance(calls, n, w, output, !ok);
    hide ResultIdsIn, UseIdsIn, PlannedIds;
  }

  lemma AutoUseKeepsBalance(world: World<ReplyBlocks>, turn: nat, blocks: nat, calls: seq<PlannedCall>, n: nat, k: nat, w: TurnWork)
    requires n <= |calls| && UseBalanced(calls, n, w) && !AutoUsed(world, turn, blocks, k, w).stopped
    ensures UseBalanced(calls, n, AutoUsed(world, turn, blocks, k, w))
  {
    var id := CallId(world, turn, blocks + |w.autos| + w.autoBuilds + 1, "run_gradle", None);
    var outcome := world.build(turn, k);
    hide CallId, UseBalanced;
    if outcome.Ran? {
      BuiltKeepsBalance(calls, n, w, AutoUsed(world, turn, blocks, k, w), id, outcome.output, !outcome.ok);
    }
  }

  lemma BuiltKeepsBalance(calls: seq<PlannedCall>, n: nat, w: TurnWork, w': TurnWork, id: string, output: string, isError: bool)
    requires n <= |calls| && UseBalanced(calls, n, w)
    requires w'.results == w.results + [ResultBlock(id, output, isError)]
    requires w'.autos == w.autos + [ToolUse(id, "run_gradle", BUILD_INPUT)]
    ensures UseBalanced(calls, n, w')
  {
    ResultIdsOneMore(w.results, id, output, isError);
    UseIdsAppend(w.autos, [ToolUse(id, "run_gradle", BUILD_INPUT)]);
    OneUseId(id, "run_gradle", BUILD_INPUT);
    hide ResultIdsIn, UseIdsIn, PlannedIds;
  }

  lemma UseKeepsBalance(cfg: Config, world: World<ReplyBlocks>, turn: nat, blocks: nat, calls: seq<PlannedCall>, n: nat, w: TurnWork)
    requires n < |calls| && UseBalanced(calls, n, w) && !HandleUse(cfg, world, turn, blocks, n, calls[n], w).stopped
    ensures UseBalanced(calls, n + 1, HandleUse(cfg, world, turn, blocks, n, calls[n], w))
  {
    var call, outcome := calls[n], world.tool(turn, n);
    hide UseBalanced, RefusalText, IsBuild, IsEdit, AutoUsed, RetryLimit, Resulted, RanUse;
    if call.error.Some? {
      ResultKeepsBalance(calls, n, w, MALFORMED_TEXT + call.error.value, true);
    } else if IsBuild(call) && w.failures >= RetryLimit(cfg) {
      ResultKeepsBalance(calls, n, w, RefusalText(cfg), true);
    } else if outcome.Ran? {
      RanUseKeepsBalance(calls, n, w, outcome.ok, outcome.output);
      if cfg.autoBuild && IsEdit(call.name) && outcome.ok {
        AutoUseKeepsBalance(world, turn, blocks, calls, n + 1, n, RanUse(call, outcome.ok, outcome.output, w));
      }
    }
  }

  lemma {:induction false} UsesAreBalanced(
    cfg: Config, world: World<ReplyBlocks>, turn: nat, blocks: nat, calls: seq<PlannedCall>, n: nat, start: TurnWork)
    requires n <= |calls| && start.results == [] && start.autos == []
    requires !HandledUses(cfg, world, turn, blocks, calls, n, start).stopped
    ensures UseBalanced(calls, n, HandledUses(cfg, world, turn, blocks, calls, n, start))
  {
    hide *;
    if n == 0 {
      NoUseYet(cfg, world, turn, blocks, calls, start);
    } else {
      HandledUsesUnfold(cfg, world, turn, blocks, calls, n, start);
      UsesAreBalanced(cfg, world, turn, blocks, calls, n - 1, start);
      UseKeepsBalance(cfg, world, turn, blocks, calls, n - 1, HandledUses(cfg, world, turn, blocks, calls, n - 1, start));
    }
  }

  lemma NoUseYet(cfg: Config, world: World<ReplyBlocks>, turn: nat, blocks: nat, calls: seq<PlannedCall>, start: TurnWork)
    requires start.results == [] && start.autos == []
    ensures UseBalanced(calls, 0, HandledUses(cfg, world, turn, blocks, calls, 0, start))
  {
    assert calls[..0] == [];
  }

  lemma HandledUsesUnfold(
    cfg: Config, world: World<ReplyBlocks>, turn: nat, blocks: nat, calls: seq<PlannedCall>, n: nat, start: TurnWork)
    requires 0 < n <= |calls| && !HandledUses(cfg, world, turn, blocks, calls, n, start).stopped
    ensures var before := HandledUses(cfg, world, turn, blocks, calls, n - 1, start);
      && !before.stopped
      && HandledUses(cfg, world, turn, blocks, calls, n, start) == HandleUse(cfg, world, turn, blocks, n - 1, calls[n - 1], before)
  {
    hide HandleUse;
  }

  // ---------------------------------------------------------------- one turn

  datatype TurnState = TurnState(messages: seq<TurnMessage>, failures: nat, edits: nat, nudges: nat, autoBuilds: nat)

  datatype Then = Continues(state: TurnState) | Finishes | Leaves

  function Counters(s: TurnState): LoopState {
    LoopState([], s.failures, s.edits, s.nudges, s.autoBuilds)
  }

  /** What the loop makes of the reply with index `turn`. */
  function AfterBlocks(cfg: Config, world: World<ReplyBlocks>, turn: nat, s: TurnState): Then {
    match world.replies(turn)
    case None => Leaves
    case Some(reply) =>
      if !world.recorded(turn) then Leaves
      else
        var content, calls := ContentUpTo(world, turn, reply, |reply|), UsesUpTo(world, turn, reply, |reply|);
        if calls == [] then
          match NudgeFor(cfg, world, turn, SpokenText(reply, |reply|), Counters(s))
          case None => Finishes
          case Some(nudge) =>
            Continues(s.(messages := s.messages + [FromAssistant(content), FromUser(Plain(nudge))], nudges := s.nudges + 1))
        else if world.haltsCalls(turn) then Leaves
        else
          var w := HandledUses(cfg, world, turn, |content|, calls, |calls|, TurnWork([], [], s.failures, s.edits, s.autoBuilds, false));
          if w.stopped then Leaves
          else
            Continues(TurnState(
              s.messages + [FromAssistant(content + w.autos), FromUser(Blocks(w.results))], w.failures, w.edits, s.nudges, w.autoBuilds))
  }

  function SteeredTurns(steers: seq<string>): seq<TurnMessage> {
    seq(|steers|, k requires 0 <= k < |steers| => FromUser(Plain(steers[k])))
  }

  ghost predicate TurnPrepared(codec: Codec, cfg: Config, world: World<ReplyBlocks>, turn: nat, s: TurnState, s': TurnState) {
    var messages := s.messages + SteeredTurns(world.steers(turn));
    && TurnsCompacted(codec, messages, cfg.compactMax, KEEP_RECENT, s'.messages, TurnsDropped(codec, messages, cfg.compactMax, KEEP_RECENT))
    && s' == s.(messages := s'.messages)
  }

  ghost predicate Requests(
    codec: Codec, cfg: Config, world: World<ReplyBlocks>, offset: nat, start: TurnState, sent: seq<TurnState>)
  {
    && (forall k | 0 <= k < |sent| - 1 :: AfterBlocks(cfg, world, offset + 1 + k, sent[k]).Continues?)
    && (|sent| > 0 ==> offset + |sent| <= TotalTurns(cfg) && TurnPrepared(codec, cfg, world, offset + 1, start, sent[0]))
    && (forall k | 0 <= k < |sent| - 1 ::
          TurnPrepared(codec, cfg, world, offset + 2 + k, AfterBlocks(cfg, world, offset + 1 + k, sent[k]).state, sent[k + 1]))
  }

  /** The loop over the tool uses of one reply. */
  method HandleToolUses(cfg: Config, world: World<ReplyBlocks>, turn: nat, blocks: nat, calls: seq<PlannedCall>, start: TurnWork)
    returns (w: TurnWork)
    requires !start.stopped
    ensures w == HandledUses(cfg, world, turn, blocks, calls, |calls|, start)
  {
    w := start;
    hide HandleUse;
    for k := 0 to |calls|
      invariant w == HandledUses(cfg, world, turn, blocks, calls, k, start)
    {
      if !w.stopped { w := AnswerUse(cfg, world, turn, blocks, k, calls[k], w); }
    }
  }

  method AnswerUse(cfg: Config, world: World<ReplyBlocks>, turn: nat, blocks: nat, k: nat, call: PlannedCall, start: TurnWork) returns (w: TurnWork)
    ensures w == HandleUse(cfg, world, turn, blocks, k, call, start)
  {
    w := start;
    if call.error.Some? {
      return w.(results := w.results + [ResultBlock(call.id, MALFORMED_TEXT + call.error.value, true)]);
    }
    if IsBuild(call) && w.failures >= RetryLimit(cfg) {
      return w.(results := w.results + [ResultBlock(call.id, RefusalText(cfg), true)]);
    }
    var result := world.tool(turn, k);
    if result.Raised? { return w.(stopped := true); }
    if IsEdit(call.name) && result.ok { w := w.(edits := w.edits + 1); }
    if IsBuild(call) && !result.ok { w := w.(failures := w.failures + 1); }
    w := w.(results := w.results + [ResultBlock(call.id, result.output, !result.ok)]);
    if cfg.autoBuild && IsEdit(call.name) && result.ok {
      w := w.(autoBuilds := w.autoBuilds + 1);
      var autoId := CallId(world, turn, blocks + |w.autos| + w.autoBuilds, "run_gradle", None);
      w := w.(autos := w.autos + [ToolUse(autoId, "run_gradle", BUILD_INPUT)]);
      var built := world.build(turn, k);
      if built.Raised? { return w.(stopped := true); }
      if !built.ok { w := w.(failures := w.failures + 1); }
      w := w.(results := w.results + [ResultBlock(autoId, built.output, !built.ok)]);
    }
  }

  method AnswerBlocks(cfg: Config, world: World<ReplyBlocks>, turn: nat, s: TurnState) returns (next: Then)
    ensures next == AfterBlocks(cfg, world, turn, s)
  {
    var answer := world.replies(turn);
    if answer.None? || !world.recorded(turn) { return Leaves; }
    var reply := answer.value;
    var content, calls, text := ReadBlocks(world, turn, reply);
    hide ContentUpTo, UsesUpTo, SpokenText, HandledUses;
    if calls == [] {
      var nudge := NudgeFor(cfg, world, turn, text, Counters(s));
      if nudge.None? { return Finishes; }
      return Continues(s.(messages := s.messages + [FromAssistant(content), FromUser(Plain(nudge.value))], nudges := s.nudges + 1));
    }
    if world.haltsCalls(turn) { return Leaves; }
    var w := HandleToolUses(cfg, world, turn, |content|, calls, TurnWork([], [], s.failures, s.edits, s.autoBuilds, false));
    if w.stopped { return Leaves; }
    return Continues(TurnState(
      s.messages + [FromAssistant(content + w.autos), FromUser(Blocks(w.results))], w.failures, w.edits, s.nudges, w.autoBuilds));
  }

  /** The loop over the content blocks of a reply. */
  method ReadBlocks(world: World<ReplyBlocks>, turn: nat, reply: seq<ReplyBlock>)
    returns (content: seq<AssistantBlock>, calls: seq<PlannedCall>, text: string)
    ensures content == ContentUpTo(world, turn, reply, |reply|)
    ensures calls == UsesUpTo(world, turn, reply, |reply|) && text == SpokenText(reply, |reply|)
  {
    content, calls, text := [], [], "";
    hide PlannedUse, Strip;
    for n := 0 to |reply|
      invariant content == ContentUpTo(world, turn, reply, n)
      invariant calls == UsesUpTo(world, turn, reply, n) && text == SpokenText(reply, n)
    {
      match reply[n]
      case Says(said) =>
        var stripped := Strip(said);
        if stripped != "" { text := if text != "" then Strip(text + "\n" + stripped) else stripped; }
        content := content + [TextBlock(said)];
      case Uses(_, _, _, _) =>
        var call := PlannedUse(world, turn, n, reply[n]);
        calls := calls + [call];
        content := content + [ToolUse(call.id, call.name, call.input)];
    }
  }

  /** `_run_anthropic`, from the resumed offset to its end. */
  method RunAnthropic(codec: Codec, cfg: Config, world: World<ReplyBlocks>, offset: nat, start: TurnState)
    returns (sent: seq<TurnState>, outcome: Outcome)
    ensures Requests(codec, cfg, world, offset, start, sent)
    ensures outcome.Final? ==> sent != [] && AfterBlocks(cfg, world, offset + |sent|, sent[|sent| - 1]).Finishes?
    ensures outcome.OutOfTurns? ==> |sent| == if offset < TotalTurns(cfg) then TotalTurns(cfg) - offset else 0
  {
    sent := [];
    NoRequestYet(codec, cfg, world, offset, start);
    hide *;
    var state, total, turn := start, TotalTurns(cfg), offset + 1;
    while turn <= total
      invariant |sent| == turn - offset - 1 && (turn <= total + 1 || sent == [])
      invariant Requests(codec, cfg, world, offset, start, sent)
      invariant sent == [] ==> state == start
      invariant sent != [] ==> AfterBlocks(cfg, world, offset + |sent|, sent[|sent| - 1]) == Continues(state)
      decreases total - turn
    {
      if world.haltsBefore(turn) { return sent, CutShort; }
      var messages := AppendTurnSteers(state.messages, world.steers(turn));
      var result, _ := CompactAnthropicMessages(codec, messages, cfg.compactMax, KEEP_RECENT);
      ghost var before := state;
      state := state.(messages := result);
      TurnPreparedMeans(codec, cfg, world, turn, before, state, messages);
      OneMoreRequest(codec, cfg, world, offset, start, sent, before, state);
      sent := sent + [state];
      var next := AnswerBlocks(cfg, world, turn, state);
      if next.Leaves? { return sent, CutShort; }
      if next.Finishes? { return sent, Final; }
      state := next.state;
      turn := turn + 1;
    }
    outcome := OutOfTurns;
  }

  method AppendTurnSteers(messages: seq<TurnMessage>, steers: seq<string>) returns (messages': seq<TurnMessage>)
    ensures messages' == messages + SteeredTurns(steers)
  {
    messages' := messages;
    for k := 0 to |steers|
      invariant messages' == messages + SteeredTurns(steers[..k])
    {
      messages' := messages' + [FromUser(Plain(steers[k]))];
      assert SteeredTurns(steers[..k + 1]) == SteeredTurns(steers[..k]) + [FromUser(Plain(steers[k]))];
    }
    assert steers[..|steers|] == steers;
  }

  lemma NoRequestYet(codec: Codec, cfg: Config, world: World<ReplyBlocks>, offset: nat, start: TurnState)
    ensures Requests(codec, cfg, world, offset, start, [])
  {
  }

  lemma TurnPreparedMeans(
    codec: Codec, cfg: Config, world: World<ReplyBlocks>, turn: nat, before: TurnState, state: TurnState, messages: seq<TurnMessage>)
    requires messages == before.messages + SteeredTurns(world.steers(turn))
    requires TurnsCompacted(codec, messages, cfg.compactMax, KEEP_RECENT, state.messages,
                            TurnsDropped(codec, messages, cfg.compactMax, KEEP_RECENT))
    requires state == before.(messages := state.messages)
    ensures TurnPrepared(codec, cfg, world, turn, before, state)
  {
    hide TurnsCompacted, TurnsDropped;
  }

  lemma OneMoreRequest(
    codec: Codec, cfg: Config, world: World<ReplyBlocks>, offset: nat, start: TurnState, sent: seq<TurnState>,
    before: TurnState, state: TurnState)
    requires Requests(codec, cfg, world, offset, start, sent)
    requires offset + |sent| < TotalTurns(cfg) && (before == start || sent != [])
    requires sent != [] ==> AfterBlocks(cfg, world, offset + |sent|, sent[|sent| - 1]) == Continues(before)
    requires TurnPrepared(codec, cfg, world, offset + |sent| + 1, before, state)
    ensures Requests(codec, cfg, world, offset, start, sent + [state])
  {
    hide AfterBlocks, TurnPrepared;
    var sent' := sent + [state];
    forall k | 0 <= k < |sent'| - 1 ensures AfterBlocks(cfg, world, offset + 1 + k, sent'[k]).Continues? {
      assert sent'[k] == sent[k];
      if k < |sent| - 1 { assert AfterBlocks(cfg, world, offset + 1 + k, sent[k]).Continues?; }
    }
    forall k | 0 <= k < |sent'| - 1
      ensures TurnPrepared(codec, cfg, world, offset + 2 + k, AfterBlocks(cfg, world, offset + 1 + k, sent'[k]).state, sent'[k + 1])
    {
      assert sent'[k] == sent[k];
      if k < |sent| - 1 {
        assert TurnPrepared(codec, cfg, world, offset + 2 + k, AfterBlocks(cfg, world, offset + 1 + k, sent[k]).state, sent[k + 1]);
      }
    }
  }

  // ---------------------------------------------- every request is answered

  /** Each call answered in the next message, and answers never mixed with anything else. */
  ghost predicate Proper(ms: seq<TurnMessage>) {
    AnsweredTurns(ms) && PureAnswers(ms)
  }

  lemma {:induction false} LastMakesNoCall(ms: seq<TurnMessage>)
    requires AnsweredTurns(ms) && ms != []
    ensures !HasUse(ms[|ms| - 1])
    decreases |ms|
  {
    AnsweredParts(ms);
    HasUseMeansIds(ms[0]);
    if UseIds(ms[0]) == [] {
      if |ms| > 1 {
        LastMakesNoCall(ms[1..]);
        assert ms[1..][|ms| - 2] == ms[|ms| - 1];
      }
    } else if |ms| > 2 {
      LastMakesNoCall(ms[2..]);
      assert ms[2..][|ms| - 3] == ms[|ms| - 1];
    } else {
      AnswerMakesNoCall(ms[1], UseIds(ms[0]));
    }
  }

  lemma AnswerMakesNoCall(m: TurnMessage, ids: seq<string>)
    requires ids != [] && multiset(ResultIds(m)) == multiset(ids)
    ensures !HasUse(m)
  {
    assert |multiset(ids)| == |ids| && |multiset(ResultIds(m))| == |ResultIds(m)|;
  }

  lemma ProperAppend(a: seq<TurnMessage>, b: seq<TurnMessage>)
    requires Proper(a) && Proper(b)
    ensures Proper(a + b)
  {
    AnsweredAppend(a, b);
    if a != [] { LastMakesNoCall(a); }
    hide AnsweredTurns, HasUse, OnlyResults;
    var ms := a + b;
    forall i | 0 <= i < |ms| - 1 && HasUse(ms[i]) ensures OnlyResults(ms[i + 1]) {
      if i < |a| - 1 { assert ms[i] == a[i] && ms[i + 1] == a[i + 1]; }
      else if i >= |a| { assert ms[i] == b[i - |a|] && ms[i + 1] == b[i - |a| + 1]; }
    }
  }

  lemma {:induction false} UserTextsProper(ms: seq<TurnMessage>)
    requires forall m | m in ms :: m.FromUser? && m.content.Plain?
    ensures Proper(ms)
  {
    if ms != [] {
      assert ms[0] in ms;
      UserTextsProper(ms[1..]);
      OneProper(ms[0]);
      hide Proper;
      ProperAppend([ms[0]], ms[1..]);
      assert [ms[0]] + ms[1..] == ms;
    }
  }

  lemma OneProper(m: TurnMessage)
    requires ResultIds(m) == [] && UseIds(m) == []
    ensures Proper([m])
  {
    AnsweredAlone(m);
  }

  lemma {:induction false} ContentIds(world: World<ReplyBlocks>, turn: nat, reply: seq<ReplyBlock>, n: nat)
    requires n <= |reply|
    ensures UseIdsIn(ContentUpTo(world, turn, reply, n)) == PlannedIds(UsesUpTo(world, turn, reply, n))
  {
    if n > 0 {
      ContentIds(world, turn, reply, n - 1);
      var before, calls := ContentUpTo(world, turn, reply, n - 1), UsesUpTo(world, turn, reply, n - 1);
      hide PlannedUse, ContentUpTo, UsesUpTo, UseIdsIn;
      ContentUnfold(world, turn, reply, n);
      if reply[n - 1].Uses? {
        var call := PlannedUse(world, turn, n - 1, reply[n - 1]);
        UseIdsAppend(before, [ToolUse(call.id, call.name, call.input)]);
        OneUseId(call.id, call.name, call.input);
        assert PlannedIds(calls + [call]) == PlannedIds(calls) + [call.id];
      } else {
        UseIdsAppend(before, [TextBlock(reply[n - 1].text)]);
        NoUseId(reply[n - 1].text);
        assert PlannedIds(calls) + [] == PlannedIds(calls);
      }
    }
  }

  lemma NoUseId(text: string)
    ensures UseIdsIn([TextBlock(text)]) == []
  {
  }

  lemma ContentUnfold(world: World<ReplyBlocks>, turn: nat, reply: seq<ReplyBlock>, n: nat)
    requires 0 < n <= |reply|
    ensures reply[n - 1].Uses? ==>
      var call := PlannedUse(world, turn, n - 1, reply[n - 1]);
      && ContentUpTo(world, turn, reply, n) == ContentUpTo(world, turn, reply, n - 1) + [ToolUse(call.id, call.name, call.input)]
      && UsesUpTo(world, turn, reply, n) == UsesUpTo(world, turn, reply, n - 1) + [call]
    ensures reply[n - 1].Says? ==>
      && ContentUpTo(world, turn, reply, n) == ContentUpTo(world, turn, reply, n - 1) + [TextBlock(reply[n - 1].text)]
      && UsesUpTo(world, turn, reply, n) == UsesUpTo(world, turn, reply, n - 1)
  {
    hide PlannedUse;
  }

  lemma ExchangeProper(content: seq<AssistantBlock>, calls: seq<PlannedCall>, w: TurnWork)
    requires UseIdsIn(content) == PlannedIds(calls) && calls != [] && UseBalanced(calls, |calls|, w)
    ensures Proper([FromAssistant(content + w.autos), FromUser(Blocks(w.results))])
  {
    var ask, answer := FromAssistant(content + w.autos), FromUser(Blocks(w.results));
    UseIdsAppend(content, w.autos);
    assert calls[..|calls|] == calls;
    assert UseIds(ask) == UseIdsIn(content) + UseIdsIn(w.autos);
    assert |UseIds(ask)| > 0;
    hide UseIdsIn, ResultIdsIn;
    assert multiset(ResultIds(answer)) == multiset(UseIds(ask));
    AnsweredPair(ask, answer);
    assert |multiset(ResultIds(answer))| > 0;
    NoResultNoId(w.results);
    assert OnlyResults(answer);
    NotAUse(answer);
    hide HasUse, OnlyResults, AnsweredTurns;
  }

  lemma NoResultNoId(blocks: seq<UserBlock>)
    ensures blocks == [] ==> ResultIdsIn(blocks) == []
  {
  }

  lemma NotAUse(m: TurnMessage)
    requires m.FromUser?
    ensures !HasUse(m)
  {
  }

  lemma NudgeProper(content: seq<AssistantBlock>, nudge: string)
    requires UseIdsIn(content) == []
    ensures Proper([FromAssistant(content), FromUser(Plain(nudge))])
  {
    OneProper(FromAssistant(content));
    OneProper(FromUser(Plain(nudge)));
    hide Proper;
    ProperAppend([FromAssistant(content)], [FromUser(Plain(nudge))]);
    assert [FromAssistant(content)] + [FromUser(Plain(nudge))] == [FromAssistant(content), FromUser(Plain(nudge))];
  }

  /** Answering a reply keeps the conversation proper. */
  lemma BlocksKeepProper(cfg: Config, world: World<ReplyBlocks>, turn: nat, s: TurnState)
    requires Proper(s.messages) && AfterBlocks(cfg, world, turn, s).Continues?
    ensures Proper(AfterBlocks(cfg, world, turn, s).state.messages)
  {
    var reply := world.replies(turn).value;
    var content, calls := ContentUpTo(world, turn, reply, |reply|), UsesUpTo(world, turn, reply, |reply|);
    ContentIds(world, turn, reply, |reply|);
    hide Proper, ContentUpTo, UsesUpTo, HandledUses, NudgeFor, SpokenText;
    if calls == [] {
      var nudge := NudgeFor(cfg, world, turn, SpokenText(reply, |reply|), Counters(s)).value;
      NudgeProper(content, nudge);
      ProperAppend(s.messages, [FromAssistant(content), FromUser(Plain(nudge))]);
    } else {
      var start := TurnWork([], [], s.failures, s.edits, s.autoBuilds, false);
      var w := HandledUses(cfg, world, turn, |content|, calls, |calls|, start);
      UsesAreBalanced(cfg, world, turn, |content|, calls, |calls|, start);
      ExchangeProper(content, calls, w);
      ProperAppend(s.messages, [FromAssistant(content + w.autos), FromUser(Blocks(w.results))]);
    }
  }

  lemma PreparedProper(codec: Codec, cfg: Config, world: World<ReplyBlocks>, turn: nat, s: TurnState, s': TurnState)
    requires Proper(s.messages) && TurnPrepared(codec, cfg, world, turn, s, s')
    ensures Proper(s'.messages)
  {
    var steered := SteeredTurns(world.steers(turn));
    var messages := s.messages + steered;
    var dropped := TurnsDropped(codec, messages, cfg.compactMax, KEEP_RECENT);
    hide TurnsCompacted, TurnsDropped, AnsweredTurns, PureAnswers;
    UserTextsProper(steered);
    ProperAppend(s.messages, steered);
    CompactionKeepsAnswered(codec, messages, cfg.compactMax, KEEP_RECENT, s'.messages, dropped);
    CompactionKeepsPure(codec, messages, cfg.compactMax, KEEP_RECENT, s'.messages, dropped);
  }

  /**
    At every model call of every run each call is answered in the very next
    message and answers stay unmixed, provided the rebuilt history the run
    started from was so.
   */
  lemma {:induction false} EveryRequestProper(
    codec: Codec, cfg: Config, world: World<ReplyBlocks>, offset: nat, start: TurnState, sent: seq<TurnState>, k: nat)
    requires Requests(codec, cfg, world, offset, start, sent) && Proper(start.messages) && k < |sent|
    ensures Proper(sent[k].messages)
  {
    hide Proper, AfterBlocks, TurnPrepared;
    if k == 0 {
      PreparedProper(codec, cfg, world, offset + 1, start, sent[0]);
    } else {
      EveryRequestProper(codec, cfg, world, offset, start, sent, k - 1);
      var before := AfterBlocks(cfg, world, offset + k, sent[k - 1]);
      assert TurnPrepared(codec, cfg, world, offset + 2 + (k - 1), before.state, sent[(k - 1) + 1]);
      BlocksKeepProper(cfg, world, offset + k, sent[k - 1]);
      PreparedProper(codec, cfg, world, offset + k + 1, before.state, sent[k]);
    }
  }
}
