/**
  The turn loop that talks to an OpenAI-compatible model.  Model replies, tool
  results, steers and interruptions are arbitrary inputs; what the loop keeps is
  the shape of the message list it sends and the number of calls it makes.
 */
module AgentLoop {
  import opened JsonValue
  import opened Tables
  import opened ContextEvents
  import opened ProviderMessages
  import opened Compaction

  // ------------------------------------------------------------------ inputs

  datatype RawCall = RawCall(providerId: Option<string>, name: string, arguments: string)

  datatype Reply = Reply(content: Option<string>, calls: seq<RawCall>)

  /** A tool that ran, or an interruption that leaves the loop. */
  datatype ToolOutcome = Ran(ok: bool, output: string) | Raised

  datatype Config = Config(
    maxTurns: int, maxAutoContinuations: int, maxGradleRetries: int, compactMax: int,
    autoBuild: bool)

  /**
    Everything the loop learns from outside, by response index and position of
    the call: what the model answers, None when the call raises; whether the
    answer reaches the log; steers, interruptions, tools and builds.
   */
  datatype World<R> = World(
    replies: nat -> Option<R>,
    recorded: nat -> bool,
    steers: nat -> seq<string>,
    haltsBefore: nat -> bool,
    haltsCalls: nat -> bool,
    tool: (nat, nat) -> ToolOutcome,
    build: (nat, nat) -> ToolOutcome,
    idDigits: (nat, nat, string) -> string,
    parseError: string -> string,
    asksDownload: string -> bool,
    awaitsUser: string -> bool,
    claimsEdit: string -> bool,
    expectsEdit: bool,
    downloadNudge: string,
    editNudge: nat -> string)

  const MAX_NUDGES := 2
  const KEEP_RECENT := 8
  const MALFORMED_TEXT := "工具参数不是合法 JSON 对象，调用已拒绝且未执行: "
  const NO_OBJECT_TEXT := "tool arguments must decode to a JSON object"
  const BUILD_ARGUMENTS := "{\"task\":\"assembleDebug\",\"auto\":true}"

  function AtLeast(a: int, b: int): int {
    if a < b then b else a
  }

  /** `_total_turns`. */
  function TotalTurns(cfg: Config): (r: nat)
    ensures r >= 1
  {
    var batches := AtLeast(1, 1 + cfg.maxAutoContinuations);
    var turns := AtLeast(1, cfg.maxTurns);
    assert turns * batches >= 1;
    turns * batches
  }

  // ---------------------------------------------------------- planned calls

  datatype PlannedCall = PlannedCall(id: string, name: string, input: Json, error: Option<string>)

  /** `_tool_call_id`: the provider's id unless it is blank. */
  function CallId<R>(world: World<R>, turn: nat, blockIndex: nat, name: string, providerId: Option<string>): string {
    if providerId.Some? && Strip(providerId.value) != "" then providerId.value
    else "call_" + world.idDigits(turn, blockIndex, name)
  }

  /** `parse_tool_arguments`. */
  function ParsedArguments(codec: Codec, world: World<Reply>, arguments: string): (Json, Option<string>) {
    var raw := if arguments == "" then "{}" else arguments;
    match codec.loads(raw)
    case Some(Obj(fields)) => (Obj(fields), None)
    case Some(_) => (Obj(map[]), Some(NO_OBJECT_TEXT))
    case None => (Obj(map[]), Some(world.parseError(raw)))
  }

  function Planned(codec: Codec, world: World<Reply>, turn: nat, blockIndex: nat, raw: RawCall): PlannedCall {
    var (input, error) := ParsedArguments(codec, world, raw.arguments);
    PlannedCall(CallId(world, turn, blockIndex, raw.name, raw.providerId), raw.name, input, error)
  }

  function PlannedCalls(codec: Codec, world: World<Reply>, turn: nat, reply: Reply): seq<PlannedCall> {
    seq(|reply.calls|, k requires 0 <= k < |reply.calls| => Planned(codec, world, turn, k + 1, reply.calls[k]))
  }

  function AsFunctionCalls(codec: Codec, calls: seq<PlannedCall>): seq<FunctionCall> {
    seq(|calls|, k requires 0 <= k < |calls| => FunctionCall(calls[k].id, calls[k].name, codec.dumps(calls[k].input)))
  }

  // ----------------------------------------------------------- one exchange

  /** What answering the calls of one reply has produced so far. */
  datatype Work = Work(
    answers: seq<ChatMessage>, autos: seq<FunctionCall>, failures: nat, edits: nat, autoBuilds: nat, stopped: bool)

  predicate IsBuild(call: PlannedCall) {
    call.name == "run_gradle" && (Get(call.input, "task").None? || Get(call.input, "task") == Some(Str("assembleDebug")))
  }

  predicate IsEdit(name: string) {
    name == "write_file" || name == "str_replace"
  }

  function RetryLimit(cfg: Config): nat {
    AtLeast(0, cfg.maxGradleRetries)
  }

  function RefusalText(cfg: Config): string {
    "已达到 assembleDebug 失败重试上限 (" + Decimal(RetryLimit(cfg)) + ")，请停止继续构建，总结当前错误并结束本任务。"
  }

  function Answered(w: Work, id: string, text: string): Work {
    w.(answers := w.answers + [ToolMsg(id, text)])
  }

  /** The build that follows a successful edit: a call of its own, answered at once. */
  function AutoBuilt(world: World<Reply>, turn: nat, count: nat, k: nat, w: Work): Work {
    var id := CallId(world, turn, count + w.autoBuilds + 1, "run_gradle", None);
    var called := w.(autoBuilds := w.autoBuilds + 1, autos := w.autos + [FunctionCall(id, "run_gradle", BUILD_ARGUMENTS)]);
    match world.build(turn, k)
    case Raised => called.(stopped := true)
    case Ran(ok, output) => Answered(called, id, output).(failures := if ok then called.failures else called.failures + 1)
  }

  /** The `k`-th of `count` calls: refused as malformed, refused by the retry limit, or run. */
  function HandleCall(cfg: Config, world: World<Reply>, turn: nat, count: nat, k: nat, call: PlannedCall, w: Work): Work {
    if call.error.Some? then Answered(w, call.id, MALFORMED_TEXT + call.error.value)
    else if IsBuild(call) && w.failures >= RetryLimit(cfg) then Answered(w, call.id, RefusalText(cfg))
    else
      match world.tool(turn, k)
      case Raised => w.(stopped := true)
      case Ran(ok, output) =>
        var ran := RanCall(call, ok, output, w);
        if cfg.autoBuild && IsEdit(call.name) && ok then AutoBuilt(world, turn, count, k, ran) else ran
  }

  /** A call that ran: answered, and counted as an edit or as a failed build. */
  function RanCall(call: PlannedCall, ok: bool, output: string, w: Work): Work {
    Answered(w, call.id, output).(
      edits := if IsEdit(call.name) && ok then w.edits + 1 else w.edits,
      failures := if IsBuild(call) && !ok then w.failures + 1 else w.failures)
  }

  /** The first `n` calls, until one is interrupted. */
  function Handled(cfg: Config, world: World<Reply>, turn: nat, calls: seq<PlannedCall>, n: nat, start: Work): Work
    requires n <= |calls|
  {
    if n == 0 then start
    else
      var before := Handled(cfg, world, turn, calls, n - 1, start);
      if before.stopped then before else HandleCall(cfg, world, turn, |calls|, n - 1, calls[n - 1], before)
  }

  /** Every call handled so far, and every automatic one, has exactly one answer. */
  ghost predicate Balanced(codec: Codec, calls: seq<PlannedCall>, n: nat, w: Work)
    requires n <= |calls|
  {
    && AllTools(w.answers)
    && multiset(AnsweredIds(w.answers)) == multiset(CallIds(AsFunctionCalls(codec, calls[..n]))) + multiset(CallIds(w.autos))
    && NamedCalls(w.autos)
  }

  lemma AnsweredOneMore(answers: seq<ChatMessage>, id: string, text: string)
    requires AllTools(answers)
    ensures AllTools(answers + [ToolMsg(id, text)])
    ensures multiset(AnsweredIds(answers + [ToolMsg(id, text)])) == multiset(AnsweredIds(answers)) + multiset{id}
  {
    assert AnsweredIds(answers + [ToolMsg(id, text)]) == AnsweredIds(answers) + [id];
  }

  lemma CalledOneMore(calls: seq<FunctionCall>, call: FunctionCall)
    ensures multiset(CallIds(calls + [call])) == multiset(CallIds(calls)) + multiset{call.id}
    ensures NamedCalls(calls) && call.id != "" ==> NamedCalls(calls + [call])
  {
    assert CallIds(calls + [call]) == CallIds(calls) + [call.id];
  }

  lemma PlannedOneMore(codec: Codec, calls: seq<PlannedCall>, n: nat)
    requires n < |calls|
    ensures multiset(CallIds(AsFunctionCalls(codec, calls[..n + 1])))
         == multiset(CallIds(AsFunctionCalls(codec, calls[..n]))) + multiset{calls[n].id}
  {
    var before := AsFunctionCalls(codec, calls[..n]);
    assert AsFunctionCalls(codec, calls[..n + 1]) == before + [FunctionCall(calls[n].id, calls[n].name, codec.dumps(calls[n].input))];
    CalledOneMore(before, FunctionCall(calls[n].id, calls[n].name, codec.dumps(calls[n].input)));
  }

  lemma BuildKeepsBalance(codec: Codec, world: World<Reply>, turn: nat, calls: seq<PlannedCall>, n: nat, k: nat, w: Work)
    requires n <= |calls| && Balanced(codec, calls, n, w) && !AutoBuilt(world, turn, |calls|, k, w).stopped
    ensures Balanced(codec, calls, n, AutoBuilt(world, turn, |calls|, k, w))
  {
    var id := CallId(world, turn, |calls| + w.autoBuilds + 1, "run_gradle", None);
    var outcome := world.build(turn, k);
    hide Balanced, CallId;
    if outcome.Ran? {
      GeneratedIdNamed(world, turn, |calls| + w.autoBuilds + 1);
      AutoKeepsBalance(codec, calls, n, w, AutoBuilt(world, turn, |calls|, k, w), id, outcome.output);
    }
  }

  lemma AutoKeepsBalance(codec: Codec, calls: seq<PlannedCall>, n: nat, w: Work, w': Work, id: string, output: string)
    requires n <= |calls| && Balanced(codec, calls, n, w) && id != ""
    requires w'.answers == w.answers + [ToolMsg(id, output)]
    requires w'.autos == w.autos + [FunctionCall(id, "run_gradle", BUILD_ARGUMENTS)]
    ensures Balanced(codec, calls, n, w')
  {
    AnsweredOneMore(w.answers, id, output);
    CalledOneMore(w.autos, FunctionCall(id, "run_gradle", BUILD_ARGUMENTS));
    hide AllTools, AnsweredIds, CallIds, NamedCalls, AsFunctionCalls;
  }

  lemma GeneratedIdNamed(world: World<Reply>, turn: nat, blockIndex: nat)
    ensures CallId(world, turn, blockIndex, "run_gradle", None) != ""
  {
  }

  lemma CallKeepsBalance(codec: Codec, cfg: Config, world: World<Reply>, turn: nat, calls: seq<PlannedCall>, n: nat, w: Work)
    requires n < |calls| && !w.stopped && Balanced(codec, calls, n, w)
    requires !HandleCall(cfg, world, turn, |calls|, n, calls[n], w).stopped
    ensures Balanced(codec, calls, n + 1, HandleCall(cfg, world, turn, |calls|, n, calls[n], w))
  {
    var call, outcome := calls[n], world.tool(turn, n);
    hide Balanced, RefusalText, IsBuild, IsEdit, AutoBuilt, RetryLimit, Answered, RanCall;
    if call.error.Some? {
      AnswerKeepsBalance(codec, calls, n, w, MALFORMED_TEXT + call.error.value);
    } else if IsBuild(call) && w.failures >= RetryLimit(cfg) {
      AnswerKeepsBalance(codec, calls, n, w, RefusalText(cfg));
    } else if outcome.Ran? {
      RanKeepsBalance(codec, calls, n, w, outcome.ok, outcome.output);
      if cfg.autoBuild && IsEdit(call.name) && outcome.ok {
        BuildKeepsBalance(codec, world, turn, calls, n + 1, n, RanCall(call, outcome.ok, outcome.output, w));
      }
    }
  }

  lemma AnswerKeepsBalance(codec: Codec, calls: seq<PlannedCall>, n: nat, w: Work, text: string)
    requires n < |calls| && Balanced(codec, calls, n, w)
    ensures Balanced(codec, calls, n + 1, Answered(w, calls[n].id, text))
  {
    PlannedOneMore(codec, calls, n);
    AnsweredOneMore(w.answers, calls[n].id, text);
    hide AllTools, AnsweredIds, CallIds, NamedCalls, AsFunctionCalls;
  }

  lemma RanKeepsBalance(codec: Codec, calls: seq<PlannedCall>, n: nat, w: Work, ok: bool, output: string)
    requires n < |calls| && Balanced(codec, calls, n, w)
    ensures Balanced(codec, calls, n + 1, RanCall(calls[n], ok, output, w))
  {
    AnswerKeepsBalance(codec, calls, n, w, output);
    hide AllTools, AnsweredIds, CallIds, NamedCalls, AsFunctionCalls;
  }

  /** When nothing interrupts, the answers are exactly the answers to the calls of the reply and to the automatic builds. */
  lemma {:induction false} WorkIsBalanced(codec: Codec, cfg: Config, world: World<Reply>, turn: nat, calls: seq<PlannedCall>, n: nat, start: Work)
    requires n <= |calls| && start.answers == [] && start.autos == [] && !start.stopped
    requires !Handled(cfg, world, turn, calls, n, start).stopped
    ensures Balanced(codec, calls, n, Handled(cfg, world, turn, calls, n, start))
  {
    if n == 0 {
      assert calls[..0] == [];
    } else {
      hide Balanced, HandleCall;
      WorkIsBalanced(codec, cfg, world, turn, calls, n - 1, start);
      CallKeepsBalance(codec, cfg, world, turn, calls, n - 1, Handled(cfg, world, turn, calls, n - 1, start));
    }
  }

  /** The loop over the calls of one reply. */
  method HandleCalls(cfg: Config, world: World<Reply>, turn: nat, calls: seq<PlannedCall>, start: Work) returns (w: Work)
    requires !start.stopped
    ensures w == Handled(cfg, world, turn, calls, |calls|, start)
  {
    w := start;
    for k := 0 to |calls|
      invariant !w.stopped && w == Handled(cfg, world, turn, calls, k, start)
    {
      var call := calls[k];
      ghost var before := w;
      var stopped;
      w, stopped := AnswerCall(cfg, world, turn, |calls|, k, call, w);
      if stopped {
        StoppedStays(cfg, world, turn, calls, k + 1, |calls|, start);
        return;
      }
    }
  }

  lemma {:induction false} StoppedStays(cfg: Config, world: World<Reply>, turn: nat, calls: seq<PlannedCall>, n: nat, m: nat, start: Work)
    requires n <= m <= |calls| && Handled(cfg, world, turn, calls, n, start).stopped
    ensures Handled(cfg, world, turn, calls, m, start) == Handled(cfg, world, turn, calls, n, start)
    decreases m
  {
    if n < m { StoppedStays(cfg, world, turn, calls, n, m - 1, start); }
  }

  /** The body of that loop. */
  method AnswerCall(cfg: Config, world: World<Reply>, turn: nat, count: nat, k: nat, call: PlannedCall, start: Work)
    returns (w: Work, stopped: bool)
    requires !start.stopped
    ensures w == HandleCall(cfg, world, turn, count, k, call, start)
    ensures stopped == w.stopped
  {
    w, stopped := start, false;
    if call.error.Some? {
      w := w.(answers := w.answers + [ToolMsg(call.id, MALFORMED_TEXT + call.error.value)]);
      return;
    }
    if IsBuild(call) && w.failures >= RetryLimit(cfg) {
      w := w.(answers := w.answers + [ToolMsg(call.id, RefusalText(cfg))]);
      return;
    }
    var result := world.tool(turn, k);
    if result.Raised? { return w.(stopped := true), true; }
    if IsEdit(call.name) && result.ok { w := w.(edits := w.edits + 1); }
    if IsBuild(call) && !result.ok { w := w.(failures := w.failures + 1); }
    w := w.(answers := w.answers + [ToolMsg(call.id, result.output)]);
    if cfg.autoBuild && IsEdit(call.name) && result.ok {
      w := w.(autoBuilds := w.autoBuilds + 1);
      var autoId := CallId(world, turn, count + w.autoBuilds, "run_gradle", None);
      w := w.(autos := w.autos + [FunctionCall(autoId, "run_gradle", BUILD_ARGUMENTS)]);
      var built := world.build(turn, k);
      if built.Raised? { return w.(stopped := true), true; }
      if !built.ok { w := w.(failures := w.failures + 1); }
      w := w.(answers := w.answers + [ToolMsg(autoId, built.output)]);
    }
  }

  // ---------------------------------------------------------------- one turn

  datatype LoopState = LoopState(messages: seq<ChatMessage>, failures: nat, edits: nat, nudges: nat, autoBuilds: nat)

  datatype Next = Goes(state: LoopState) | Ends | Stops

  /** What the reply is called for: a nudge about downloads, one about missing edits, or none. */
  function NudgeFor<R>(cfg: Config, world: World<R>, turn: nat, text: string, s: LoopState): Option<string> {
    if s.nudges >= MAX_NUDGES || turn >= TotalTurns(cfg) then None
    else if world.asksDownload(text) then Some(world.downloadNudge)
    else if s.edits == 0 && !world.awaitsUser(text) && (world.expectsEdit || world.claimsEdit(text)) then Some(world.editNudge(s.edits))
    else None
  }

  function ContentOf(reply: Reply): string {
    if reply.content.Some? then reply.content.value else ""
  }

  function Exchanged(s: LoopState, reply: Reply, calls: seq<FunctionCall>, w: Work): LoopState {
    LoopState(s.messages + ([AssistantMsg(reply.content, calls + w.autos)] + w.answers), w.failures, w.edits, s.nudges, w.autoBuilds)
  }

  function StartWork(s: LoopState): Work {
    Work([], [], s.failures, s.edits, s.autoBuilds, false)
  }

  /** What the loop makes of the reply with index `turn` to the messages of `s`. */
  function AfterReply(codec: Codec, cfg: Config, world: World<Reply>, turn: nat, s: LoopState): Next {
    match world.replies(turn)
    case None => Stops
    case Some(reply) =>
      if !world.recorded(turn) then Stops
      else if reply.calls == [] then
        match NudgeFor(cfg, world, turn, Strip(ContentOf(reply)), s)
        case None => Ends
        case Some(nudge) =>
          Goes(s.(messages := s.messages + [AssistantMsg(Some(ContentOf(reply)), []), UserMsg(nudge)], nudges := s.nudges + 1))
      else if world.haltsCalls(turn) then Stops
      else
        var calls := PlannedCalls(codec, world, turn, reply);
        var w := Handled(cfg, world, turn, calls, |calls|, StartWork(s));
        if w.stopped then Stops else Goes(Exchanged(s, reply, AsFunctionCalls(codec, calls), w))
  }

  function Steered(steers: seq<string>): seq<ChatMessage> {
    seq(|steers|, k requires 0 <= k < |steers| => UserMsg(steers[k]))
  }

  /** Before call `turn` the steers join and the list is compacted. */
  ghost predicate Prepared(codec: Codec, cfg: Config, world: World<Reply>, turn: nat, s: LoopState, s': LoopState) {
    var messages := s.messages + Steered(world.steers(turn));
    && ChatCompacted(codec, messages, cfg.compactMax, KEEP_RECENT, s'.messages, ChatDropped(codec, messages, cfg.compactMax, KEEP_RECENT))
    && s' == s.(messages := s'.messages)
  }

  /**
    `sent` lists the states in which a run called the model: with replies
    `offset + 1`, `offset + 2` and so on, up to the turn limit and as long as
    each reply made the loop go on.
   */
  ghost predicate Calls(
    codec: Codec, cfg: Config, world: World<Reply>, offset: nat, start: LoopState, sent: seq<LoopState>)
  {
    && (forall k | 0 <= k < |sent| - 1 :: AfterReply(codec, cfg, world, offset + 1 + k, sent[k]).Goes?)
    && (|sent| > 0 ==> offset + |sent| <= TotalTurns(cfg) && Prepared(codec, cfg, world, offset + 1, start, sent[0]))
    && (forall k | 0 <= k < |sent| - 1 ::
          Prepared(codec, cfg, world, offset + 2 + k, AfterReply(codec, cfg, world, offset + 1 + k, sent[k]).state, sent[k + 1]))
  }

  datatype Outcome = Final | OutOfTurns | CutShort

  /** `_run_openai_compatible`, from the resumed offset to its end. */
  method RunOpenAi(codec: Codec, cfg: Config, world: World<Reply>, offset: nat, start: LoopState)
    returns (sent: seq<LoopState>, outcome: Outcome)
    ensures Calls(codec, cfg, world, offset, start, sent)
    ensures outcome.Final? ==> sent != [] && AfterReply(codec, cfg, world, offset + |sent|, sent[|sent| - 1]).Ends?
    ensures outcome.OutOfTurns? ==>
      |sent| == (if offset < TotalTurns(cfg) then TotalTurns(cfg) - offset else 0)
      && (sent != [] ==> AfterReply(codec, cfg, world, offset + |sent|, sent[|sent| - 1]).Goes?)
  {
    sent := [];
    NoCallYet(codec, cfg, world, offset, start);
    hide *;
    var state := start;
    var total := TotalTurns(cfg);
    var turn := offset + 1;
    while turn <= total
      invariant |sent| == turn - offset - 1 && (turn <= total + 1 || sent == [])
      invariant Calls(codec, cfg, world, offset, start, sent)
      invariant sent == [] ==> state == start
      invariant sent != [] ==>
        AfterReply(codec, cfg, world, offset + |sent|, sent[|sent| - 1]) == Goes(state)
      decreases total - turn
    {
      if world.haltsBefore(turn) { return sent, CutShort; }
      var messages := AppendSteers(state.messages, world.steers(turn));
      var result, _ := CompactOpenAiMessages(codec, messages, cfg.compactMax, KEEP_RECENT);
      ghost var before := state;
      state := state.(messages := result);
      PreparedMeans(codec, cfg, world, turn, before, state, messages);
      OneMoreCall(codec, cfg, world, offset, start, sent, before, state);
      sent := sent + [state];
      var next := AnswerReply(codec, cfg, world, turn, state);
      if next.Stops? { return sent, CutShort; }
      if next.Ends? { return sent, Final; }
      state := next.state;
      turn := turn + 1;
    }
    outcome := OutOfTurns;
  }

  lemma NoCallYet(codec: Codec, cfg: Config, world: World<Reply>, offset: nat, start: LoopState)
    ensures Calls(codec, cfg, world, offset, start, [])
  {
  }

  lemma PreparedMeans(
    codec: Codec, cfg: Config, world: World<Reply>, turn: nat, before: LoopState, state: LoopState, messages: seq<ChatMessage>)
    requires messages == before.messages + Steered(world.steers(turn))
    requires ChatCompacted(codec, messages, cfg.compactMax, KEEP_RECENT, state.messages,
                           ChatDropped(codec, messages, cfg.compactMax, KEEP_RECENT))
    requires state == before.(messages := state.messages)
    ensures Prepared(codec, cfg, world, turn, before, state)
  {
    hide ChatCompacted, ChatDropped;
  }

  lemma OneMoreCall(
    codec: Codec, cfg: Config, world: World<Reply>, offset: nat, start: LoopState, sent: seq<LoopState>,
    before: LoopState, state: LoopState)
    requires Calls(codec, cfg, world, offset, start, sent)
    requires offset + |sent| < TotalTurns(cfg) && (before == start || sent != [])
    requires sent != [] ==> AfterReply(codec, cfg, world, offset + |sent|, sent[|sent| - 1]) == Goes(before)
    requires Prepared(codec, cfg, world, offset + |sent| + 1, before, state)
    ensures Calls(codec, cfg, world, offset, start, sent + [state])
  {
    hide AfterReply, Prepared;
    var sent' := sent + [state];
    forall k | 0 <= k < |sent'| - 1 ensures AfterReply(codec, cfg, world, offset + 1 + k, sent'[k]).Goes? {
      assert sent'[k] == sent[k];
      if k < |sent| - 1 { assert AfterReply(codec, cfg, world, offset + 1 + k, sent[k]).Goes?; }
    }
    forall k | 0 <= k < |sent'| - 1
      ensures Prepared(codec, cfg, world, offset + 2 + k, AfterReply(codec, cfg, world, offset + 1 + k, sent'[k]).state, sent'[k + 1])
    {
      assert sent'[k] == sent[k];
      if k < |sent| - 1 {
        assert Prepared(codec, cfg, world, offset + 2 + k, AfterReply(codec, cfg, world, offset + 1 + k, sent[k]).state, sent[k + 1]);
      }
    }
  }

  method AppendSteers(messages: seq<ChatMessage>, steers: seq<string>) returns (messages': seq<ChatMessage>)
    ensures messages' == messages + Steered(steers)
  {
    messages' := messages;
    for k := 0 to |steers|
      invariant messages' == messages + Steered(steers[..k])
    {
      messages' := messages' + [UserMsg(steers[k])];
      assert Steered(steers[..k + 1]) == Steered(steers[..k]) + [UserMsg(steers[k])];
    }
    assert steers[..|steers|] == steers;
  }

  /** The part of a turn that follows the model's reply. */
  method AnswerReply(codec: Codec, cfg: Config, world: World<Reply>, turn: nat, s: LoopState) returns (next: Next)
    ensures next == AfterReply(codec, cfg, world, turn, s)
  {
    var answer := world.replies(turn);
    if answer.None? || !world.recorded(turn) { return Stops; }
    var reply := answer.value;
    var text := Strip(ContentOf(reply));
    if reply.calls == [] {
      var bare := AssistantMsg(Some(ContentOf(reply)), []);
      if world.asksDownload(text) && s.nudges < MAX_NUDGES && turn < TotalTurns(cfg) {
        return Goes(s.(messages := s.messages + [bare, UserMsg(world.downloadNudge)], nudges := s.nudges + 1));
      }
      var needsRealEdit := s.edits == 0 && !world.awaitsUser(text) && (world.expectsEdit || world.claimsEdit(text));
      if needsRealEdit && s.nudges < MAX_NUDGES && turn < TotalTurns(cfg) {
        return Goes(s.(messages := s.messages + [bare, UserMsg(world.editNudge(s.edits))], nudges := s.nudges + 1));
      }
      return Ends;
    }
    if world.haltsCalls(turn) { return Stops; }
    var calls := PlannedCalls(codec, world, turn, reply);
    var w := HandleCalls(cfg, world, turn, calls, StartWork(s));
    if w.stopped { return Stops; }
    return Goes(Exchanged(s, reply, AsFunctionCalls(codec, calls), w));
  }

  // ------------------------------------------------- every request is formed

  lemma PlannedNamed(codec: Codec, world: World<Reply>, turn: nat, reply: Reply)
    ensures NamedCalls(AsFunctionCalls(codec, PlannedCalls(codec, world, turn, reply)))
  {
    forall k | 0 <= k < |reply.calls|
      ensures CallId(world, turn, k + 1, reply.calls[k].name, reply.calls[k].providerId) != ""
    {
      IdIsNamed(world, turn, k + 1, reply.calls[k].name, reply.calls[k].providerId);
    }
    hide CallId, ParsedArguments;
  }

  lemma IdIsNamed(world: World<Reply>, turn: nat, blockIndex: nat, name: string, providerId: Option<string>)
    ensures CallId(world, turn, blockIndex, name, providerId) != ""
  {
    BlankStrips();
  }

  lemma BlankStrips()
    ensures Strip("") == ""
  {
  }

  lemma ExchangeFormed(codec: Codec, calls: seq<PlannedCall>, content: Option<string>, w: Work)
    requires Balanced(codec, calls, |calls|, w) && NamedCalls(AsFunctionCalls(codec, calls))
    ensures WellFormed([AssistantMsg(content, AsFunctionCalls(codec, calls) + w.autos)] + w.answers)
  {
    var named := AsFunctionCalls(codec, calls);
    var message := AssistantMsg(content, named + w.autos);
    assert calls[..|calls|] == calls;
    assert CallIds(named + w.autos) == CallIds(named) + CallIds(w.autos);
    assert NamedCalls(named + w.autos);
    hide AsFunctionCalls, CallIds, AnsweredIds, NamedCalls, AllTools;
    FormedExchange(message, w.answers);
  }

  /** Answering a reply keeps the message list well-formed. */
  lemma ReplyKeepsFormed(codec: Codec, cfg: Config, world: World<Reply>, turn: nat, s: LoopState)
    requires WellFormed(s.messages) && AfterReply(codec, cfg, world, turn, s).Goes?
    ensures WellFormed(AfterReply(codec, cfg, world, turn, s).state.messages)
  {
    var reply := world.replies(turn).value;
    if reply.calls == [] {
      var bare, nudge := AssistantMsg(Some(ContentOf(reply)), []), NudgeFor(cfg, world, turn, Strip(ContentOf(reply)), s).value;
      hide WellFormed, NudgeFor, Strip, ContentOf;
      FormedPlain(bare);
      FormedPlain(UserMsg(nudge));
      FormedAppend([bare], [UserMsg(nudge)]);
      assert [bare] + [UserMsg(nudge)] == [bare, UserMsg(nudge)];
      FormedAppend(s.messages, [bare, UserMsg(nudge)]);
    } else {
      var calls := PlannedCalls(codec, world, turn, reply);
      var w := Handled(cfg, world, turn, calls, |calls|, StartWork(s));
      hide WellFormed, PlannedCalls, Handled, AsFunctionCalls;
      PlannedNamed(codec, world, turn, reply);
      WorkIsBalanced(codec, cfg, world, turn, calls, |calls|, StartWork(s));
      ExchangeFormed(codec, calls, reply.content, w);
      FormedAppend(s.messages, [AssistantMsg(reply.content, AsFunctionCalls(codec, calls) + w.autos)] + w.answers);
    }
  }

  lemma {:induction false} PlainFormed(ms: seq<ChatMessage>)
    requires forall m | m in ms :: m.UserMsg?
    ensures WellFormed(ms)
  {
    if ms != [] {
      assert ms[0] in ms;
      PlainFormed(ms[1..]);
      hide WellFormed;
      FormedPlain(ms[0]);
      FormedAppend([ms[0]], ms[1..]);
      assert [ms[0]] + ms[1..] == ms;
    }
  }

  lemma PreparedFormed(codec: Codec, cfg: Config, world: World<Reply>, turn: nat, s: LoopState, s': LoopState)
    requires WellFormed(s.messages) && Prepared(codec, cfg, world, turn, s, s')
    ensures WellFormed(s'.messages)
  {
    var steered := Steered(world.steers(turn));
    hide WellFormed, ChatCompacted, ChatDropped;
    PlainFormed(steered);
    FormedAppend(s.messages, steered);
    CompactionKeepsFormed(codec, s.messages + steered, cfg.compactMax, KEEP_RECENT, s'.messages,
                          ChatDropped(codec, s.messages + steered, cfg.compactMax, KEEP_RECENT));
  }

  /**
    At every model call of every run the message list is well-formed: each
    assistant message with calls is followed by exactly their answers.
   */
  lemma {:induction false} EveryRequestFormed(
    codec: Codec, cfg: Config, world: World<Reply>, offset: nat, start: LoopState, sent: seq<LoopState>, k: nat)
    requires Calls(codec, cfg, world, offset, start, sent) && WellFormed(start.messages) && k < |sent|
    ensures WellFormed(sent[k].messages)
  {
    hide WellFormed, AfterReply, Prepared;
    if k == 0 {
      PreparedFormed(codec, cfg, world, offset + 1, start, sent[0]);
    } else {
      EveryRequestFormed(codec, cfg, world, offset, start, sent, k - 1);
      var before := AfterReply(codec, cfg, world, offset + k, sent[k - 1]);
      assert Prepared(codec, cfg, world, offset + 2 + (k - 1), before.state, sent[(k - 1) + 1]);
      ReplyKeepsFormed(codec, cfg, world, offset + k, sent[k - 1]);
      PreparedFormed(codec, cfg, world, offset + k + 1, before.state, sent[k]);
    }
  }

  // -------------------------------------------------------- the marker, again

  /** Nobody says the marker text: no steer and no nudge. */
  ghost predicate MarkerUnsaid(world: World<Reply>) {
    && (forall turn: nat :: MARKER !in Steered(world.steers(turn)))
    && UserMsg(world.downloadNudge) != MARKER
    && (forall edits: nat :: UserMsg(world.editNudge(edits)) != MARKER)
  }

  lemma ReplyAddsNoMarker(codec: Codec, cfg: Config, world: World<Reply>, turn: nat, s: LoopState) returns (more: seq<ChatMessage>)
    requires MarkerUnsaid(world) && AfterReply(codec, cfg, world, turn, s).Goes?
    ensures AfterReply(codec, cfg, world, turn, s).state.messages == s.messages + more
    ensures MARKER !in more
  {
    var reply := world.replies(turn).value;
    if reply.calls == [] {
      var nudge := NudgeFor(cfg, world, turn, Strip(ContentOf(reply)), s).value;
      more := [AssistantMsg(Some(ContentOf(reply)), []), UserMsg(nudge)];
    } else {
      var calls := PlannedCalls(codec, world, turn, reply);
      var w := Handled(cfg, world, turn, calls, |calls|, StartWork(s));
      WorkIsBalanced(codec, cfg, world, turn, calls, |calls|, StartWork(s));
      hide PlannedCalls, Handled, AsFunctionCalls, MarkerUnsaid, AnsweredIds, CallIds, NamedCalls;
      more := [AssistantMsg(reply.content, AsFunctionCalls(codec, calls) + w.autos)] + w.answers;
    }
  }

  lemma PreparedKeepsMarker(codec: Codec, cfg: Config, world: World<Reply>, turn: nat, s: LoopState, s': LoopState)
    requires MarkerUnsaid(world) && s.messages != [] && s.messages[0].SystemMsg? && MarkerFirst(s.messages)
    requires Prepared(codec, cfg, world, turn, s, s')
    ensures s'.messages != [] && s'.messages[0] == s.messages[0] && MarkerFirst(s'.messages)
  {
    var steered := Steered(world.steers(turn));
    hide MarkerFirst, ChatCompacted, ChatDropped, Steered;
    var messages := s.messages + steered;
    var dropped := ChatDropped(codec, messages, cfg.compactMax, KEEP_RECENT);
    MarkerStaysFirst(codec, s.messages, steered);
    CompactionKeepsMarkerFirst(codec, messages, cfg.compactMax, KEEP_RECENT, s'.messages, dropped);
    CompactionKeepsRecent(codec, messages, cfg.compactMax, KEEP_RECENT, s'.messages, dropped);
    HeadIsFirst(messages);
  }

  lemma HeadIsFirst(ms: seq<ChatMessage>)
    requires ms != [] && ms[0].SystemMsg?
    ensures ChatHead(ms) == [ms[0]]
  {
  }

  /** However often the run compacts, no request holds two markers, and each still begins with the system prompt. */
  lemma {:induction false} OneMarkerPerRequest(
    codec: Codec, cfg: Config, world: World<Reply>, offset: nat, start: LoopState, sent: seq<LoopState>, k: nat)
    requires Calls(codec, cfg, world, offset, start, sent) && k < |sent|
    requires start.messages != [] && start.messages[0].SystemMsg? && MarkerFirst(start.messages) && MarkerUnsaid(world)
    ensures sent[k].messages != [] && sent[k].messages[0] == start.messages[0]
    ensures MarkerFirst(sent[k].messages)
    ensures multiset(sent[k].messages)[MARKER] <= 1
  {
    hide MarkerFirst, MarkerUnsaid, AfterReply, Prepared;
    if k == 0 {
      PreparedKeepsMarker(codec, cfg, world, offset + 1, start, sent[0]);
    } else {
      OneMarkerPerRequest(codec, cfg, world, offset, start, sent, k - 1);
      var before := AfterReply(codec, cfg, world, offset + k, sent[k - 1]);
      assert Prepared(codec, cfg, world, offset + 2 + (k - 1), before.state, sent[(k - 1) + 1]);
      var more := ReplyAddsNoMarker(codec, cfg, world, offset + k, sent[k - 1]);
      MarkerStaysFirst(codec, sent[k - 1].messages, more);
      PreparedKeepsMarker(codec, cfg, world, offset + k + 1, before.state, sent[k]);
    }
    MarkerAtMostOnce(sent[k].messages);
  }

  /** The messages a run starts with: the system prompt and the rebuilt history. */
  lemma StartFormed(system: string, prior: seq<ChatMessage>)
    requires WellFormed(prior)
    ensures WellFormed([SystemMsg(system)] + prior)
  {
    FormedPlain(SystemMsg(system));
    FormedAppend([SystemMsg(system)], prior);
  }

  // ----------------------------------------------------- budgets within a run

  /** Failed builds stay within the retry limit, apart from the automatic ones, which are not asked. */
  predicate WithinRetries(cfg: Config, failures: nat, autoBuilds: nat) {
    failures <= RetryLimit(cfg) + autoBuilds
  }

  lemma {:induction false} WorkWithinRetries(cfg: Config, world: World<Reply>, turn: nat, calls: seq<PlannedCall>, n: nat, start: Work)
    requires n <= |calls| && WithinRetries(cfg, start.failures, start.autoBuilds)
    ensures var w := Handled(cfg, world, turn, calls, n, start); WithinRetries(cfg, w.failures, w.autoBuilds)
  {
    if n > 0 {
      WorkWithinRetries(cfg, world, turn, calls, n - 1, start);
      CallWithinRetries(cfg, world, turn, |calls|, n - 1, calls[n - 1], Handled(cfg, world, turn, calls, n - 1, start));
      hide HandleCall, WithinRetries;
    }
  }

  lemma CallWithinRetries(cfg: Config, world: World<Reply>, turn: nat, count: nat, k: nat, call: PlannedCall, w: Work)
    requires WithinRetries(cfg, w.failures, w.autoBuilds)
    ensures var w' := HandleCall(cfg, world, turn, count, k, call, w); WithinRetries(cfg, w'.failures, w'.autoBuilds)
  {
    hide RetryLimit, RefusalText, CallId, IsEdit, IsBuild;
  }

  predicate WithinBudgets(cfg: Config, s: LoopState) {
    WithinRetries(cfg, s.failures, s.autoBuilds) && s.nudges <= MAX_NUDGES
  }

  lemma ReplyKeepsBudgets(codec: Codec, cfg: Config, world: World<Reply>, turn: nat, s: LoopState)
    requires WithinBudgets(cfg, s) && AfterReply(codec, cfg, world, turn, s).Goes?
    ensures WithinBudgets(cfg, AfterReply(codec, cfg, world, turn, s).state)
  {
    var reply := world.replies(turn).value;
    if reply.calls != [] {
      var calls := PlannedCalls(codec, world, turn, reply);
      WorkWithinRetries(cfg, world, turn, calls, |calls|, StartWork(s));
      hide PlannedCalls, Handled, WithinRetries;
    }
  }

  /** In every state of every run the failed builds and the nudges are within their budgets. */
  lemma {:induction false} EveryCallWithinBudgets(
    codec: Codec, cfg: Config, world: World<Reply>, offset: nat, start: LoopState, sent: seq<LoopState>, k: nat)
    requires Calls(codec, cfg, world, offset, start, sent) && WithinBudgets(cfg, start) && k < |sent|
    ensures WithinBudgets(cfg, sent[k])
  {
    hide WithinBudgets, AfterReply, ChatCompacted, ChatDropped;
    if k == 0 {
      SameCounters(cfg, start, sent[0]);
    } else {
      EveryCallWithinBudgets(codec, cfg, world, offset, start, sent, k - 1);
      ReplyKeepsBudgets(codec, cfg, world, offset + k, sent[k - 1]);
      var before := AfterReply(codec, cfg, world, offset + k, sent[k - 1]);
      assert Prepared(codec, cfg, world, offset + 2 + (k - 1), before.state, sent[(k - 1) + 1]);
      SameCounters(cfg, before.state, sent[k]);
    }
  }

  lemma SameCounters(cfg: Config, s: LoopState, s': LoopState)
    requires s' == s.(messages := s'.messages)
    ensures WithinBudgets(cfg, s') <==> WithinBudgets(cfg, s)
  {
  }

  // --------------------------------------------------------- resumed progress

  predicate EditDone(e: Event) {
    && e.kind.ToolResult? && Get(e.payload, "ok") == Some(Bool(true))
    && (Get(e.payload, "name") == Some(Str("write_file")) || Get(e.payload, "name") == Some(Str("str_replace")))
  }

  /** The distinct replies recorded by some events, and the distinct successful edits. */
  function ResponseIds(codec: Codec, events: seq<Event>): set<string> {
    set e | e in events && e.kind.AssistantMessage? :: TextOr(codec, e.payload, "message_id", e.id)
  }

  function EditIds(codec: Codec, events: seq<Event>): set<string> {
    set e | e in events && EditDone(e) :: TextOr(codec, e.payload, "tool_call_id", e.id)
  }

  /** `_resume_progress`. */
  method ResumeProgress(codec: Codec, events: seq<Event>) returns (responses: nat, edits: nat)
    ensures responses == |ResponseIds(codec, events)| && edits == |EditIds(codec, events)|
  {
    var responseIds: set<string> := {};
    var editIds: set<string> := {};
    for i := 0 to |events|
      invariant responseIds == ResponseIds(codec, events[..i]) && editIds == EditIds(codec, events[..i])
    {
      var event := events[i];
      ProgressStep(codec, events, i);
      hide ResponseIds, EditIds, EditDone, TextOr;
      if event.kind.AssistantMessage? {
        responseIds := responseIds + {TextOr(codec, event.payload, "message_id", event.id)};
      }
      if EditDone(event) {
        editIds := editIds + {TextOr(codec, event.payload, "tool_call_id", event.id)};
      }
    }
    assert events[..|events|] == events;
    return |responseIds|, |editIds|;
  }

  lemma ProgressStep(codec: Codec, events: seq<Event>, i: nat)
    requires i < |events|
    ensures ResponseIds(codec, events[..i + 1]) == ResponseIds(codec, events[..i])
      + (if events[i].kind.AssistantMessage? then {TextOr(codec, events[i].payload, "message_id", events[i].id)} else {})
    ensures EditIds(codec, events[..i + 1]) == EditIds(codec, events[..i])
      + (if EditDone(events[i]) then {TextOr(codec, events[i].payload, "tool_call_id", events[i].id)} else {})
  {
    AppendOne(events, i);
    hide EditDone, TextOr;
  }
}
