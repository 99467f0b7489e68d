/**
  What becomes of one call of a reply: refused without running its tool, or run
  and answered with what the tool said.  Told from the raw reply alone.
 */
module RefusedCalls {
  import opened JsonValue
  import opened ContextEvents
  import opened ProviderMessages
  import opened Compaction
  import opened TurnCompaction
  import opened AgentLoop
  import opened AnthropicLoop

  // ------------------------------------------------------------ the OpenAI loop

  /** What the arguments of a call decode to, when that is an object. */
  function Decoded(codec: Codec, raw: RawCall): Option<Json> {
    var value := codec.loads(if raw.arguments == "" then "{}" else raw.arguments);
    if value.Some? && value.value.Obj? then value else None
  }

  /** The two worlds answer alike except for what one tool does. */
  ghost predicate SameButTool<R(!new)>(w: World<R>, w': World<R>, turn: nat, k: nat) {
    w' == w.(tool := w'.tool) && forall t: nat, n: nat | t != turn || n != k :: w'.tool(t, n) == w.tool(t, n)
  }

  lemma SamePlans(codec: Codec, w: World<Reply>, w': World<Reply>, turn: nat, reply: Reply)
    requires w' == w.(tool := w'.tool)
    ensures PlannedCalls(codec, w', turn, reply) == PlannedCalls(codec, w, turn, reply)
  {
    hide Strip;
    assert forall k | 0 <= k < |reply.calls| ::
      Planned(codec, w', turn, k + 1, reply.calls[k]) == Planned(codec, w, turn, k + 1, reply.calls[k]);
  }

  lemma UndecodedIsAnError(codec: Codec, w: World<Reply>, turn: nat, reply: Reply, k: nat)
    requires k < |reply.calls|
    ensures PlannedCalls(codec, w, turn, reply)[k].error.Some? <==> Decoded(codec, reply.calls[k]).None?
  {
    hide Strip;
  }

  lemma {:induction false} HandledIgnores(
    cfg: Config, w: World<Reply>, w': World<Reply>, turn: nat, k: nat, t: nat, calls: seq<PlannedCall>, n: nat, start: Work)
    requires n <= |calls| && SameButTool(w, w', turn, k)
    requires t == turn && k < |calls| ==> calls[k].error.Some?
    ensures Handled(cfg, w', t, calls, n, start) == Handled(cfg, w, t, calls, n, start)
  {
    if n > 0 {
      HandledIgnores(cfg, w, w', turn, k, t, calls, n - 1, start);
      CallIgnores(cfg, w, w', turn, k, t, |calls|, n - 1, calls[n - 1], Handled(cfg, w, t, calls, n - 1, start));
      hide HandleCall;
    }
  }

  lemma CallIgnores(
    cfg: Config, w: World<Reply>, w': World<Reply>, turn: nat, k: nat, t: nat, count: nat, n: nat, call: PlannedCall, work: Work)
    requires SameButTool(w, w', turn, k) && (t == turn && n == k ==> call.error.Some?)
    ensures HandleCall(cfg, w', t, count, n, call, work) == HandleCall(cfg, w, t, count, n, call, work)
  {
    hide RefusalText, RetryLimit, IsBuild, IsEdit, Strip;
  }

  /** What the loop makes of any reply does not depend on the tool of a call whose arguments do not decode to an object. */
  lemma ReplyIgnoresUndecoded(
    codec: Codec, cfg: Config, w: World<Reply>, w': World<Reply>, turn: nat, reply: Reply, k: nat, t: nat, s: LoopState)
    requires SameButTool(w, w', turn, k) && w.replies(turn) == Some(reply) && k < |reply.calls|
    requires Decoded(codec, reply.calls[k]).None?
    ensures AfterReply(codec, cfg, w', t, s) == AfterReply(codec, cfg, w, t, s)
  {
    var answer := w.replies(t);
    if answer.Some? && answer.value.calls != [] {
      SamePlans(codec, w, w', t, answer.value);
      if t == turn { UndecodedIsAnError(codec, w, turn, reply, k); }
      hide PlannedCalls, Decoded;
      HandledIgnores(cfg, w, w', turn, k, t, PlannedCalls(codec, w, t, answer.value), |PlannedCalls(codec, w, t, answer.value)|, StartWork(s));
      hide Handled;
    }
  }

  /** So the whole run is the same, whatever that tool would have done: it is never executed. */
  lemma RunIgnoresUndecoded(
    codec: Codec, cfg: Config, w: World<Reply>, w': World<Reply>, turn: nat, reply: Reply, k: nat,
    offset: nat, start: LoopState, sent: seq<LoopState>)
    requires SameButTool(w, w', turn, k) && w.replies(turn) == Some(reply) && k < |reply.calls|
    requires Decoded(codec, reply.calls[k]).None?
    ensures Calls(codec, cfg, w', offset, start, sent) <==> Calls(codec, cfg, w, offset, start, sent)
  {
    hide Decoded, Prepared, AfterReply, TotalTurns;
    forall t: nat, s: LoopState ensures AfterReply(codec, cfg, w', t, s) == AfterReply(codec, cfg, w, t, s) {
      ReplyIgnoresUndecoded(codec, cfg, w, w', turn, reply, k, t, s);
    }
    forall t: nat, s: LoopState, s': LoopState ensures Prepared(codec, cfg, w', t, s, s') == Prepared(codec, cfg, w, t, s, s') {
      SamePreparation(codec, cfg, w, w', t, s, s');
    }
  }

  lemma SamePreparation(codec: Codec, cfg: Config, w: World<Reply>, w': World<Reply>, t: nat, s: LoopState, s': LoopState)
    requires w' == w.(tool := w'.tool)
    ensures Prepared(codec, cfg, w', t, s, s') == Prepared(codec, cfg, w, t, s, s')
  {
    hide ChatCompacted, ChatDropped;
  }

  /** The id a call is answered under: the provider's unless it is blank, else a generated one. */
  ghost predicate AnswersTo(w: World<Reply>, turn: nat, k: nat, raw: RawCall, id: string) {
    if raw.providerId.Some? && Strip(raw.providerId.value) != "" then id == raw.providerId.value
    else id == "call_" + w.idDigits(turn, k + 1, raw.name)
  }

  lemma PlanIs(codec: Codec, w: World<Reply>, turn: nat, reply: Reply, k: nat)
    requires k < |reply.calls|
    ensures var call := PlannedCalls(codec, w, turn, reply)[k];
      && call.name == reply.calls[k].name && AnswersTo(w, turn, k, reply.calls[k], call.id)
      && call.input == (if Decoded(codec, reply.calls[k]).Some? then Decoded(codec, reply.calls[k]).value else Obj(map[]))
  {
    hide Strip;
  }

  /** An undecodable call is answered with a refusal and counts as nothing: no edit, no failed build, no automatic build. */
  lemma UndecodedIsRefused(codec: Codec, cfg: Config, w: World<Reply>, turn: nat, reply: Reply, k: nat, start: Work)
    requires k < |reply.calls| && Decoded(codec, reply.calls[k]).None?
    requires !Handled(cfg, w, turn, PlannedCalls(codec, w, turn, reply), k, start).stopped
    ensures var calls := PlannedCalls(codec, w, turn, reply);
      var before, after := Handled(cfg, w, turn, calls, k, start), Handled(cfg, w, turn, calls, k + 1, start);
      && |after.answers| == |before.answers| + 1 && after.answers[..|before.answers|] == before.answers
      && after.answers[|before.answers|].ToolMsg? && MALFORMED_TEXT <= after.answers[|before.answers|].output
      && AnswersTo(w, turn, k, reply.calls[k], after.answers[|before.answers|].callId)
      && after == before.(answers := after.answers)
  {
    UndecodedIsAnError(codec, w, turn, reply, k);
    PlanIs(codec, w, turn, reply, k);
    hide PlannedCalls, Decoded, AnswersTo;
  }

  /** A call of `run_gradle` that builds the app: without a task, or with this one. */
  predicate Builds(name: string, input: Json) {
    name == "run_gradle" && (Get(input, "task").None? || Get(input, "task") == Some(Str("assembleDebug")))
  }

  /** The two tools that change files. */
  predicate Edits(name: string) {
    name == "write_file" || name == "str_replace"
  }

  /** A decodable call whose tool ran is answered with its output, an edit or a failed build is counted, and nothing else. */
  lemma DecodedIsRun(
    codec: Codec, cfg: Config, w: World<Reply>, turn: nat, reply: Reply, k: nat, start: Work, input: Json, ok: bool, output: string)
    requires k < |reply.calls| && Decoded(codec, reply.calls[k]) == Some(input) && !cfg.autoBuild
    requires w.tool(turn, k) == Ran(ok, output)
    requires var before := Handled(cfg, w, turn, PlannedCalls(codec, w, turn, reply), k, start);
      !before.stopped && (Builds(reply.calls[k].name, input) ==> before.failures < cfg.maxGradleRetries)
    ensures var calls := PlannedCalls(codec, w, turn, reply);
      var before, after := Handled(cfg, w, turn, calls, k, start), Handled(cfg, w, turn, calls, k + 1, start);
      var name := reply.calls[k].name;
      && (exists id :: AnswersTo(w, turn, k, reply.calls[k], id) && after.answers == before.answers + [ToolMsg(id, output)])
      && after.edits == before.edits + (if ok && Edits(name) then 1 else 0)
      && after.failures == before.failures + (if !ok && Builds(name, input) then 1 else 0)
      && after.autos == before.autos && !after.stopped
  {
    UndecodedIsAnError(codec, w, turn, reply, k);
    PlanIs(codec, w, turn, reply, k);
    hide PlannedCalls, Decoded, AnswersTo, RefusalText;
  }

  /** The edit was answered, then a build of its own made and answered; both are counted. */
  ghost predicate EditedAndBuilt(before: Work, after: Work, id: string, output: string, built: bool, report: string) {
    && (exists auto ::
          && after.answers == before.answers + [ToolMsg(id, output)] + [ToolMsg(auto, report)]
          && after.autos == before.autos + [FunctionCall(auto, "run_gradle", BUILD_ARGUMENTS)])
    && after.edits == before.edits + 1 && after.autoBuilds == before.autoBuilds + 1
    && after.failures == before.failures + (if built then 0 else 1) && !after.stopped
  }

  /** With automatic builds a successful edit brings a build of its own, answered behind it under a new id. */
  lemma EditBringsBuild(
    codec: Codec, cfg: Config, w: World<Reply>, turn: nat, reply: Reply, k: nat, start: Work, input: Json, output: string,
    built: bool, report: string)
    requires k < |reply.calls| && Decoded(codec, reply.calls[k]) == Some(input) && cfg.autoBuild
    requires Edits(reply.calls[k].name)
    requires w.tool(turn, k) == Ran(true, output) && w.build(turn, k) == Ran(built, report)
    requires !Handled(cfg, w, turn, PlannedCalls(codec, w, turn, reply), k, start).stopped
    ensures var calls := PlannedCalls(codec, w, turn, reply);
      && AnswersTo(w, turn, k, reply.calls[k], calls[k].id)
      && EditedAndBuilt(Handled(cfg, w, turn, calls, k, start), Handled(cfg, w, turn, calls, k + 1, start), calls[k].id, output, built, report)
  {
    UndecodedIsAnError(codec, w, turn, reply, k);
    PlanIs(codec, w, turn, reply, k);
    hide PlannedCalls, Decoded, AnswersTo, HandleCall, EditedAndBuilt, Edits;
    var calls := PlannedCalls(codec, w, turn, reply);
    var before := Handled(cfg, w, turn, calls, k, start);
    EditThenBuild(cfg, w, turn, |calls|, k, calls[k], before, output, built, report);
    assert Handled(cfg, w, turn, calls, k + 1, start) == HandleCall(cfg, w, turn, |calls|, k, calls[k], before);
    hide Handled;
  }

  lemma EditThenBuild(
    cfg: Config, w: World<Reply>, turn: nat, count: nat, k: nat, call: PlannedCall, before: Work, output: string,
    built: bool, report: string)
    requires cfg.autoBuild && Edits(call.name) && call.error.None? && !before.stopped
    requires w.tool(turn, k) == Ran(true, output) && w.build(turn, k) == Ran(built, report)
    ensures EditedAndBuilt(before, HandleCall(cfg, w, turn, count, k, call, before), call.id, output, built, report)
  {
    EditIsNoBuild(call);
    hide RefusalText, CallId, IsBuild, IsEdit;
    var after, ran := HandleCall(cfg, w, turn, count, k, call, before), RanCall(call, true, output, before);
    assert after == AutoBuilt(w, turn, count, k, ran);
    var auto := CallId(w, turn, count + ran.autoBuilds + 1, "run_gradle", None);
    assert after.answers == before.answers + [ToolMsg(call.id, output)] + [ToolMsg(auto, report)];
    assert after.autos == before.autos + [FunctionCall(auto, "run_gradle", BUILD_ARGUMENTS)];
  }

  lemma EditIsNoBuild(call: PlannedCall)
    requires Edits(call.name)
    ensures IsEdit(call.name) && !IsBuild(call)
  {
    assert "run_gradle"[0] != "write_file"[0] && |"str_replace"| == 11 && |"run_gradle"| == 10;
  }

  /** The refusal of a build that comes after too many failed ones. */
  function StopBuilding(cfg: Config): string {
    var limit: nat := if cfg.maxGradleRetries < 0 then 0 else cfg.maxGradleRetries;
    "已达到 assembleDebug 失败重试上限 (" + Decimal(limit) + ")，请停止继续构建，总结当前错误并结束本任务。"
  }

  lemma RefusalIs(cfg: Config)
    ensures RefusalText(cfg) == StopBuilding(cfg)
  {
    hide Decimal;
  }

  /** Once as many builds failed as the limit allows, a further build is refused without running, whatever its tool would do. */
  lemma ExhaustedIsRefused(
    codec: Codec, cfg: Config, w: World<Reply>, turn: nat, reply: Reply, k: nat, start: Work, input: Json)
    requires k < |reply.calls| && Decoded(codec, reply.calls[k]) == Some(input) && Builds(reply.calls[k].name, input)
    requires var before := Handled(cfg, w, turn, PlannedCalls(codec, w, turn, reply), k, start);
      !before.stopped && before.failures >= cfg.maxGradleRetries
    ensures var calls := PlannedCalls(codec, w, turn, reply);
      var before, after := Handled(cfg, w, turn, calls, k, start), Handled(cfg, w, turn, calls, k + 1, start);
      && (exists id :: AnswersTo(w, turn, k, reply.calls[k], id) && after.answers == before.answers + [ToolMsg(id, StopBuilding(cfg))])
      && after == before.(answers := after.answers)
  {
    UndecodedIsAnError(codec, w, turn, reply, k);
    PlanIs(codec, w, turn, reply, k);
    RefusalIs(cfg);
    hide PlannedCalls, Decoded, AnswersTo, RefusalText, StopBuilding;
    var calls := PlannedCalls(codec, w, turn, reply);
    assert AnswersTo(w, turn, k, reply.calls[k], calls[k].id);
    assert Handled(cfg, w, turn, calls, k + 1, start).answers
        == Handled(cfg, w, turn, calls, k, start).answers + [ToolMsg(calls[k].id, StopBuilding(cfg))];
  }

  // --------------------------------------------------------- the Anthropic loop

  /** A use whose input is an object that came without an error. */
  predicate Usable(b: ReplyBlock) {
    b.Uses? && b.input.Obj? && (b.inputError.None? || b.inputError.value == "")
  }

  lemma {:induction false} SameUses(w: World<ReplyBlocks>, w': World<ReplyBlocks>, turn: nat, reply: ReplyBlocks, n: nat)
    requires w' == w.(tool := w'.tool) && n <= |reply|
    ensures UsesUpTo(w', turn, reply, n) == UsesUpTo(w, turn, reply, n)
    ensures ContentUpTo(w', turn, reply, n) == ContentUpTo(w, turn, reply, n)
  {
    hide Strip;
    if n > 0 { SameUses(w, w', turn, reply, n - 1); }
  }

  /** The position among the uses of a reply that block `n` has. */
  function UseIndex(reply: ReplyBlocks, n: nat): nat
    requires n <= |reply|
  {
    if n == 0 then 0 else UseIndex(reply, n - 1) + if reply[n - 1].Uses? then 1 else 0
  }

  lemma {:induction false} UseAt(w: World<ReplyBlocks>, turn: nat, reply: ReplyBlocks, b: nat, n: nat)
    requires b < n <= |reply| && reply[b].Uses?
    ensures |UsesUpTo(w, turn, reply, n)| == UseIndex(reply, n) && UseIndex(reply, b) < UseIndex(reply, n)
    ensures UsesUpTo(w, turn, reply, n)[UseIndex(reply, b)] == PlannedUse(w, turn, b, reply[b])
    decreases n
  {
    hide PlannedUse;
    UseCount(w, turn, reply, n - 1);
    if b < n - 1 { UseAt(w, turn, reply, b, n - 1); }
  }

  lemma {:induction false} UseCount(w: World<ReplyBlocks>, turn: nat, reply: ReplyBlocks, n: nat)
    requires n <= |reply|
    ensures |UsesUpTo(w, turn, reply, n)| == UseIndex(reply, n)
  {
    hide PlannedUse;
    if n > 0 { UseCount(w, turn, reply, n - 1); }
  }

  lemma {:induction false} HandledUsesIgnore(
    cfg: Config, w: World<ReplyBlocks>, w': World<ReplyBlocks>, turn: nat, k: nat, t: nat, blocks: nat,
    calls: seq<PlannedCall>, n: nat, start: TurnWork)
    requires n <= |calls| && SameButTool(w, w', turn, k)
    requires t == turn && k < |calls| ==> calls[k].error.Some?
    ensures HandledUses(cfg, w', t, blocks, calls, n, start) == HandledUses(cfg, w, t, blocks, calls, n, start)
  {
    hide *;
    HandledUsesIs(cfg, w, t, blocks, calls, n, start);
    HandledUsesIs(cfg, w', t, blocks, calls, n, start);
    if n > 0 {
      HandledUsesIgnore(cfg, w, w', turn, k, t, blocks, calls, n - 1, start);
      UseIgnores(cfg, w, w', turn, k, t, blocks, n - 1, calls[n - 1], HandledUses(cfg, w, t, blocks, calls, n - 1, start));
    }
  }

  lemma HandledUsesIs(cfg: Config, w: World<ReplyBlocks>, turn: nat, blocks: nat, calls: seq<PlannedCall>, n: nat, start: TurnWork)
    requires n <= |calls|
    ensures HandledUses(cfg, w, turn, blocks, calls, n, start) ==
      if n == 0 then start
      else
        var before := HandledUses(cfg, w, turn, blocks, calls, n - 1, start);
        if before.stopped then before else HandleUse(cfg, w, turn, blocks, n - 1, calls[n - 1], before)
  {
    hide HandleUse;
  }

  lemma UseIgnores(
    cfg: Config, w: World<ReplyBlocks>, w': World<ReplyBlocks>, turn: nat, k: nat, t: nat, blocks: nat, n: nat,
    call: PlannedCall, work: TurnWork)
    requires SameButTool(w, w', turn, k) && (t == turn && n == k ==> call.error.Some?)
    ensures HandleUse(cfg, w', t, blocks, n, call, work) == HandleUse(cfg, w, t, blocks, n, call, work)
  {
    hide RefusalText, RetryLimit, IsBuild, IsEdit, Strip;
  }

  /** The same for the Anthropic loop: the tool of an unusable input is never consulted. */
  lemma BlocksIgnoreUnusable(
    cfg: Config, w: World<ReplyBlocks>, w': World<ReplyBlocks>, turn: nat, reply: ReplyBlocks, b: nat, t: nat, s: TurnState)
    requires w.replies(turn) == Some(reply) && b < |reply| && reply[b].Uses? && !Usable(reply[b])
    requires SameButTool(w, w', turn, UseIndex(reply, b))
    ensures AfterBlocks(cfg, w', t, s) == AfterBlocks(cfg, w, t, s)
  {
    var answer := w.replies(t);
    if answer.Some? {
      var said := answer.value;
      SameUses(w, w', t, said, |said|);
      if t == turn { UseAt(w, turn, reply, b, |reply|); }
      var calls, content := UsesUpTo(w, t, said, |said|), ContentUpTo(w, t, said, |said|);
      hide UsesUpTo, ContentUpTo, UseIndex, NudgeFor, SpokenText, Strip;
      var start := TurnWork([], [], s.failures, s.edits, s.autoBuilds, false);
      SameNudge(cfg, w, w', t, SpokenText(said, |said|), Counters(s));
      HandledUsesIgnore(cfg, w, w', turn, UseIndex(reply, b), t, |content|, calls, |calls|, start);
      hide HandledUses;
    }
  }

  lemma SameNudge(cfg: Config, w: World<ReplyBlocks>, w': World<ReplyBlocks>, t: nat, text: string, s: LoopState)
    requires w' == w.(tool := w'.tool)
    ensures NudgeFor(cfg, w', t, text, s) == NudgeFor(cfg, w, t, text, s)
  {
  }

  /** And its result is a refusal, marked as an error, that counts as nothing. */
  lemma UnusableIsRefused(
    cfg: Config, w: World<ReplyBlocks>, turn: nat, reply: ReplyBlocks, b: nat, blocks: nat, start: TurnWork)
    requires b < |reply| && reply[b].Uses? && !Usable(reply[b])
    requires var calls := UsesUpTo(w, turn, reply, |reply|);
      UseIndex(reply, b) < |calls| && !HandledUses(cfg, w, turn, blocks, calls, UseIndex(reply, b), start).stopped
    ensures var calls, k := UsesUpTo(w, turn, reply, |reply|), UseIndex(reply, b);
      var before, after := HandledUses(cfg, w, turn, blocks, calls, k, start), HandledUses(cfg, w, turn, blocks, calls, k + 1, start);
      && (exists text :: MALFORMED_TEXT <= text && after.results == before.results + [ResultBlock(calls[k].id, text, true)])
      && after == before.(results := after.results)
  {
    UseAt(w, turn, reply, b, |reply|);
    hide UsesUpTo, Strip;
    var calls, k := UsesUpTo(w, turn, reply, |reply|), UseIndex(reply, b);
    var text := MALFORMED_TEXT + calls[k].error.value;
    assert HandledUses(cfg, w, turn, blocks, calls, k + 1, start).results
        == HandledUses(cfg, w, turn, blocks, calls, k, start).results + [ResultBlock(calls[k].id, text, true)];
  }

  /** A usable input whose tool ran is answered with its output; an edit or a failed build is counted, and nothing else. */
  lemma UsableIsRun(
    cfg: Config, w: World<ReplyBlocks>, turn: nat, reply: ReplyBlocks, b: nat, blocks: nat, start: TurnWork, ok: bool, output: string)
    requires b < |reply| && Usable(reply[b]) && !cfg.autoBuild
    requires w.tool(turn, UseIndex(reply, b)) == Ran(ok, output)
    requires var calls := UsesUpTo(w, turn, reply, |reply|);
      && UseIndex(reply, b) < |calls| && !HandledUses(cfg, w, turn, blocks, calls, UseIndex(reply, b), start).stopped
      && (Builds(reply[b].name, reply[b].input) ==>
            HandledUses(cfg, w, turn, blocks, calls, UseIndex(reply, b), start).failures < cfg.maxGradleRetries)
    ensures var calls, k := UsesUpTo(w, turn, reply, |reply|), UseIndex(reply, b);
      var before, after := HandledUses(cfg, w, turn, blocks, calls, k, start), HandledUses(cfg, w, turn, blocks, calls, k + 1, start);
      var name := reply[b].name;
      && after.results == before.results + [ResultBlock(calls[k].id, output, !ok)]
      && after.edits == before.edits + (if ok && Edits(name) then 1 else 0)
      && after.failures == before.failures + (if !ok && Builds(name, reply[b].input) then 1 else 0)
      && after.autos == before.autos && after.autoBuilds == before.autoBuilds && !after.stopped
  {
    UseAt(w, turn, reply, b, |reply|);
    UsableIs(w, turn, b, reply[b]);
    hide UsesUpTo, Strip, RefusalText, PlannedUse;
    var calls, k := UsesUpTo(w, turn, reply, |reply|), UseIndex(reply, b);
    NextUse(cfg, w, turn, blocks, calls, k, start);
    hide HandledUses;
  }

  lemma UsableAt(w: World<ReplyBlocks>, turn: nat, reply: ReplyBlocks, b: nat)
    requires b < |reply| && Usable(reply[b])
    ensures var calls, k := UsesUpTo(w, turn, reply, |reply|), UseIndex(reply, b);
      k < |calls| && calls[k].error.None? && calls[k].name == reply[b].name && calls[k].input == reply[b].input
  {
    UseAt(w, turn, reply, b, |reply|);
    UsableIs(w, turn, b, reply[b]);
    hide UsesUpTo, PlannedUse;
  }

  lemma UsableIs(w: World<ReplyBlocks>, turn: nat, b: nat, block: ReplyBlock)
    requires Usable(block)
    ensures var call := PlannedUse(w, turn, b, block); call.error.None? && call.name == block.name && call.input == block.input
  {
    hide CallId;
  }

  ghost predicate EditedAndBuiltUse(before: TurnWork, after: TurnWork, id: string, output: string, built: bool, report: string) {
    && (exists auto ::
          && after.results == before.results + [ResultBlock(id, output, false)] + [ResultBlock(auto, report, !built)]
          && after.autos == before.autos + [ToolUse(auto, "run_gradle", BUILD_INPUT)])
    && after.edits == before.edits + 1 && after.autoBuilds == before.autoBuilds + 1
    && after.failures == before.failures + (if built then 0 else 1) && !after.stopped
  }

  /** With automatic builds a successful edit brings a build of its own here too. */
  lemma EditBringsBuildUse(
    cfg: Config, w: World<ReplyBlocks>, turn: nat, reply: ReplyBlocks, b: nat, blocks: nat, start: TurnWork, output: string,
    built: bool, report: string)
    requires b < |reply| && Usable(reply[b]) && cfg.autoBuild && Edits(reply[b].name)
    requires w.tool(turn, UseIndex(reply, b)) == Ran(true, output) && w.build(turn, UseIndex(reply, b)) == Ran(built, report)
    requires var calls := UsesUpTo(w, turn, reply, |reply|);
      UseIndex(reply, b) < |calls| && !HandledUses(cfg, w, turn, blocks, calls, UseIndex(reply, b), start).stopped
    ensures var calls, k := UsesUpTo(w, turn, reply, |reply|), UseIndex(reply, b);
      EditedAndBuiltUse(HandledUses(cfg, w, turn, blocks, calls, k, start), HandledUses(cfg, w, turn, blocks, calls, k + 1, start),
                        calls[k].id, output, built, report)
  {
    hide *;
    UsableAt(w, turn, reply, b);
    NextUseBuilds(cfg, w, turn, blocks, UsesUpTo(w, turn, reply, |reply|), UseIndex(reply, b), start, output, built, report);
  }

  lemma NextUseBuilds(
    cfg: Config, w: World<ReplyBlocks>, turn: nat, blocks: nat, calls: seq<PlannedCall>, k: nat, start: TurnWork, output: string,
    built: bool, report: string)
    requires k < |calls| && cfg.autoBuild && Edits(calls[k].name) && calls[k].error.None?
    requires !HandledUses(cfg, w, turn, blocks, calls, k, start).stopped
    requires w.tool(turn, k) == Ran(true, output) && w.build(turn, k) == Ran(built, report)
    ensures EditedAndBuiltUse(HandledUses(cfg, w, turn, blocks, calls, k, start), HandledUses(cfg, w, turn, blocks, calls, k + 1, start),
                              calls[k].id, output, built, report)
  {
    hide *;
    NextUse(cfg, w, turn, blocks, calls, k, start);
    EditThenBuildUse(cfg, w, turn, blocks, k, calls[k], HandledUses(cfg, w, turn, blocks, calls, k, start), output, built, report);
  }

  lemma NextUse(cfg: Config, w: World<ReplyBlocks>, turn: nat, blocks: nat, calls: seq<PlannedCall>, k: nat, start: TurnWork)
    requires k < |calls| && !HandledUses(cfg, w, turn, blocks, calls, k, start).stopped
    ensures HandledUses(cfg, w, turn, blocks, calls, k + 1, start)
      == HandleUse(cfg, w, turn, blocks, k, calls[k], HandledUses(cfg, w, turn, blocks, calls, k, start))
  {
    hide HandleUse;
  }

  lemma EditThenBuildUse(
    cfg: Config, w: World<ReplyBlocks>, turn: nat, blocks: nat, k: nat, call: PlannedCall, before: TurnWork, output: string,
    built: bool, report: string)
    requires cfg.autoBuild && Edits(call.name) && call.error.None? && !before.stopped
    requires w.tool(turn, k) == Ran(true, output) && w.build(turn, k) == Ran(built, report)
    ensures EditedAndBuiltUse(before, HandleUse(cfg, w, turn, blocks, k, call, before), call.id, output, built, report)
  {
    EditIsNoBuild(call);
    hide RefusalText, CallId, IsBuild, IsEdit;
    var after, ran := HandleUse(cfg, w, turn, blocks, k, call, before), RanUse(call, true, output, before);
    assert after == AutoUsed(w, turn, blocks, k, ran);
    var auto := CallId(w, turn, blocks + |ran.autos| + ran.autoBuilds + 1, "run_gradle", None);
    assert after.results == before.results + [ResultBlock(call.id, output, false)] + [ResultBlock(auto, report, !built)];
    assert after.autos == before.autos + [ToolUse(auto, "run_gradle", BUILD_INPUT)];
  }

  /** And a build after too many failed ones is refused without running. */
  lemma ExhaustedUseIsRefused(
    cfg: Config, w: World<ReplyBlocks>, turn: nat, reply: ReplyBlocks, b: nat, blocks: nat, start: TurnWork)
    requires b < |reply| && Usable(reply[b]) && Builds(reply[b].name, reply[b].input)
    requires var calls := UsesUpTo(w, turn, reply, |reply|);
      && UseIndex(reply, b) < |calls| && !HandledUses(cfg, w, turn, blocks, calls, UseIndex(reply, b), start).stopped
      && HandledUses(cfg, w, turn, blocks, calls, UseIndex(reply, b), start).failures >= cfg.maxGradleRetries
    ensures var calls, k := UsesUpTo(w, turn, reply, |reply|), UseIndex(reply, b);
      var before, after := HandledUses(cfg, w, turn, blocks, calls, k, start), HandledUses(cfg, w, turn, blocks, calls, k + 1, start);
      && after.results == before.results + [ResultBlock(calls[k].id, StopBuilding(cfg), true)]
      && after == before.(results := after.results)
  {
    UseAt(w, turn, reply, b, |reply|);
    UsableIs(w, turn, b, reply[b]);
    RefusalIs(cfg);
    hide UsesUpTo, Strip, RefusalText, PlannedUse, StopBuilding;
    var calls, k := UsesUpTo(w, turn, reply, |reply|), UseIndex(reply, b);
    NextUse(cfg, w, turn, blocks, calls, k, start);
    hide HandledUses;
  }
}
