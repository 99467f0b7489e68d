/**
  What the loops make of a whole reply: when they nudge, when they end, what one
  exchange adds to the messages, and how far a paused turn has come.
 */
module LoopReplies {
  import opened JsonValue
  import opened Tables
  import opened ContextEvents
  import opened ProviderMessages
  import opened Compaction
  import opened TurnCompaction
  import opened AgentLoop
  import opened AnthropicLoop
  import opened RefusedCalls
  import SelectedEvents

  // --------------------------------------------------------------- the nudges

  /** The turn limit: at least one turn in at least one batch. */
  function Limit(cfg: Config): int {
    (if cfg.maxTurns < 1 then 1 else cfg.maxTurns) * (if cfg.maxAutoContinuations < 0 then 1 else cfg.maxAutoContinuations + 1)
  }

  /** A reply without calls is nudged on: it asks to download, or claims or owes an edit that was never made. */
  ghost predicate Nudged<R(!new)>(cfg: Config, w: World<R>, turn: nat, text: string, edits: nat, nudges: nat, nudge: string) {
    && turn < Limit(cfg) && nudges < 2
    && if w.asksDownload(text) then nudge == w.downloadNudge
       else edits == 0 && !w.awaitsUser(text) && (w.expectsEdit || w.claimsEdit(text)) && nudge == w.editNudge(0)
  }

  lemma NudgesExactly<R(!new)>(cfg: Config, w: World<R>, turn: nat, text: string, s: LoopState)
    ensures match NudgeFor(cfg, w, turn, text, s)
      case Some(nudge) => Nudged(cfg, w, turn, text, s.edits, s.nudges, nudge)
      case None => forall nudge :: !Nudged(cfg, w, turn, text, s.edits, s.nudges, nudge)
  {
    assert TotalTurns(cfg) == Limit(cfg);
  }

  // ------------------------------------------------------------ the OpenAI loop

  /** A reply that fails or leaves no record ends the run. */
  lemma LostReplyStops(codec: Codec, cfg: Config, w: World<Reply>, turn: nat, s: LoopState)
    requires w.replies(turn).None? || !w.recorded(turn)
    ensures AfterReply(codec, cfg, w, turn, s) == Stops
  {
    hide NudgeFor, PlannedCalls, Handled;
  }

  /** A reply without calls is final, unless it is nudged; a nudge adds the reply and the nudge, and counts as one. */
  lemma PlainReplyExactly(codec: Codec, cfg: Config, w: World<Reply>, turn: nat, reply: Reply, s: LoopState)
    requires w.replies(turn) == Some(reply) && w.recorded(turn) && reply.calls == []
    ensures var said, after := if reply.content.Some? then reply.content.value else "", AfterReply(codec, cfg, w, turn, s);
      && (after == Ends <==> forall nudge :: !Nudged(cfg, w, turn, Strip(said), s.edits, s.nudges, nudge))
      && (after != Ends ==>
            exists nudge ::
              && Nudged(cfg, w, turn, Strip(said), s.edits, s.nudges, nudge)
              && after == Goes(LoopState(s.messages + [AssistantMsg(Some(said), []), UserMsg(nudge)],
                                         s.failures, s.edits, s.nudges + 1, s.autoBuilds)))
  {
    NudgesExactly(cfg, w, turn, Strip(ContentOf(reply)), s);
    hide NudgeFor, Nudged, Strip;
  }

  /** The call as the next request shows it: its id and name, and the object it decodes to, empty when it does not. */
  ghost predicate ShownAs(codec: Codec, w: World<Reply>, turn: nat, k: nat, raw: RawCall, call: FunctionCall) {
    && AnswersTo(w, turn, k, raw, call.id) && call.name == raw.name
    && call.arguments == codec.dumps(if Decoded(codec, raw).Some? then Decoded(codec, raw).value else Obj(map[]))
  }

  /**
    A reply with calls adds one message with its text and all its calls, then
    the answers; the counters are those the calls left, and no nudge is counted.
   */
  lemma CallsAreExchanged(codec: Codec, cfg: Config, w: World<Reply>, turn: nat, reply: Reply, s: LoopState)
    requires w.replies(turn) == Some(reply) && w.recorded(turn) && reply.calls != []
    ensures var after := AfterReply(codec, cfg, w, turn, s);
      var planned := PlannedCalls(codec, w, turn, reply);
      var work := Handled(cfg, w, turn, planned, |planned|, Work([], [], s.failures, s.edits, s.autoBuilds, false));
      && (after == Stops <==> w.haltsCalls(turn) || work.stopped)
      && (after != Stops ==> exists calls ::
            && |calls| == |reply.calls| && (forall k | 0 <= k < |calls| :: ShownAs(codec, w, turn, k, reply.calls[k], calls[k]))
            && after == Goes(LoopState(s.messages + ([AssistantMsg(reply.content, calls + work.autos)] + work.answers),
                                       work.failures, work.edits, s.nudges, work.autoBuilds)))
  {
    var planned := PlannedCalls(codec, w, turn, reply);
    var calls := AsFunctionCalls(codec, planned);
    forall k | 0 <= k < |calls| ensures ShownAs(codec, w, turn, k, reply.calls[k], calls[k]) { PlanIs(codec, w, turn, reply, k); }
    assert |calls| == |reply.calls|;
    hide PlannedCalls, AsFunctionCalls, Handled, ShownAs, NudgeFor;
  }

  // --------------------------------------------------------- the Anthropic loop

  lemma LostBlocksStop(cfg: Config, w: World<ReplyBlocks>, turn: nat, s: TurnState)
    requires w.replies(turn).None? || !w.recorded(turn)
    ensures AfterBlocks(cfg, w, turn, s) == Leaves
  {
    hide NudgeFor, ContentUpTo, UsesUpTo, HandledUses;
  }

  predicate Calling(reply: ReplyBlocks) {
    exists b | b in reply :: b.Uses?
  }

  lemma {:induction false} NoUses(w: World<ReplyBlocks>, turn: nat, reply: ReplyBlocks, n: nat)
    requires n <= |reply|
    ensures UsesUpTo(w, turn, reply, n) == [] <==> forall i | 0 <= i < n :: !reply[i].Uses?
  {
    if n > 0 {
      NoUses(w, turn, reply, n - 1);
      hide PlannedUse;
    }
  }

  /** The same for blocks: the text read for nudges is that of the blocks, and the whole content is kept. */
  lemma PlainBlocksExactly(cfg: Config, w: World<ReplyBlocks>, turn: nat, reply: ReplyBlocks, s: TurnState)
    requires w.replies(turn) == Some(reply) && w.recorded(turn) && !Calling(reply)
    ensures var said, after := SpokenText(reply, |reply|), AfterBlocks(cfg, w, turn, s);
      && (after == Finishes <==> forall nudge :: !Nudged(cfg, w, turn, said, s.edits, s.nudges, nudge))
      && (after != Finishes ==>
            exists nudge ::
              && Nudged(cfg, w, turn, said, s.edits, s.nudges, nudge)
              && after == Continues(TurnState(
                   s.messages + [FromAssistant(ContentUpTo(w, turn, reply, |reply|)), FromUser(Plain(nudge))],
                   s.failures, s.edits, s.nudges + 1, s.autoBuilds)))
  {
    AfterPlain(cfg, w, turn, reply, s);
    NudgesExactly(cfg, w, turn, SpokenText(reply, |reply|), Counters(s));
    hide NudgeFor, Nudged, Strip, SpokenText, ContentUpTo, AfterBlocks;
  }

  lemma AfterPlain(cfg: Config, w: World<ReplyBlocks>, turn: nat, reply: ReplyBlocks, s: TurnState)
    requires w.replies(turn) == Some(reply) && w.recorded(turn) && !Calling(reply)
    ensures AfterBlocks(cfg, w, turn, s) ==
      match NudgeFor(cfg, w, turn, SpokenText(reply, |reply|), Counters(s))
      case None => Finishes
      case Some(nudge) =>
        Continues(TurnState(
          s.messages + [FromAssistant(ContentUpTo(w, turn, reply, |reply|)), FromUser(Plain(nudge))],
          s.failures, s.edits, s.nudges + 1, s.autoBuilds))
  {
    NoUses(w, turn, reply, |reply|);
    forall i | 0 <= i < |reply| ensures !reply[i].Uses? { assert reply[i] in reply; }
    hide NudgeFor, Strip, SpokenText, ContentUpTo, UsesUpTo, HandledUses;
  }

  /** A reply with calls adds its content, with the automatic builds, and all results in one message of the user. */
  lemma UsesAreExchanged(cfg: Config, w: World<ReplyBlocks>, turn: nat, reply: ReplyBlocks, s: TurnState)
    requires w.replies(turn) == Some(reply) && w.recorded(turn) && Calling(reply)
    ensures var content, calls := ContentUpTo(w, turn, reply, |reply|), UsesUpTo(w, turn, reply, |reply|);
      var work := HandledUses(cfg, w, turn, |content|, calls, |calls|, TurnWork([], [], s.failures, s.edits, s.autoBuilds, false));
      AfterBlocks(cfg, w, turn, s) ==
        if w.haltsCalls(turn) || work.stopped then Leaves
        else Continues(TurnState(s.messages + [FromAssistant(content + work.autos), FromUser(Blocks(work.results))],
                                 work.failures, work.edits, s.nudges, work.autoBuilds))
  {
    NoUses(w, turn, reply, |reply|);
    var b :| b in reply && b.Uses?;
    var i :| 0 <= i < |reply| && reply[i] == b;
    hide NudgeFor, Strip, SpokenText, ContentUpTo, UsesUpTo, HandledUses;
  }

  /** The texts of a reply that are not blank, each without the blanks at its ends. */
  function SpokenLines(reply: ReplyBlocks, n: nat): seq<string>
    requires n <= |reply|
  {
    if n == 0 then []
    else
      SpokenLines(reply, n - 1)
      + match reply[n - 1]
        case Says(text) => if Strip(text) != "" then [Strip(text)] else []
        case _ => []
  }

  function Joined(lines: seq<string>): string {
    if lines == [] then ""
    else if |lines| == 1 then lines[0]
    else Joined(lines[..|lines| - 1]) + "\n" + lines[|lines| - 1]
  }

  ghost predicate Trim(s: string) {
    s != "" ==> !Space(s[0]) && !Space(s[|s| - 1])
  }

  lemma TrimStays(s: string)
    requires Trim(s)
    ensures Strip(s) == s
  {
    hide Space;
  }

  lemma StripTrims(s: string)
    ensures Trim(Strip(s))
  {
    var a, b := SelectedEvents.StrippedExactly(s);
  }

  /** The text that the nudges look at is these lines, one under the other. */
  lemma {:induction false} SpokenIsJoined(reply: ReplyBlocks, n: nat)
    requires n <= |reply|
    ensures SpokenText(reply, n) == Joined(SpokenLines(reply, n)) && Trim(SpokenText(reply, n))
    ensures SpokenText(reply, n) == "" <==> SpokenLines(reply, n) == []
  {
    if n > 0 {
      SpokenIsJoined(reply, n - 1);
      SpokenStep(reply, n);
      var before, lines := SpokenText(reply, n - 1), SpokenLines(reply, n - 1);
      hide Strip, SpokenText, SpokenLines, Joined, Trim;
      if reply[n - 1].Says? && Strip(reply[n - 1].text) != "" {
        var line := Strip(reply[n - 1].text);
        StripTrims(reply[n - 1].text);
        JoinedOneMore(lines, line);
        JoinTrims(before, line);
      }
    }
  }

  lemma SpokenStep(reply: ReplyBlocks, n: nat)
    requires 0 < n <= |reply|
    ensures var before, lines := SpokenText(reply, n - 1), SpokenLines(reply, n - 1);
      if reply[n - 1].Says? && Strip(reply[n - 1].text) != "" then
        var line := Strip(reply[n - 1].text);
        && SpokenText(reply, n) == (if before != "" then Strip(before + "\n" + line) else line)
        && SpokenLines(reply, n) == lines + [line]
      else SpokenText(reply, n) == before && SpokenLines(reply, n) == lines
  {
    hide Strip;
  }

  lemma JoinedOneMore(lines: seq<string>, line: string)
    ensures Joined(lines + [line]) == if lines == [] then line else Joined(lines) + "\n" + line
  {
    assert (lines + [line])[..|lines|] == lines;
  }

  lemma JoinTrims(before: string, line: string)
    requires Trim(before) && Trim(line) && line != ""
    ensures before != "" ==> Trim(before + "\n" + line) && Strip(before + "\n" + line) == before + "\n" + line
  {
    hide Space, Strip;
    if before != "" {
      assert (before + "\n" + line)[0] == before[0];
      TrimStays(before + "\n" + line);
    }
  }

  /** The id a use is answered under. */
  ghost predicate UsedAs(w: World<ReplyBlocks>, turn: nat, k: nat, b: ReplyBlock, id: string)
    requires b.Uses?
  {
    if b.providerId.Some? && Strip(b.providerId.value) != "" then id == b.providerId.value
    else id == "call_" + w.idDigits(turn, k, b.name)
  }

  /** Block by block the content of a message is what the reply says and calls, with an empty object for an input that is none. */
  lemma {:induction false} ContentIs(w: World<ReplyBlocks>, turn: nat, reply: ReplyBlocks, n: nat, k: nat)
    requires k < n <= |reply|
    ensures |ContentUpTo(w, turn, reply, n)| == n
    ensures match reply[k]
      case Says(text) => ContentUpTo(w, turn, reply, n)[k] == TextBlock(text)
      case Uses(_, name, input, _) =>
        exists id :: UsedAs(w, turn, k, reply[k], id)
          && ContentUpTo(w, turn, reply, n)[k] == ToolUse(id, name, if input.Obj? then input else Obj(map[]))
    decreases n
  {
    ContentCount(w, turn, reply, n - 1);
    if k < n - 1 {
      ContentIs(w, turn, reply, n - 1, k);
      hide PlannedUse, UsedAs;
    } else if reply[k].Uses? {
      var call := PlannedUse(w, turn, k, reply[k]);
      assert UsedAs(w, turn, k, reply[k], call.id);
      hide UsedAs, CallId;
    }
  }

  lemma {:induction false} ContentCount(w: World<ReplyBlocks>, turn: nat, reply: ReplyBlocks, n: nat)
    requires n <= |reply|
    ensures |ContentUpTo(w, turn, reply, n)| == n
  {
    if n > 0 {
      ContentCount(w, turn, reply, n - 1);
      hide PlannedUse;
    }
  }

  // ------------------------------------------------------------ a paused turn

  /** The id under which a record counts: the one in its payload, or its own. */
  ghost predicate CountsAs(codec: Codec, e: Event, key: string, id: string) {
    match Get(e.payload, key)
    case Some(v) => id == (if !Truthy(v) then e.id else if v.Str? then v.s else codec.show(v))
    case None => id == e.id
  }

  /** What a turn resumes with: its recorded replies and its successful edits, each id once. */
  lemma ProgressExactly(codec: Codec, events: seq<Event>, id: string)
    ensures id in ResponseIds(codec, events) <==>
      exists e :: e in events && e.kind == AssistantMessage && CountsAs(codec, e, "message_id", id)
    ensures id in EditIds(codec, events) <==>
      exists e :: e in events && SuccessfulEdit(e) && CountsAs(codec, e, "tool_call_id", id)
  {
    forall e ensures CountsAs(codec, e, "message_id", id) <==> TextOr(codec, e.payload, "message_id", e.id) == id { }
    forall e ensures CountsAs(codec, e, "tool_call_id", id) <==> TextOr(codec, e.payload, "tool_call_id", e.id) == id { }
    forall e ensures SuccessfulEdit(e) <==> EditDone(e) { }
    hide CountsAs, TextOr, SuccessfulEdit, EditDone;
  }

  ghost predicate SuccessfulEdit(e: Event) {
    && e.kind == ToolResult && Get(e.payload, "ok") == Some(Bool(true))
    && Get(e.payload, "name") in {Some(Str("write_file")), Some(Str("str_replace"))}
  }
}
