/**
  The Anthropic form of compaction.  A unit is a message with calls together
  with its answer, but only when the answer holds nothing but results; a user
  text that joined the results splits the unit, and exactly that can orphan an
  answer.
 */
module TurnCompaction {
  import opened JsonValue
  import opened ProviderMessages
  import opened Compaction

  // ------------------------------------------------------------------- units

  /** `_anthropic_has_tool_use`. */
  predicate HasUse(m: TurnMessage) {
    m.FromAssistant? && exists i | 0 <= i < |m.blocks| :: m.blocks[i].ToolUse?
  }

  /** `_anthropic_is_tool_result_message`. */
  predicate OnlyResults(m: TurnMessage) {
    && m.FromUser? && m.content.Blocks? && m.content.blocks != []
    && forall i | 0 <= i < |m.content.blocks| :: m.content.blocks[i].ResultBlock?
  }

  predicate PairAhead(ms: seq<TurnMessage>) {
    |ms| > 1 && HasUse(ms[0]) && OnlyResults(ms[1])
  }

  function TurnUnits(ms: seq<TurnMessage>): seq<seq<TurnMessage>>
    decreases |ms|
  {
    if ms == [] then []
    else if PairAhead(ms) then [[ms[0], ms[1]]] + TurnUnits(ms[2..])
    else [[ms[0]]] + TurnUnits(ms[1..])
  }

  lemma TurnUnitsStep(ms: seq<TurnMessage>)
    requires ms != []
    ensures PairAhead(ms) ==> |ms| > 1 && TurnUnits(ms) == [[ms[0], ms[1]]] + TurnUnits(ms[2..])
    ensures !PairAhead(ms) ==> TurnUnits(ms) == [[ms[0]]] + TurnUnits(ms[1..])
  {
    hide HasUse, OnlyResults;
  }

  /** `_anthropic_units`. */
  method AnthropicUnits(messages: seq<TurnMessage>) returns (units: seq<seq<TurnMessage>>)
    ensures units == TurnUnits(messages)
  {
    units := [];
    var index := 0;
    hide *;
    assert messages[0..] == messages;
    while index < |messages|
      invariant index <= |messages|
      invariant units + TurnUnits(messages[index..]) == TurnUnits(messages)
    {
      ghost var rest := messages[index..];
      TurnUnitsStep(rest);
      PairAheadMeans(rest);
      if index + 1 < |messages| && HasUse(messages[index]) && OnlyResults(messages[index + 1]) {
        units := units + [[messages[index], messages[index + 1]]];
        index := index + 2;
        assert rest[2..] == messages[index..];
      } else {
        units := units + [[messages[index]]];
        index := index + 1;
        assert rest[1..] == messages[index..];
      }
    }
    NoTurnsLeft(messages[index..]);
  }

  lemma NoTurnsLeft(ms: seq<TurnMessage>)
    requires ms == []
    ensures TurnUnits(ms) == []
  {
  }

  lemma PairAheadMeans(ms: seq<TurnMessage>)
    ensures PairAhead(ms) <==> |ms| > 1 && HasUse(ms[0]) && OnlyResults(ms[1])
  {
    hide HasUse, OnlyResults;
  }

  /** The units are the input, cut into pieces. */
  lemma {:induction false} TurnUnitsConcat(ms: seq<TurnMessage>)
    ensures Flatten(TurnUnits(ms)) == ms
    decreases |ms|
  {
    if ms != [] {
      TurnUnitsStep(ms);
      hide TurnUnits, PairAhead, Flatten;
      if PairAhead(ms) {
        TurnUnitsConcat(ms[2..]);
        FlattenCons([ms[0], ms[1]], TurnUnits(ms[2..]));
        assert [ms[0], ms[1]] + ms[2..] == ms;
      } else {
        TurnUnitsConcat(ms[1..]);
        FlattenCons([ms[0]], TurnUnits(ms[1..]));
        assert [ms[0]] + ms[1..] == ms;
      }
    }
  }

  // ---------------------------------------------- when dropping units is safe

  /** Each answer holds nothing but results. */
  ghost predicate PureAnswers(ms: seq<TurnMessage>) {
    forall i | 0 <= i < |ms| - 1 && HasUse(ms[i]) :: OnlyResults(ms[i + 1])
  }

  /** Whatever number of old units is dropped, the rest is answered. */
  ghost predicate SafeToDrop(units: seq<seq<TurnMessage>>) {
    forall d | 0 <= d <= |units| :: AnsweredTurns(Flatten(units[d..]))
  }

  lemma {:induction false} UseMeansIds(blocks: seq<AssistantBlock>)
    ensures (exists i | 0 <= i < |blocks| :: blocks[i].ToolUse?) <==> UseIdsIn(blocks) != []
  {
    if blocks != [] {
      UseMeansIds(blocks[1..]);
      if i :| 0 <= i < |blocks| && blocks[i].ToolUse? {
        if i > 0 { assert blocks[1..][i - 1].ToolUse?; }
      }
    }
  }

  lemma HasUseMeansIds(m: TurnMessage)
    ensures HasUse(m) <==> UseIds(m) != []
  {
    if m.FromAssistant? { UseMeansIds(m.blocks); }
  }

  lemma SafeToDropCons(unit: seq<TurnMessage>, units: seq<seq<TurnMessage>>)
    ensures SafeToDrop([unit] + units) <==> AnsweredTurns(unit + Flatten(units)) && SafeToDrop(units)
  {
    hide AnsweredTurns, Flatten;
    var all := [unit] + units;
    assert forall d | 1 <= d <= |all| :: all[d..] == units[d - 1..];
    FlattenCons(unit, units);
    assert all[0..] == all;
    if SafeToDrop(all) {
      assert AnsweredTurns(Flatten(all[0..]));
      forall d | 0 <= d <= |units| ensures AnsweredTurns(Flatten(units[d..])) {
        assert AnsweredTurns(Flatten(all[d + 1..]));
      }
    }
  }

  lemma PureAnswersSkip(ms: seq<TurnMessage>, k: nat)
    requires 1 <= k <= |ms| && k <= 2
    requires k == 1 ==> !(HasUse(ms[0]) && |ms| > 1)
    requires k == 2 ==> OnlyResults(ms[1])
    ensures PureAnswers(ms) <==> PureAnswers(ms[k..])
  {
    if PureAnswers(ms) {
      forall i | 0 <= i < |ms[k..]| - 1 && HasUse(ms[k..][i]) ensures OnlyResults(ms[k..][i + 1]) {
        assert ms[k..][i] == ms[i + k] && ms[k..][i + 1] == ms[i + k + 1];
      }
    }
    if PureAnswers(ms[k..]) {
      forall i | 0 <= i < |ms| - 1 && HasUse(ms[i]) ensures OnlyResults(ms[i + 1]) {
        if i >= k { assert ms[k..][i - k] == ms[i] && ms[k..][i - k + 1] == ms[i + 1]; }
      }
    }
  }

  /** An answer that stands first is an orphan. */
  lemma OrphanFirst(ms: seq<TurnMessage>)
    requires ms != [] && ResultIds(ms[0]) != []
    ensures !AnsweredTurns(ms)
  {
  }

  lemma MixedHead(ms: seq<TurnMessage>)
    requires |ms| > 1 && AnsweredTurns(ms) && HasUse(ms[0]) && !OnlyResults(ms[1])
    ensures !PureAnswers(ms) && !AnsweredTurns(ms[1..])
  {
    AnsweredParts(ms);
    HasUseMeansIds(ms[0]);
    hide AnsweredTurns, HasUse, OnlyResults, UseIds, ResultIds;
    assert |multiset(ResultIds(ms[1]))| == |multiset(UseIds(ms[0]))|;
    OrphanFirst(ms[1..]);
    assert ms[0 + 1] == ms[1];
  }

  /**
    For an answered conversation every cut between units leaves an answered
    conversation, if and only if no answer shares its message with other blocks.
   */
  lemma {:induction false} SafeToDropExactly(ms: seq<TurnMessage>)
    requires AnsweredTurns(ms)
    ensures SafeToDrop(TurnUnits(ms)) <==> PureAnswers(ms)
    decreases |ms|
  {
    hide *;
    if ms == [] {
      NothingToDrop(ms);
    } else {
      TurnUnitsStep(ms);
      AnsweredParts(ms);
      HasUseMeansIds(ms[0]);
      TurnUnitsConcat(ms);
      PairAheadMeans(ms);
      if PairAhead(ms) {
        SafeToDropExactly(ms[2..]);
        SafeToDropCons([ms[0], ms[1]], TurnUnits(ms[2..]));
        FlattenCons([ms[0], ms[1]], TurnUnits(ms[2..]));
        PureAnswersSkip(ms, 2);
      } else {
        SafeToDropCons([ms[0]], TurnUnits(ms[1..]));
        FlattenCons([ms[0]], TurnUnits(ms[1..]));
        if HasUse(ms[0]) {
          MixedHead(ms);
          WholeIsTail(TurnUnits(ms[1..]));
          TurnUnitsConcat(ms[1..]);
        } else {
          SafeToDropExactly(ms[1..]);
          PureAnswersSkip(ms, 1);
        }
      }
    }
  }

  lemma NothingToDrop(ms: seq<TurnMessage>)
    requires ms == []
    ensures SafeToDrop(TurnUnits(ms)) && PureAnswers(ms)
  {
  }

  lemma WholeIsTail(units: seq<seq<TurnMessage>>)
    ensures SafeToDrop(units) ==> AnsweredTurns(Flatten(units))
  {
    hide AnsweredTurns, Flatten;
    assert units[0..] == units;
  }

  // --------------------------------------------------------------- shrinking

  const TURN_MARKER := FromUser(Plain("[系统] 更早的对话与工具输出已压缩，请基于剩余上下文继续."))

  function ShrunkBlock(b: UserBlock): UserBlock {
    if b.ResultBlock? then b.(output := Shortened(b.output)) else b
  }

  function ShrunkBlocks(blocks: seq<UserBlock>): seq<UserBlock> {
    seq(|blocks|, i requires 0 <= i < |blocks| => ShrunkBlock(blocks[i]))
  }

  function ShrunkTurn(m: TurnMessage): TurnMessage {
    if m.FromUser? && m.content.Blocks? then FromUser(Blocks(ShrunkBlocks(m.content.blocks))) else m
  }

  function ShrunkTurnUnit(unit: seq<TurnMessage>): seq<TurnMessage> {
    seq(|unit|, i requires 0 <= i < |unit| => ShrunkTurn(unit[i]))
  }

  function ShrunkTurnUnits(units: seq<seq<TurnMessage>>, aged: nat): seq<seq<TurnMessage>> {
    seq(|units|, i requires 0 <= i < |units| => if i < aged then ShrunkTurnUnit(units[i]) else units[i])
  }

  method ShrinkAnthropicMessage(m: TurnMessage) returns (m': TurnMessage, changed: bool)
    ensures m' == ShrunkTurn(m)
    ensures !changed ==> m' == m
  {
    m', changed := m, false;
    if m.FromUser? && m.content.Blocks? {
      var blocks := m.content.blocks;
      for k := 0 to |blocks|
        invariant |blocks| == |m.content.blocks|
        invariant forall i | 0 <= i < k :: blocks[i] == ShrunkBlock(m.content.blocks[i])
        invariant forall i | k <= i < |blocks| :: blocks[i] == m.content.blocks[i]
        invariant !changed ==> blocks == m.content.blocks
      {
        var block := blocks[k];
        if block.ResultBlock? && |block.output| > 400 {
          blocks := blocks[k := block.(output := block.output[..200] + SHRUNK_SUFFIX)];
          changed := true;
        }
      }
      assert blocks == ShrunkBlocks(m.content.blocks);
      m' := FromUser(Blocks(blocks));
    }
  }

  method ShrinkAnthropicUnit(unit: seq<TurnMessage>) returns (unit': seq<TurnMessage>, changed: bool)
    ensures unit' == ShrunkTurnUnit(unit)
    ensures !changed ==> unit' == unit
  {
    unit', changed := unit, false;
    for k := 0 to |unit|
      invariant |unit'| == |unit|
      invariant forall i | 0 <= i < k :: unit'[i] == ShrunkTurn(unit[i])
      invariant forall i | k <= i < |unit| :: unit'[i] == unit[i]
      invariant !changed ==> unit' == unit
    {
      var m, shrunk := ShrinkAnthropicMessage(unit[k]);
      unit' := unit'[k := m];
      changed := changed || shrunk;
    }
  }

  lemma {:induction false} ShrunkResultIds(blocks: seq<UserBlock>)
    ensures ResultIdsIn(ShrunkBlocks(blocks)) == ResultIdsIn(blocks)
  {
    if blocks != [] {
      ShrunkResultIds(blocks[1..]);
      assert ShrunkBlocks(blocks)[1..] == ShrunkBlocks(blocks[1..]);
    }
  }

  lemma ShrunkTurnSame(m: TurnMessage)
    ensures UseIds(ShrunkTurn(m)) == UseIds(m) && ResultIds(ShrunkTurn(m)) == ResultIds(m)
    ensures HasUse(ShrunkTurn(m)) == HasUse(m) && ShrunkTurn(m).FromUser? == m.FromUser?
  {
    if m.FromUser? && m.content.Blocks? { ShrunkResultIds(m.content.blocks); }
  }

  /** Under every pair of limits compaction leaves an answered conversation. */
  ghost predicate CompactsSafely(codec: Codec, ms: seq<TurnMessage>) {
    forall maxChars, keepRecent, result, dropped | TurnsCompacted(codec, ms, maxChars, keepRecent, result, dropped) ::
      AnsweredTurns(result)
  }

  /** With no room at all, everything that is not protected goes. */
  lemma CutReached(codec: Codec, ms: seq<TurnMessage>, d: nat) returns (result: seq<TurnMessage>)
    requires d < |TurnUnits(ms)|
    ensures TurnsCompacted(codec, ms, -1, |TurnUnits(ms)| - d, result, d)
  {
    var keep := |TurnUnits(ms)| - d;
    var pieces := TurnPieces(ms, keep);
    TurnPiecesFrom(ms, keep, 0);
    hide TurnUnits, ShrunkTurnUnits, TurnPieces, Assembled;
    assert Droppable(keep, |pieces|) == d;
    result := Assembled([], TURN_MARKER, pieces, d);
  }

  /**
    An answered conversation stays answered under all limits if and only if no
    answer shares its message with other blocks.
   */
  lemma CompactsSafelyExactly(codec: Codec, ms: seq<TurnMessage>)
    requires AnsweredTurns(ms)
    ensures CompactsSafely(codec, ms) <==> PureAnswers(ms)
  {
    hide *;
    SafeToDropExactly(ms);
    if PureAnswers(ms) {
      PureCompactsSafely(codec, ms);
    } else {
      var d := UnsafeCut(TurnUnits(ms));
      var result := CutReached(codec, ms, d);
      LeftMeans(ms, d);
      CompactedAnsweredExactly(codec, ms, -1, |TurnUnits(ms)| - d, result, d);
      UnsafeResult(codec, ms, -1, |TurnUnits(ms)| - d, result, d);
    }
  }

  lemma PureCompactsSafely(codec: Codec, ms: seq<TurnMessage>)
    requires AnsweredTurns(ms) && PureAnswers(ms)
    ensures CompactsSafely(codec, ms)
  {
    hide AnsweredTurns, PureAnswers, TurnsCompacted;
    forall maxChars, keepRecent, result, dropped | TurnsCompacted(codec, ms, maxChars, keepRecent, result, dropped)
      ensures AnsweredTurns(result)
    {
      CompactionKeepsAnswered(codec, ms, maxChars, keepRecent, result, dropped);
    }
  }

  lemma UnsafeResult(codec: Codec, ms: seq<TurnMessage>, maxChars: int, keepRecent: int, result: seq<TurnMessage>, dropped: nat)
    requires TurnsCompacted(codec, ms, maxChars, keepRecent, result, dropped) && !AnsweredTurns(result)
    ensures !CompactsSafely(codec, ms)
  {
    hide AnsweredTurns, TurnsCompacted;
  }

  lemma UnsafeCut(units: seq<seq<TurnMessage>>) returns (d: nat)
    requires !SafeToDrop(units)
    ensures d < |units| && !AnsweredTurns(Flatten(units[d..]))
  {
    var cut :| 0 <= cut <= |units| && !AnsweredTurns(Flatten(units[cut..]));
    assert Flatten<TurnMessage>([]) == [];
    d := cut;
  }

  /** Messages that agree pairwise on the calls they make and answer. */
  ghost predicate SameCalls(a: seq<TurnMessage>, b: seq<TurnMessage>) {
    && |a| == |b|
    && forall i | 0 <= i < |a| ::
         UseIds(a[i]) == UseIds(b[i]) && ResultIds(a[i]) == ResultIds(b[i]) && a[i].FromUser? == b[i].FromUser?
  }

  lemma {:induction false} SameCallsAnswered(a: seq<TurnMessage>, b: seq<TurnMessage>)
    requires SameCalls(a, b)
    ensures AnsweredTurns(a) <==> AnsweredTurns(b)
    decreases |a|
  {
    if a != [] {
      hide UseIds, ResultIds;
      var k := if UseIds(a[0]) == [] then 1 else 2;
      if k <= |a| { SameCallsAnswered(a[k..], b[k..]); }
    }
  }

  lemma SameCallsAppend(a: seq<TurnMessage>, b: seq<TurnMessage>, c: seq<TurnMessage>, d: seq<TurnMessage>)
    requires SameCalls(a, b) && SameCalls(c, d)
    ensures SameCalls(a + c, b + d)
  {
    hide UseIds, ResultIds;
  }

  lemma ShrunkUnitSame(unit: seq<TurnMessage>)
    ensures SameCalls(unit, ShrunkTurnUnit(unit)) && SameCalls(unit, unit)
  {
    hide UseIds, ResultIds, ShrunkTurn;
    forall i | 0 <= i < |unit|
      ensures UseIds(unit[i]) == UseIds(ShrunkTurnUnit(unit)[i]) && ResultIds(unit[i]) == ResultIds(ShrunkTurnUnit(unit)[i])
        && unit[i].FromUser? == ShrunkTurnUnit(unit)[i].FromUser?
    {
      ShrunkTurnSame(unit[i]);
    }
  }

  lemma {:induction false} ShrunkUnitsSame(units: seq<seq<TurnMessage>>, aged: nat)
    ensures SameCalls(Flatten(units), Flatten(ShrunkTurnUnits(units, aged)))
  {
    if units != [] {
      var aged' := if aged > 0 then aged - 1 else 0;
      ShrunkUnitsSame(units[1..], aged');
      ShrunkUnitSame(units[0]);
      var shrunk := ShrunkTurnUnits(units, aged);
      assert shrunk[1..] == ShrunkTurnUnits(units[1..], aged');
      hide SameCalls, ShrunkTurnUnit, ShrunkTurnUnits;
      SameCallsAppend(units[0], shrunk[0], Flatten(units[1..]), Flatten(shrunk[1..]));
    }
  }

  // -------------------------------------------------------------- compaction

  /** One block's part of `_content_chars`: its text, its content and its input, each counted when present. */
  function AssistantBlockSize(codec: Codec, b: AssistantBlock): nat {
    match b
    case TextBlock(text) => |text| + |codec.spaced(Obj(map[]))|
    case ToolUse(_, _, input) => |codec.spaced(input)|
  }

  function UserBlockSize(codec: Codec, b: UserBlock): nat {
    match b
    case UserTextBlock(text) => |text| + |codec.spaced(Obj(map[]))|
    case ResultBlock(_, output, _) => |output| + |codec.spaced(Obj(map[]))|
  }

  function TurnSize(codec: Codec): TurnMessage -> nat {
    (m: TurnMessage) =>
      match m
      case FromUser(Plain(text)) => |text|
      case FromUser(Blocks(blocks)) => Total((b: UserBlock) => UserBlockSize(codec, b), blocks)
      case FromAssistant(blocks) => Total((b: AssistantBlock) => AssistantBlockSize(codec, b), blocks)
  }

  function TurnPieces(ms: seq<TurnMessage>, keepRecent: int): seq<seq<TurnMessage>> {
    ShrunkTurnUnits(TurnUnits(ms), Droppable(keepRecent, |TurnUnits(ms)|))
  }

  /** `result` is what compaction of `ms` gives. */
  ghost predicate TurnsCompacted(
    codec: Codec, ms: seq<TurnMessage>, maxChars: int, keepRecent: int, result: seq<TurnMessage>, dropped: nat)
  {
    if Total(TurnSize(codec), ms) <= maxChars then result == ms && dropped == 0
    else
      var pieces := TurnPieces(ms, keepRecent);
      && LeastDrop(TurnSize(codec), [], TURN_MARKER, pieces, Droppable(keepRecent, |pieces|), maxChars, dropped)
      && result == Assembled([], TURN_MARKER, pieces, dropped)
  }

  /** How many units compaction of `ms` drops. */
  function TurnsDropped(codec: Codec, ms: seq<TurnMessage>, maxChars: int, keepRecent: int): nat {
    if Total(TurnSize(codec), ms) <= maxChars then 0
    else
      var pieces := TurnPieces(ms, keepRecent);
      DropCount(TurnSize(codec), [], TURN_MARKER, pieces, Droppable(keepRecent, |pieces|), maxChars, 0)
  }

  /** `compact_anthropic_messages`. */
  method CompactAnthropicMessages(codec: Codec, messages: seq<TurnMessage>, maxChars: int, keepRecent: int)
    returns (result: seq<TurnMessage>, compacted: bool)
    ensures TurnsCompacted(codec, messages, maxChars, keepRecent, result, TurnsDropped(codec, messages, maxChars, keepRecent))
    ensures compacted <==>
      Total(TurnSize(codec), result) < Total(TurnSize(codec), messages) || TurnsDropped(codec, messages, maxChars, keepRecent) > 0
  {
    var before := Total(TurnSize(codec), messages);
    if before <= maxChars { return messages, false; }
    var units := AnthropicUnits(messages);
    ghost var original := units;
    var protect := Protected(keepRecent, |units|);
    var aged := if protect < |units| then |units| - protect else 0;
    var changed := false;
    for k := 0 to aged
      invariant |units| == |original|
      invariant forall i | 0 <= i < k :: units[i] == ShrunkTurnUnit(original[i])
      invariant forall i | k <= i < |units| :: units[i] == original[i]
      invariant !changed ==> units == original
    {
      var unit, shrunk := ShrinkAnthropicUnit(units[k]);
      units := units[k := unit];
      changed := changed || shrunk;
    }
    assert units == TurnPieces(messages, keepRecent);
    var markerInserted;
    result, markerInserted := DropOldest(TurnSize(codec), [], TURN_MARKER, units, protect, maxChars);
    DropCountIsLeast(TurnSize(codec), [], TURN_MARKER, units, aged, maxChars, 0);
    changed := changed || markerInserted;
    var after := Total(TurnSize(codec), result);
    if after >= before && !changed {
      TurnUnitsConcat(messages);
      assert result == messages;
      return messages, false;
    }
    compacted := after < before || markerInserted;
  }

  /** What is left of the conversation, before shrinking, once `dropped` units are gone. */
  function TurnsLeft(ms: seq<TurnMessage>, dropped: nat): seq<TurnMessage>
    requires dropped <= |TurnUnits(ms)|
  {
    Flatten(TurnUnits(ms)[dropped..])
  }

  lemma TurnsCompactedParts(
    codec: Codec, ms: seq<TurnMessage>, maxChars: int, keepRecent: int, result: seq<TurnMessage>, dropped: nat)
    returns (rest: seq<TurnMessage>)
    requires TurnsCompacted(codec, ms, maxChars, keepRecent, result, dropped)
    ensures dropped <= |TurnUnits(ms)| && SameCalls(TurnsLeft(ms, dropped), rest)
    ensures result == if dropped == 0 then rest else [TURN_MARKER] + rest
  {
    hide *;
    var units, pieces := TurnUnits(ms), TurnPieces(ms, keepRecent);
    TurnUnitsConcat(ms);
    TurnsCompactedCases(codec, ms, maxChars, keepRecent, result, dropped);
    assert units[0..] == units && pieces[0..] == pieces;
    LeftMeans(ms, dropped);
    if Total(TurnSize(codec), ms) <= maxChars {
      rest := ms;
      SameCallsSelf(ms);
    } else {
      rest := Flatten(pieces[dropped..]);
      TurnPiecesFrom(ms, keepRecent, dropped);
      ShrunkUnitsSame(units[dropped..], Droppable(keepRecent, |units|) - dropped);
    }
  }

  lemma LeftMeans(ms: seq<TurnMessage>, dropped: nat)
    requires dropped <= |TurnUnits(ms)|
    ensures TurnsLeft(ms, dropped) == Flatten(TurnUnits(ms)[dropped..])
  {
  }

  lemma SameCallsSelf(ms: seq<TurnMessage>)
    ensures SameCalls(ms, ms)
  {
  }

  lemma TurnPiecesFrom(ms: seq<TurnMessage>, keepRecent: int, dropped: nat)
    requires dropped <= Droppable(keepRecent, |TurnUnits(ms)|)
    ensures |TurnPieces(ms, keepRecent)| == |TurnUnits(ms)|
    ensures TurnPieces(ms, keepRecent)[dropped..]
      == ShrunkTurnUnits(TurnUnits(ms)[dropped..], Droppable(keepRecent, |TurnUnits(ms)|) - dropped)
  {
    hide TurnUnits, ShrunkTurnUnit;
  }

  lemma TurnsCompactedCases(
    codec: Codec, ms: seq<TurnMessage>, maxChars: int, keepRecent: int, result: seq<TurnMessage>, dropped: nat)
    requires TurnsCompacted(codec, ms, maxChars, keepRecent, result, dropped)
    ensures dropped <= Droppable(keepRecent, |TurnUnits(ms)|) <= |TurnUnits(ms)| == |TurnPieces(ms, keepRecent)|
    ensures Total(TurnSize(codec), ms) <= maxChars ==> result == ms && dropped == 0
    ensures Total(TurnSize(codec), ms) > maxChars ==>
      && (dropped == 0 ==> result == Flatten(TurnPieces(ms, keepRecent)))
      && (dropped > 0 ==> result == [TURN_MARKER] + Flatten(TurnPieces(ms, keepRecent)[dropped..]))
  {
    hide TurnUnits, ShrunkTurnUnit, Flatten, Fits, Total;
  }

  lemma MarkerAnswered()
    ensures AnsweredTurns([TURN_MARKER])
  {
    AnsweredAlone(TURN_MARKER);
  }

  /** The result is answered exactly when what is left of the input is. */
  lemma CompactedAnsweredExactly(
    codec: Codec, ms: seq<TurnMessage>, maxChars: int, keepRecent: int, result: seq<TurnMessage>, dropped: nat)
    requires TurnsCompacted(codec, ms, maxChars, keepRecent, result, dropped)
    ensures dropped <= |TurnUnits(ms)|
    ensures AnsweredTurns(result) <==> AnsweredTurns(TurnsLeft(ms, dropped))
  {
    hide *;
    var rest := TurnsCompactedParts(codec, ms, maxChars, keepRecent, result, dropped);
    SameCallsAnswered(TurnsLeft(ms, dropped), rest);
    MarkerAnswered();
    AnsweredAppend([TURN_MARKER], rest);
  }

  /** So an answered conversation with pure answers stays answered, whatever the limits. */
  lemma CompactionKeepsAnswered(
    codec: Codec, ms: seq<TurnMessage>, maxChars: int, keepRecent: int, result: seq<TurnMessage>, dropped: nat)
    requires TurnsCompacted(codec, ms, maxChars, keepRecent, result, dropped)
    requires AnsweredTurns(ms) && PureAnswers(ms)
    ensures AnsweredTurns(result)
  {
    CompactedAnsweredExactly(codec, ms, maxChars, keepRecent, result, dropped);
    SafeToDropExactly(ms);
    hide AnsweredTurns, TurnUnits, Flatten, TurnsCompacted, PureAnswers;
  }

  /** Messages that agree pairwise on the calls they make and on holding nothing but results. */
  ghost predicate SamePurity(a: seq<TurnMessage>, b: seq<TurnMessage>) {
    |a| == |b| && forall i | 0 <= i < |a| :: HasUse(a[i]) == HasUse(b[i]) && OnlyResults(a[i]) == OnlyResults(b[i])
  }

  lemma ShrunkTurnPurity(m: TurnMessage)
    ensures HasUse(ShrunkTurn(m)) == HasUse(m) && OnlyResults(ShrunkTurn(m)) == OnlyResults(m)
  {
    if m.FromUser? && m.content.Blocks? {
      var blocks, shrunk := m.content.blocks, ShrunkBlocks(m.content.blocks);
      assert forall i | 0 <= i < |blocks| :: shrunk[i].ResultBlock? == blocks[i].ResultBlock?;
      if OnlyResults(ShrunkTurn(m)) {
        forall i | 0 <= i < |blocks| ensures blocks[i].ResultBlock? { assert shrunk[i].ResultBlock?; }
      }
    }
  }

  lemma {:induction false} ShrunkUnitsPurity(units: seq<seq<TurnMessage>>, aged: nat)
    ensures SamePurity(Flatten(units), Flatten(ShrunkTurnUnits(units, aged)))
  {
    if units != [] {
      var aged' := if aged > 0 then aged - 1 else 0;
      ShrunkUnitsPurity(units[1..], aged');
      var shrunk := ShrunkTurnUnits(units, aged);
      assert shrunk[1..] == ShrunkTurnUnits(units[1..], aged');
      hide HasUse, OnlyResults, ShrunkTurn, ShrunkTurnUnits;
      forall i | 0 <= i < |units[0]|
        ensures HasUse(units[0][i]) == HasUse(shrunk[0][i]) && OnlyResults(units[0][i]) == OnlyResults(shrunk[0][i])
      {
        ShrunkTurnPurity(units[0][i]);
        assert ShrunkTurnUnit(units[0])[i] == ShrunkTurn(units[0][i]);
      }
      assert shrunk[0] == units[0] || shrunk[0] == ShrunkTurnUnit(units[0]);
    }
  }

  lemma SamePurityPure(a: seq<TurnMessage>, b: seq<TurnMessage>)
    requires SamePurity(a, b) && PureAnswers(a)
    ensures PureAnswers(b)
  {
    hide HasUse, OnlyResults;
  }

  lemma MarkedPure(ms: seq<TurnMessage>)
    requires PureAnswers(ms)
    ensures PureAnswers([TURN_MARKER] + ms)
  {
    assert !HasUse(TURN_MARKER);
    hide HasUse, OnlyResults;
    var all := [TURN_MARKER] + ms;
    forall i | 0 <= i < |all| - 1 && HasUse(all[i]) ensures OnlyResults(all[i + 1]) {
      assert i > 0 && all[i] == ms[i - 1] && all[i + 1] == ms[i];
    }
  }

  /** Compaction leaves pure answers pure. */
  lemma CompactionKeepsPure(
    codec: Codec, ms: seq<TurnMessage>, maxChars: int, keepRecent: int, result: seq<TurnMessage>, dropped: nat)
    requires TurnsCompacted(codec, ms, maxChars, keepRecent, result, dropped) && PureAnswers(ms)
    ensures PureAnswers(result)
  {
    hide *;
    TurnsCompactedCases(codec, ms, maxChars, keepRecent, result, dropped);
    if Total(TurnSize(codec), ms) > maxChars {
      PiecesPure(ms, keepRecent, dropped);
      MarkedPure(Flatten(TurnPieces(ms, keepRecent)[dropped..]));
    }
  }

  lemma PiecesPure(ms: seq<TurnMessage>, keepRecent: int, dropped: nat)
    requires PureAnswers(ms) && dropped <= Droppable(keepRecent, |TurnUnits(ms)|)
    ensures |TurnPieces(ms, keepRecent)| == |TurnUnits(ms)|
    ensures PureAnswers(Flatten(TurnPieces(ms, keepRecent)[dropped..]))
    ensures dropped == 0 ==> PureAnswers(Flatten(TurnPieces(ms, keepRecent)))
  {
    hide *;
    var units, pieces := TurnUnits(ms), TurnPieces(ms, keepRecent);
    TurnPiecesFrom(ms, keepRecent, dropped);
    LeftIsTail(ms, dropped);
    LeftMeans(ms, dropped);
    var left := TurnsLeft(ms, dropped);
    PureFrom(ms, |ms| - |left|);
    ShrunkUnitsPurity(units[dropped..], Droppable(keepRecent, |units|) - dropped);
    SamePurityPure(left, Flatten(pieces[dropped..]));
    assert pieces[0..] == pieces;
  }

  lemma PureFrom(ms: seq<TurnMessage>, from: nat)
    requires PureAnswers(ms) && from <= |ms|
    ensures PureAnswers(ms[from..])
  {
    hide HasUse, OnlyResults;
    var tail := ms[from..];
    forall i | 0 <= i < |tail| - 1 && HasUse(tail[i]) ensures OnlyResults(tail[i + 1]) {
      assert tail[i] == ms[from + i] && tail[i + 1] == ms[from + i + 1];
    }
  }

  /** The marker can stand next to another user message: two user messages touch exactly when the first one left is the user's. */
  lemma MarkerTouchesUser(
    codec: Codec, ms: seq<TurnMessage>, maxChars: int, keepRecent: int, result: seq<TurnMessage>, dropped: nat)
    requires TurnsCompacted(codec, ms, maxChars, keepRecent, result, dropped) && NoAdjacentUsers(ms)
    ensures dropped <= |TurnUnits(ms)|
    ensures NoAdjacentUsers(result) <==>
      !(dropped > 0 && TurnsLeft(ms, dropped) != [] && TurnsLeft(ms, dropped)[0].FromUser?)
  {
    var rest := TurnsCompactedParts(codec, ms, maxChars, keepRecent, result, dropped);
    LeftIsTail(ms, dropped);
    hide TurnsCompacted, TurnUnits, Flatten, TurnsLeft, UseIds, ResultIds;
    MarkedTail(ms, TurnsLeft(ms, dropped), rest, result, dropped);
  }

  lemma MarkedTail(ms: seq<TurnMessage>, left: seq<TurnMessage>, rest: seq<TurnMessage>, result: seq<TurnMessage>, dropped: nat)
    requires NoAdjacentUsers(ms) && |left| <= |ms| && ms[|ms| - |left|..] == left
    requires |rest| == |left| && forall i | 0 <= i < |left| :: left[i].FromUser? == rest[i].FromUser?
    requires result == if dropped == 0 then rest else [TURN_MARKER] + rest
    ensures NoAdjacentUsers(result) <==> !(dropped > 0 && left != [] && left[0].FromUser?)
  {
    assert forall i | 0 <= i < |left| :: left[i] == ms[|ms| - |left| + i];
    assert NoAdjacentUsers(rest);
    if dropped > 0 {
      assert forall i | 0 <= i < |rest| :: result[i + 1] == rest[i];
      if rest != [] && rest[0].FromUser? { assert result[0].FromUser? && result[0 + 1].FromUser?; }
    }
  }

  lemma LeftIsTail(ms: seq<TurnMessage>, dropped: nat)
    requires dropped <= |TurnUnits(ms)|
    ensures |TurnsLeft(ms, dropped)| <= |ms| && ms[|ms| - |TurnsLeft(ms, dropped)|..] == TurnsLeft(ms, dropped)
  {
    TurnUnitsConcat(ms);
    hide TurnUnits, Flatten;
    FlattenEnds([], TurnUnits(ms), 0, dropped, ms);
  }

  /** A note that joined the answer does orphan it: dropping the call leaves its result behind. */
  lemma MixedAnswerIsOrphaned(codec: Codec)
    returns (ms: seq<TurnMessage>, result: seq<TurnMessage>)
    ensures AnsweredTurns(ms) && !PureAnswers(ms)
    ensures TurnsCompacted(codec, ms, 0, 1, result, 1) && !AnsweredTurns(result)
  {
    var ask := FromAssistant([ToolUse("c", "f", Null)]);
    var answer := FromUser(Blocks([ResultBlock("c", "done", false), UserTextBlock("note")]));
    ms := [ask, answer];
    result := [TURN_MARKER, answer];
    MixedExample(ask, answer);
    assert TurnUnits(ms) == [[ask], [answer]] by { TurnUnitsStep(ms); TurnUnitsStep(ms[1..]); assert ms[1..] == [answer]; }
    MixedExampleCompacts(codec, ms, result, ask, answer);
  }

  lemma MixedExample(ask: TurnMessage, answer: TurnMessage)
    requires ask == FromAssistant([ToolUse("c", "f", Null)])
    requires answer == FromUser(Blocks([ResultBlock("c", "done", false), UserTextBlock("note")]))
    ensures AnsweredTurns([ask, answer]) && !PureAnswers([ask, answer])
    ensures !AnsweredTurns([TURN_MARKER, answer])
    ensures HasUse(ask) && !OnlyResults(answer) && !HasUse(answer)
  {
    var blocks := answer.content.blocks;
    assert UseIds(ask) == ["c"];
    assert ResultIdsIn(blocks[1..]) == [];
    assert ResultIds(answer) == ["c"];
    AnsweredPair(ask, answer);
    assert ask.blocks[0].ToolUse?;
    assert blocks[1].UserTextBlock?;
    OrphanFirst([answer]);
    MarkerAnswered();
    AnsweredAppend([TURN_MARKER], [answer]);
    assert [TURN_MARKER] + [answer] == [TURN_MARKER, answer];
    assert !PureAnswers([ask, answer]) by { assert HasUse([ask, answer][0]) && !OnlyResults([ask, answer][0 + 1]); }
  }

  lemma MixedExampleCompacts(codec: Codec, ms: seq<TurnMessage>, result: seq<TurnMessage>, ask: TurnMessage, answer: TurnMessage)
    requires ms == [ask, answer] && result == [TURN_MARKER, answer]
    requires TurnUnits(ms) == [[ask], [answer]]
    requires answer == FromUser(Blocks([ResultBlock("c", "done", false), UserTextBlock("note")]))
    requires ask.FromAssistant?
    ensures TurnsCompacted(codec, ms, 0, 1, result, 1)
  {
    var size := TurnSize(codec);
    var pieces := TurnPieces(ms, 1);
    hide TurnUnits;
    assert ShrunkTurnUnit([ask]) == [ask];
    assert pieces == [[ask], [answer]];
    assert Flatten(pieces[1..]) == [answer] by { FlattenCons([answer], []); assert pieces[1..] == [[answer]] + []; }
    assert Flatten(pieces) == ms by { FlattenCons([ask], pieces[1..]); assert pieces == [[ask]] + pieces[1..]; }
    assert size(answer) > 0;
    assert Total(size, [answer]) > 0 && Total(size, ms) > 0 by { assert ms[1..] == [answer]; }
    assert [] + ms == ms;
    assert !Fits(size, [], TURN_MARKER, pieces, 0, 0);
    assert [] + [TURN_MARKER] + [answer] == result;
  }
}
