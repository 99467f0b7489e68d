/**
  Compaction told message by message: what is measured, what stays, what old
  outputs and arguments are cut to, and which messages stand or fall together.
 */
module CompactionTexts {
  import opened JsonValue
  import opened ProviderMessages
  import opened Compaction
  import opened TurnCompaction

  // ------------------------------------------------------------------ the limit

  /** A transcript within the limit is left as it is. */
  lemma WithinLimitStays(codec: Codec, ms: seq<ChatMessage>, maxChars: int, keepRecent: int, result: seq<ChatMessage>)
    requires ChatCompacted(codec, ms, maxChars, keepRecent, result, ChatDropped(codec, ms, maxChars, keepRecent))
    requires Total(ChatSize(codec), ms) <= maxChars
    ensures result == ms && ChatDropped(codec, ms, maxChars, keepRecent) == 0
  {
    hide ChatPieces;
  }

  lemma TurnsWithinLimitStay(codec: Codec, ms: seq<TurnMessage>, maxChars: int, keepRecent: int, result: seq<TurnMessage>)
    requires TurnsCompacted(codec, ms, maxChars, keepRecent, result, TurnsDropped(codec, ms, maxChars, keepRecent))
    requires Total(TurnSize(codec), ms) <= maxChars
    ensures result == ms && TurnsDropped(codec, ms, maxChars, keepRecent) == 0
  {
    hide TurnPieces;
  }

  /** The right number of units gives way: one less would not fit, and the rest fits unless only the kept units are left. */
  ghost predicate RightDrop<T>(
    size: T -> nat, head: seq<T>, marker: T, units: seq<seq<T>>, keepRecent: int, maxChars: int, dropped: nat)
  {
    && dropped <= |units|
    && (forall k | 0 <= k < dropped :: Total(size, Assembled(head, marker, units, k)) > maxChars)
    && (|units| - dropped > Kept(keepRecent, |units|) ==> Total(size, Assembled(head, marker, units, dropped)) <= maxChars)
    && (|units| - dropped < Kept(keepRecent, |units|) ==> dropped == 0)
  }

  lemma DropIsRight<T>(size: T -> nat, head: seq<T>, marker: T, units: seq<seq<T>>, keepRecent: int, maxChars: int)
    ensures RightDrop(size, head, marker, units, keepRecent, maxChars,
                      DropCount(size, head, marker, units, Droppable(keepRecent, |units|), maxChars, 0))
  {
    var most := Droppable(keepRecent, |units|);
    var dropped := DropCount(size, head, marker, units, most, maxChars, 0);
    KeptIs(keepRecent, |units|);
    hide Total, Assembled, Droppable, Kept, DropCount;
    DropCountIsLeast(size, head, marker, units, most, maxChars, 0);
    forall k | 0 <= k < dropped ensures Total(size, Assembled(head, marker, units, k)) > maxChars {
      assert !Fits(size, head, marker, units, k, maxChars);
    }
  }

  /** Past the limit units are dropped until the rest fits or the kept ones are left. */
  lemma DroppedExactly(codec: Codec, ms: seq<ChatMessage>, maxChars: int, keepRecent: int)
    requires Total(ChatSize(codec), ms) > maxChars
    ensures RightDrop(ChatSize(codec), ChatHead(ms), MARKER, ChatPieces(codec, ms, keepRecent), keepRecent, maxChars,
                      ChatDropped(codec, ms, maxChars, keepRecent))
  {
    hide RightDrop, ChatSize, ChatPieces, ChatHead, DropCount, Droppable;
    DropIsRight(ChatSize(codec), ChatHead(ms), MARKER, ChatPieces(codec, ms, keepRecent), keepRecent, maxChars);
  }

  lemma TurnsDroppedExactly(codec: Codec, ms: seq<TurnMessage>, maxChars: int, keepRecent: int)
    requires Total(TurnSize(codec), ms) > maxChars
    ensures RightDrop(TurnSize(codec), [], TURN_MARKER, TurnPieces(ms, keepRecent), keepRecent, maxChars,
                      TurnsDropped(codec, ms, maxChars, keepRecent))
  {
    hide RightDrop, TurnSize, TurnPieces, DropCount, Droppable;
    DropIsRight(TurnSize(codec), [], TURN_MARKER, TurnPieces(ms, keepRecent), keepRecent, maxChars);
  }

  /** How many of the newest units are not touched: as many as asked for and there are, but at least one. */
  function Kept(keepRecent: int, units: nat): int {
    if keepRecent < 1 || units < 1 then 1 else if keepRecent < units then keepRecent else units
  }

  lemma KeptIs(keepRecent: int, units: nat)
    ensures Protected(keepRecent, units) == Kept(keepRecent, units)
    ensures Droppable(keepRecent, units) == if Kept(keepRecent, units) < units then units - Kept(keepRecent, units) else 0
  {
  }

  /** Exactly the units in front of the kept ones are shrunk, whether or not they are dropped after that. */
  lemma PiecesExactly(codec: Codec, ms: seq<ChatMessage>, keepRecent: int, i: nat)
    requires i < |ChatPieces(codec, ms, keepRecent)|
    ensures var units, pieces := ChatUnits(ChatBody(ms)), ChatPieces(codec, ms, keepRecent);
      && |units| == |pieces| && |units[i]| == |pieces[i]|
      && forall j | 0 <= j < |units[i]| ::
           if i < |units| - Kept(keepRecent, |units|) then CutDown(codec, units[i][j], pieces[i][j]) else pieces[i][j] == units[i][j]
  {
    var units, pieces := ChatUnits(ChatBody(ms)), ChatPieces(codec, ms, keepRecent);
    KeptIs(keepRecent, |units|);
    if i < |units| - Kept(keepRecent, |units|) {
      forall j | 0 <= j < |units[i]| ensures CutDown(codec, units[i][j], pieces[i][j]) { ShrunkIsCut(codec, units[i][j]); }
    }
    hide CutDown, ShrunkMessage;
  }

  // -------------------------------------------------------------- what is cut

  function CutText(text: string): string {
    if |text| <= 400 then text else text[..200] + "\n... (历史工具输出已压缩) ..."
  }

  /** The keys named in place of a long argument list: the first twenty of the object, in order. */
  ghost predicate NamesKeys(codec: Codec, arguments: string, keys: seq<Json>) {
    match codec.loads(arguments)
    case Some(Obj(fields)) =>
      var all := codec.sortedKeys(Obj(fields));
      && |keys| == (if |all| < 20 then |all| else 20)
      && forall i | 0 <= i < |keys| :: keys[i] == Str(all[i])
    case _ => keys == []
  }

  ghost predicate CutArguments(codec: Codec, arguments: string, cut: string) {
    if |arguments| <= 300 then cut == arguments
    else
      exists keys ::
        && NamesKeys(codec, arguments, keys)
        && cut == codec.dumps(Obj(map["_compressed" := Bool(true), "original_chars" := Int(|arguments|), "keys" := Arr(keys)]))
  }

  /** A message and what is left of it: a long output loses its end, long arguments give way to a note about them. */
  ghost predicate CutDown(codec: Codec, m: ChatMessage, m': ChatMessage) {
    match m
    case ToolMsg(id, output) => m' == ToolMsg(id, CutText(output))
    case AssistantMsg(content, calls) =>
      && m'.AssistantMsg? && m'.content == content && |m'.calls| == |calls|
      && forall i | 0 <= i < |calls| ::
           m'.calls[i].id == calls[i].id && m'.calls[i].name == calls[i].name
           && CutArguments(codec, calls[i].arguments, m'.calls[i].arguments)
    case _ => m' == m
  }

  lemma {:induction false} KeysListed(keys: seq<string>, i: nat)
    requires i < |keys|
    ensures |KeyList(keys)| == |keys| && KeyList(keys)[i] == Str(keys[i])
  {
    if i > 0 { KeysListed(keys[1..], i - 1); }
    KeyCount(keys);
  }

  lemma {:induction false} KeyCount(keys: seq<string>)
    ensures |KeyList(keys)| == |keys|
  {
    if keys != [] { KeyCount(keys[1..]); }
  }

  lemma KeysNamed(codec: Codec, arguments: string)
    ensures NamesKeys(codec, arguments, FirstKeys(codec, arguments))
  {
    match codec.loads(arguments)
    case Some(Obj(fields)) =>
      var all := codec.sortedKeys(Obj(fields));
      var first := if |all| > 20 then all[..20] else all;
      KeyCount(first);
      forall i | 0 <= i < |first| ensures KeyList(first)[i] == Str(all[i]) { KeysListed(first, i); }
      hide KeyList;
    case _ =>
  }

  lemma ArgumentsAreCut(codec: Codec, call: FunctionCall)
    ensures var call' := ShrunkCall(codec, call);
      call'.id == call.id && call'.name == call.name && CutArguments(codec, call.arguments, call'.arguments)
  {
    KeysNamed(codec, call.arguments);
    hide FirstKeys, NamesKeys;
  }

  /** Shrinking cuts a message down in just this way. */
  lemma ShrunkIsCut(codec: Codec, m: ChatMessage)
    ensures CutDown(codec, m, ShrunkMessage(codec, m))
  {
    if m.AssistantMsg? {
      forall i | 0 <= i < |m.calls| ensures CutArguments(codec, m.calls[i].arguments, ShrunkCalls(codec, m.calls)[i].arguments) {
        ArgumentsAreCut(codec, m.calls[i]);
      }
    }
    hide CutArguments, CompressedArguments;
  }

  /** In the Anthropic form results lose their end in the same way, and nothing else changes. */
  lemma BlocksAreCut(m: TurnMessage)
    ensures match m
      case FromUser(Blocks(blocks)) =>
        && ShrunkTurn(m).FromUser? && ShrunkTurn(m).content.Blocks? && |ShrunkTurn(m).content.blocks| == |blocks|
        && forall i | 0 <= i < |blocks| ::
             ShrunkTurn(m).content.blocks[i]
             == if blocks[i].ResultBlock? then blocks[i].(output := CutText(blocks[i].output)) else blocks[i]
      case _ => ShrunkTurn(m) == m
  {
  }

  // ------------------------------------------------- what stands or falls together

  /** The ids that a message's calls go by. */
  ghost predicate CallsId(m: ChatMessage, id: string) {
    m.AssistantMsg? && id != "" && exists i :: 0 <= i < |m.calls| && m.calls[i].id == id
  }

  lemma {:induction false} RunIs(ms: seq<ChatMessage>, ids: set<string>)
    ensures var n := ToolRun(ms, ids);
      && (forall i | 0 <= i < n :: ms[i].ToolMsg? && ms[i].callId in ids)
      && (n < |ms| ==> !(ms[n].ToolMsg? && ms[n].callId in ids))
  {
    if ms != [] && AnswersOneOf(ms[0], ids) { RunIs(ms[1..], ids); }
  }

  /** In any transcript the first unit is its first message with the run of answers to the calls of that message, and no more. */
  lemma FirstUnitIs(ms: seq<ChatMessage>)
    requires ms != []
    ensures ChatUnits(ms) != [] && ChatUnits(ms)[0] == ms[..UnitLength(ms)] && ChatUnits(ms)[1..] == ChatUnits(ms[UnitLength(ms)..])
    ensures forall i | 1 <= i < UnitLength(ms) :: ms[i].ToolMsg? && CallsId(ms[0], ms[i].callId)
    ensures UnitLength(ms) < |ms| ==> !(ms[UnitLength(ms)].ToolMsg? && CallsId(ms[0], ms[UnitLength(ms)].callId))
  {
    var ids := NamedIds(CallsOf(ms[0]));
    forall id ensures id in ids <==> CallsId(ms[0], id) { }
    RunIs(ms[1..], ids);
    hide NamedIds, CallsId, ToolRun;
  }

  // ------------------------------------------------------------- what is measured

  /** The length of a message: its text, and the text its calls are sent as. */
  lemma SizeIs(codec: Codec, m: ChatMessage) returns (list: seq<Json>)
    ensures ChatSize(codec)(m) ==
      match m
      case SystemMsg(text) => |text|
      case UserMsg(text) => |text|
      case ToolMsg(_, output) => |output|
      case AssistantMsg(content, calls) =>
        (if content.Some? then |content.value| else 0) + (if |calls| == 0 then 0 else |codec.spaced(Arr(list))|)
    ensures m.AssistantMsg? ==>
      && |list| == |m.calls|
      && forall i | 0 <= i < |list| ::
           && Get(list[i], "id") == Some(Str(m.calls[i].id)) && Get(list[i], "type") == Some(Str("function"))
           && Get(list[i], "function") == Some(Obj(map["name" := Str(m.calls[i].name), "arguments" := Str(m.calls[i].arguments)]))
           && list[i].fields.Keys == {"id", "type", "function"}
  {
    list := if m.AssistantMsg? then CallsJson(m.calls) else [];
    if m.AssistantMsg? {
      CallCount(m.calls);
      forall i | 0 <= i < |list| ensures list[i] == CallJson(m.calls[i]) { CallListed(m.calls, i); }
    }
    hide CallsJson;
  }

  lemma {:induction false} CallCount(calls: seq<FunctionCall>)
    ensures |CallsJson(calls)| == |calls|
  {
    if calls != [] { CallCount(calls[1..]); }
  }

  lemma {:induction false} CallListed(calls: seq<FunctionCall>, i: nat)
    requires i < |calls|
    ensures |CallsJson(calls)| == |calls| && CallsJson(calls)[i] == CallJson(calls[i])
  {
    CallCount(calls);
    if i > 0 { CallListed(calls[1..], i - 1); }
    hide CallJson;
  }
}
