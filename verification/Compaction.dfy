/**
  Folding the oldest part of a transcript when it grows too large: bulky old
  payloads are cut, then whole units are dropped behind one marker message.
 */
module Compaction {
  import opened JsonValue
  import opened ProviderMessages

  // ------------------------------------------------------ dropping old units

  function Flatten<T>(units: seq<seq<T>>): seq<T> {
    if units == [] then [] else units[0] + Flatten(units[1..])
  }

  lemma {:induction false} FlattenAppend<T>(a: seq<seq<T>>, b: seq<seq<T>>)
    ensures Flatten(a + b) == Flatten(a) + Flatten(b)
  {
    if a == [] { assert a + b == b; }
    else {
      assert (a + b)[1..] == a[1..] + b;
      FlattenAppend(a[1..], b);
    }
  }

  lemma FlattenCons<T>(unit: seq<T>, units: seq<seq<T>>)
    ensures Flatten([unit] + units) == unit + Flatten(units)
  {
    assert ([unit] + units)[1..] == units;
  }

  function Total<T>(size: T -> nat, ms: seq<T>): nat {
    if ms == [] then 0 else size(ms[0]) + Total(size, ms[1..])
  }

  /** The transcript once the `dropped` oldest units have given way to one marker. */
  function Assembled<T>(head: seq<T>, marker: T, units: seq<seq<T>>, dropped: nat): seq<T>
    requires dropped <= |units|
  {
    if dropped == 0 then head + Flatten(units) else head + [marker] + Flatten(units[dropped..])
  }

  predicate Fits<T>(size: T -> nat, head: seq<T>, marker: T, units: seq<seq<T>>, dropped: nat, maxChars: int)
    requires dropped <= |units|
  {
    Total(size, Assembled(head, marker, units, dropped)) <= maxChars
  }

  /** No more units are dropped than needed, and never more than `most`. */
  ghost predicate LeastDrop<T>(
    size: T -> nat, head: seq<T>, marker: T, units: seq<seq<T>>, most: nat, maxChars: int, dropped: nat)
    requires most <= |units|
  {
    && dropped <= most
    && (dropped == most || Fits(size, head, marker, units, dropped, maxChars))
    && forall k | 0 <= k < dropped :: !Fits(size, head, marker, units, k, maxChars)
  }

  /** How many of the newest units stay untouched. */
  function Protected(keepRecent: int, units: nat): (r: nat)
    ensures 1 <= r && (1 <= units ==> r <= units)
  {
    var wanted := if keepRecent < units then keepRecent else units;
    if wanted < 1 then 1 else wanted
  }

  function Droppable(keepRecent: int, units: nat): (r: nat)
    ensures r <= units
  {
    if Protected(keepRecent, units) < units then units - Protected(keepRecent, units) else 0
  }

  /** The loop that pops the oldest unit until the transcript fits. */
  method DropOldest<T>(size: T -> nat, head: seq<T>, marker: T, all: seq<seq<T>>, protect: nat, maxChars: int)
    returns (result: seq<T>, markerInserted: bool)
    requires 1 <= protect
    ensures var most := if protect < |all| then |all| - protect else 0;
      var dropped := DropCount(size, head, marker, all, most, maxChars, 0);
      result == Assembled(head, marker, all, dropped) && (markerInserted <==> dropped > 0)
  {
    var units := all;
    ghost var dropped := 0;
    ghost var most := if protect < |all| then |all| - protect else 0;
    markerInserted := false;
    result := head + Flatten(units);
    hide Flatten, Total;
    while |units| > protect && Total(size, result) > maxChars
      invariant dropped <= |all| && units == all[dropped..]
      invariant dropped > 0 ==> |units| >= protect
      invariant result == Assembled(head, marker, all, dropped)
      invariant markerInserted <==> dropped > 0
      invariant forall k | 0 <= k < dropped :: !Fits(size, head, marker, all, k, maxChars)
      decreases |units|
    {
      assert !Fits(size, head, marker, all, dropped, maxChars);
      units := units[1..];
      dropped := dropped + 1;
      result := head + Flatten(units);
      result := result[..|head|] + [marker] + result[|head|..];
      markerInserted := true;
    }
    DropCountIsLeast(size, head, marker, all, most, maxChars, 0);
    LeastDropUnique(size, head, marker, all, most, maxChars, dropped, DropCount(size, head, marker, all, most, maxChars, 0));
  }

  /** How many units go: one more as long as the rest does not fit. */
  function DropCount<T>(size: T -> nat, head: seq<T>, marker: T, units: seq<seq<T>>, most: nat, maxChars: int, from: nat): (r: nat)
    requires from <= most <= |units|
    ensures r <= most
    decreases most - from
  {
    if from == most || Fits(size, head, marker, units, from, maxChars) then from
    else DropCount(size, head, marker, units, most, maxChars, from + 1)
  }

  lemma {:induction false} DropCountIsLeast<T>(
    size: T -> nat, head: seq<T>, marker: T, units: seq<seq<T>>, most: nat, maxChars: int, from: nat)
    requires from <= most <= |units|
    requires forall k | 0 <= k < from :: !Fits(size, head, marker, units, k, maxChars)
    ensures LeastDrop(size, head, marker, units, most, maxChars, DropCount(size, head, marker, units, most, maxChars, from))
    decreases most - from
  {
    hide Fits;
    if from < most && !Fits(size, head, marker, units, from, maxChars) {
      DropCountIsLeast(size, head, marker, units, most, maxChars, from + 1);
    }
  }

  /** There is exactly one least number of units to drop. */
  lemma LeastDropUnique<T>(
    size: T -> nat, head: seq<T>, marker: T, units: seq<seq<T>>, most: nat, maxChars: int, a: nat, b: nat)
    requires most <= |units|
    requires LeastDrop(size, head, marker, units, most, maxChars, a) && LeastDrop(size, head, marker, units, most, maxChars, b)
    ensures a == b
  {
  }

  // ----------------------------------------------------------- OpenAI units

  predicate AnswersOneOf(m: ChatMessage, ids: set<string>) {
    m.ToolMsg? && m.callId in ids
  }

  /** How many messages from the start answer one of `ids`. */
  function ToolRun(ms: seq<ChatMessage>, ids: set<string>): (n: nat)
    ensures n <= |ms|
  {
    if ms != [] && AnswersOneOf(ms[0], ids) then 1 + ToolRun(ms[1..], ids) else 0
  }

  function NamedIds(calls: seq<FunctionCall>): set<string> {
    set i | 0 <= i < |calls| && calls[i].id != "" :: calls[i].id
  }

  /** The first unit: a message, and behind a message with calls the run of its answers. */
  function UnitLength(ms: seq<ChatMessage>): (n: nat)
    requires ms != []
    ensures 1 <= n <= |ms|
  {
    1 + if CallsOf(ms[0]) == [] then 0 else ToolRun(ms[1..], NamedIds(CallsOf(ms[0])))
  }

  function ChatUnits(ms: seq<ChatMessage>): seq<seq<ChatMessage>>
    decreases |ms|
  {
    if ms == [] then [] else [ms[..UnitLength(ms)]] + ChatUnits(ms[UnitLength(ms)..])
  }

  /** The units are the input, cut into pieces. */
  lemma {:induction false} ChatUnitsConcat(ms: seq<ChatMessage>)
    ensures Flatten(ChatUnits(ms)) == ms
    decreases |ms|
  {
    if ms != [] {
      ChatUnitsStep(ms);
      hide ChatUnits, UnitLength, Flatten;
      ChatUnitsConcat(ms[UnitLength(ms)..]);
      FlattenCons(ms[..UnitLength(ms)], ChatUnits(ms[UnitLength(ms)..]));
    }
  }

  lemma {:induction false} ToolRunCovers(ms: seq<ChatMessage>, ids: set<string>, n: nat)
    requires n <= |ms|
    requires forall i | 0 <= i < n :: AnswersOneOf(ms[i], ids)
    requires n < |ms| ==> !AnswersOneOf(ms[n], ids)
    ensures ToolRun(ms, ids) == n
  {
    if n > 0 { ToolRunCovers(ms[1..], ids, n - 1); }
  }

  lemma ChatUnitsStep(ms: seq<ChatMessage>)
    requires ms != []
    ensures ChatUnits(ms) == [ms[..UnitLength(ms)]] + ChatUnits(ms[UnitLength(ms)..])
  {
  }

  /** One pass of the loop of `_openai_units`. */
  method UnitFrom(messages: seq<ChatMessage>, index: nat) returns (unit: seq<ChatMessage>, next: nat)
    requires index < |messages|
    ensures next == index + UnitLength(messages[index..]) <= |messages|
    ensures unit == messages[index..next]
  {
    var message := messages[index];
    unit, next := [message], index + 1;
    var calls := CallsOf(message);
    if calls == [] { return; }
    var callIds := NamedIds(calls);
    while next < |messages|
      invariant index < next <= |messages|
      invariant unit == messages[index..next]
      invariant forall i | index < i < next :: AnswersOneOf(messages[i], callIds)
    {
      var candidate := messages[next];
      if !(candidate.ToolMsg? && candidate.callId in callIds) { break; }
      unit := unit + [candidate];
      next := next + 1;
    }
    ToolRunCovers(messages[index..][1..], callIds, next - index - 1);
  }

  /** `_openai_units`. */
  method OpenAiUnits(messages: seq<ChatMessage>) returns (units: seq<seq<ChatMessage>>)
    ensures units == ChatUnits(messages)
  {
    units := [];
    var index := 0;
    hide *;
    while index < |messages|
      invariant index <= |messages|
      invariant units + ChatUnits(messages[index..]) == ChatUnits(messages)
    {
      var unit, next := UnitFrom(messages, index);
      ChatUnitsStep(messages[index..]);
      CutTwice(messages, index, next);
      units := units + [unit];
      index := next;
    }
    NothingLeft(messages, index);
  }

  lemma CutTwice<T>(xs: seq<T>, i: nat, j: nat)
    requires i <= j <= |xs|
    ensures xs[i..][..j - i] == xs[i..j] && xs[i..][j - i..] == xs[j..]
  {
  }

  lemma NothingLeft(ms: seq<ChatMessage>, index: nat)
    requires index == |ms|
    ensures ChatUnits(ms[index..]) == []
  {
  }

  /** In a well-formed transcript a unit is a message with exactly its answers. */
  ghost predicate Exchange(unit: seq<ChatMessage>) {
    unit != [] && WellFormed(unit) && |unit| == 1 + |CallsOf(unit[0])|
  }

  lemma AnswersAreNamed(block: seq<ChatMessage>, calls: seq<FunctionCall>)
    requires Answers(block, calls) && NamedCalls(calls)
    ensures |block| == |calls|
    ensures forall i | 0 <= i < |block| :: AnswersOneOf(block[i], NamedIds(calls))
  {
    assert |block| == |multiset(AnsweredIds(block))| == |multiset(CallIds(calls))| == |calls|;
    forall i | 0 <= i < |block| ensures AnswersOneOf(block[i], NamedIds(calls)) {
      assert AnsweredIds(block)[i] in multiset(CallIds(calls));
      var k :| 0 <= k < |calls| && CallIds(calls)[k] == AnsweredIds(block)[i];
    }
  }

  /** The first message of a well-formed transcript, its answers, and the rest. */
  lemma FormedParts(ms: seq<ChatMessage>)
    requires ms != [] && WellFormed(ms)
    ensures var n := |CallsOf(ms[0])|;
      && 1 + n <= |ms| && !ms[0].ToolMsg? && NamedCalls(CallsOf(ms[0]))
      && Answers(ms[1..1 + n], CallsOf(ms[0])) && WellFormed(ms[1 + n..])
    ensures WellFormed(ms[..1 + |CallsOf(ms[0])|])
  {
    var n := |CallsOf(ms[0])|;
    var unit := ms[..1 + n];
    assert unit[1..1 + n] == ms[1..1 + n] && unit[1 + n..] == [];
  }

  lemma FormedRun(ms: seq<ChatMessage>, calls: seq<FunctionCall>)
    requires |calls| < |ms| && Answers(ms[1..1 + |calls|], calls) && NamedCalls(calls)
    requires 1 + |calls| < |ms| ==> !ms[1 + |calls|].ToolMsg?
    ensures ToolRun(ms[1..], NamedIds(calls)) == |calls|
  {
    var n := |calls|;
    AnswersAreNamed(ms[1..1 + n], calls);
    hide Answers, NamedCalls, NamedIds, ToolRun;
    forall i | 0 <= i < n ensures AnswersOneOf(ms[1..][i], NamedIds(calls)) {
      assert ms[1..][i] == ms[1..1 + n][i];
    }
    ToolRunCovers(ms[1..], NamedIds(calls), n);
  }

  lemma FormedUnit(ms: seq<ChatMessage>)
    requires ms != [] && WellFormed(ms)
    ensures UnitLength(ms) == 1 + |CallsOf(ms[0])|
    ensures Exchange(ms[..UnitLength(ms)]) && WellFormed(ms[UnitLength(ms)..])
  {
    FormedParts(ms);
    var n := |CallsOf(ms[0])|;
    if 1 + n < |ms| { FormedParts(ms[1 + n..]); }
    hide WellFormed, Answers, NamedCalls, NamedIds, ToolRun;
    FormedRun(ms, CallsOf(ms[0]));
  }

  lemma {:induction false} FormedUnits(ms: seq<ChatMessage>)
    requires WellFormed(ms)
    ensures forall unit | unit in ChatUnits(ms) :: Exchange(unit)
    decreases |ms|
  {
    if ms != [] {
      hide WellFormed, UnitLength, Exchange;
      FormedUnit(ms);
      FormedUnits(ms[UnitLength(ms)..]);
    }
  }

  lemma {:induction false} FlattenFormed(units: seq<seq<ChatMessage>>)
    requires forall unit | unit in units :: WellFormed(unit)
    ensures WellFormed(Flatten(units))
  {
    if units != [] {
      FlattenFormed(units[1..]);
      FormedAppend(units[0], Flatten(units[1..]));
    }
  }

  // -------------------------------------------------------- OpenAI shrinking

  const SHRUNK_SUFFIX := "\n... (历史工具输出已压缩) ..."
  const MARKER := UserMsg("[系统] 更早的对话与工具输出已压缩，请基于剩余上下文继续。")

  function KeyList(keys: seq<string>): seq<Json> {
    if keys == [] then [] else [Str(keys[0])] + KeyList(keys[1..])
  }

  function FirstKeys(codec: Codec, arguments: string): seq<Json> {
    match codec.loads(arguments)
    case Some(Obj(fields)) =>
      var keys := codec.sortedKeys(Obj(fields));
      KeyList(if |keys| > 20 then keys[..20] else keys)
    case _ => []
  }

  function CompressedArguments(codec: Codec, arguments: string): string {
    codec.dumps(Obj(map["_compressed" := Bool(true), "original_chars" := Int(|arguments|), "keys" := Arr(FirstKeys(codec, arguments))]))
  }

  function ShrunkCall(codec: Codec, call: FunctionCall): FunctionCall {
    if |call.arguments| > 300 then call.(arguments := CompressedArguments(codec, call.arguments)) else call
  }

  function ShrunkCalls(codec: Codec, calls: seq<FunctionCall>): (r: seq<FunctionCall>)
  {
    seq(|calls|, i requires 0 <= i < |calls| => ShrunkCall(codec, calls[i]))
  }

  function Shortened(text: string): string {
    if |text| > 400 then text[..200] + SHRUNK_SUFFIX else text
  }

  function ShrunkMessage(codec: Codec, m: ChatMessage): ChatMessage {
    match m
    case ToolMsg(callId, output) => ToolMsg(callId, Shortened(output))
    case AssistantMsg(content, calls) => AssistantMsg(content, ShrunkCalls(codec, calls))
    case _ => m
  }

  function ShrunkUnit(codec: Codec, unit: seq<ChatMessage>): (r: seq<ChatMessage>)
  {
    seq(|unit|, i requires 0 <= i < |unit| => ShrunkMessage(codec, unit[i]))
  }

  /** The `aged` first units shrunk, the others as they are. */
  function ShrunkUnits(codec: Codec, units: seq<seq<ChatMessage>>, aged: nat): (r: seq<seq<ChatMessage>>)
  {
    seq(|units|, i requires 0 <= i < |units| => if i < aged then ShrunkUnit(codec, units[i]) else units[i])
  }

  /** `_shrink_openai_message`. */
  method ShrinkOpenAiMessage(codec: Codec, m: ChatMessage) returns (m': ChatMessage, changed: bool)
    ensures m' == ShrunkMessage(codec, m)
    ensures !changed ==> m' == m
  {
    m', changed := m, false;
    if m.ToolMsg? {
      if |m.output| > 400 {
        m', changed := ToolMsg(m.callId, m.output[..200] + SHRUNK_SUFFIX), true;
      }
    } else if m.AssistantMsg? {
      var newCalls: seq<FunctionCall> := [];
      for k := 0 to |m.calls|
        invariant |newCalls| == k
        invariant forall i | 0 <= i < k :: newCalls[i] == ShrunkCall(codec, m.calls[i])
        invariant !changed ==> forall i | 0 <= i < k :: newCalls[i] == m.calls[i]
      {
        var call := m.calls[k];
        if |call.arguments| > 300 {
          call := call.(arguments := CompressedArguments(codec, call.arguments));
          changed := true;
        }
        newCalls := newCalls + [call];
      }
      m' := AssistantMsg(m.content, newCalls);
    }
  }

  method ShrinkOpenAiUnit(codec: Codec, unit: seq<ChatMessage>) returns (unit': seq<ChatMessage>, changed: bool)
    ensures unit' == ShrunkUnit(codec, unit)
    ensures !changed ==> unit' == unit
  {
    unit', changed := unit, false;
    for k := 0 to |unit|
      invariant |unit'| == |unit|
      invariant forall i | 0 <= i < k :: unit'[i] == ShrunkMessage(codec, unit[i])
      invariant forall i | k <= i < |unit| :: unit'[i] == unit[i]
      invariant !changed ==> unit' == unit
    {
      var m, shrunk := ShrinkOpenAiMessage(codec, unit[k]);
      unit' := unit'[k := m];
      changed := changed || shrunk;
    }
  }

  /** Two transcripts with the same roles, call ids and answered ids. */
  ghost predicate SameShape(a: seq<ChatMessage>, b: seq<ChatMessage>) {
    && |a| == |b|
    && forall i | 0 <= i < |a| ::
         && a[i].ToolMsg? == b[i].ToolMsg?
         && (a[i].ToolMsg? ==> a[i].callId == b[i].callId)
         && CallIds(CallsOf(a[i])) == CallIds(CallsOf(b[i]))
  }

  lemma ShrinkingKeepsShape(codec: Codec, unit: seq<ChatMessage>)
    ensures SameShape(unit, ShrunkUnit(codec, unit))
  {
  }

  lemma SameShapeAnswers(a: seq<ChatMessage>, b: seq<ChatMessage>)
    requires SameShape(a, b)
    ensures AllTools(a) == AllTools(b) && AnsweredIds(a) == AnsweredIds(b)
  {
    assert forall i | 0 <= i < |a| :: AnsweredIds(a)[i] == AnsweredIds(b)[i];
  }

  lemma SameShapeHead(a: seq<ChatMessage>, b: seq<ChatMessage>)
    requires SameShape(a, b) && a != []
    ensures |CallsOf(a[0])| == |CallsOf(b[0])|
    ensures NamedCalls(CallsOf(a[0])) ==> NamedCalls(CallsOf(b[0]))
  {
    var calls, calls' := CallsOf(a[0]), CallsOf(b[0]);
    assert |calls| == |CallIds(calls)| == |CallIds(calls')| == |calls'|;
    forall i | 0 <= i < |calls| ensures calls'[i].id == calls[i].id {
      assert CallIds(calls)[i] == CallIds(calls')[i];
    }
  }

  lemma SameShapePart(a: seq<ChatMessage>, b: seq<ChatMessage>, i: nat, j: nat)
    requires SameShape(a, b) && i <= j <= |a|
    ensures SameShape(a[i..j], b[i..j]) && SameShape(a[i..], b[i..])
  {
  }

  /** Well-formedness sees nothing but the shape. */
  lemma {:induction false} SameShapeFormed(a: seq<ChatMessage>, b: seq<ChatMessage>)
    requires SameShape(a, b) && WellFormed(a)
    ensures WellFormed(b)
    decreases |a|
  {
    if a != [] {
      var k := 1 + |CallsOf(a[0])|;
      FormedParts(a);
      SameShapeHead(a, b);
      SameShapePart(a, b, 1, k);
      SameShapePart(a, b, k, k);
      SameShapeAnswers(a[1..k], b[1..k]);
      SameShapeFormed(a[k..], b[k..]);
      hide NamedCalls, AnsweredIds, CallIds, AllTools;
    }
  }

  // ------------------------------------------------------- OpenAI compaction

  function CallJson(call: FunctionCall): Json {
    Obj(map["id" := Str(call.id), "type" := Str("function"),
            "function" := Obj(map["name" := Str(call.name), "arguments" := Str(call.arguments)])])
  }

  function CallsJson(calls: seq<FunctionCall>): seq<Json> {
    if calls == [] then [] else [CallJson(calls[0])] + CallsJson(calls[1..])
  }

  /** One message's part of `estimate_message_chars`. */
  function ChatSize(codec: Codec): ChatMessage -> nat {
    (m: ChatMessage) =>
      match m
      case SystemMsg(text) => |text|
      case UserMsg(text) => |text|
      case ToolMsg(_, output) => |output|
      case AssistantMsg(content, calls) =>
        (if content.Some? then |content.value| else 0)
        + (if calls == [] then 0 else |codec.spaced(Arr(CallsJson(calls)))|)
  }

  function ChatHead(ms: seq<ChatMessage>): (head: seq<ChatMessage>)
    ensures head <= ms && |head| <= 1
  {
    if ms != [] && ms[0].SystemMsg? then [ms[0]] else []
  }

  function ChatBody(ms: seq<ChatMessage>): seq<ChatMessage> {
    ms[|ChatHead(ms)|..]
  }

  /** The units to choose from, the droppable ones already shrunk. */
  function ChatPieces(codec: Codec, ms: seq<ChatMessage>, keepRecent: int): (r: seq<seq<ChatMessage>>)
    ensures |r| == |ChatUnits(ChatBody(ms))|
  {
    var units := ChatUnits(ChatBody(ms));
    ShrunkUnits(codec, units, Droppable(keepRecent, |units|))
  }

  /** `result` is what compaction of `ms` gives. */
  ghost predicate ChatCompacted(
    codec: Codec, ms: seq<ChatMessage>, maxChars: int, keepRecent: int, result: seq<ChatMessage>, dropped: nat)
  {
    if Total(ChatSize(codec), ms) <= maxChars then result == ms && dropped == 0
    else
      var pieces := ChatPieces(codec, ms, keepRecent);
      && LeastDrop(ChatSize(codec), ChatHead(ms), MARKER, pieces, Droppable(keepRecent, |pieces|), maxChars, dropped)
      && result == Assembled(ChatHead(ms), MARKER, pieces, dropped)
  }

  /** How many units compaction of `ms` drops. */
  function ChatDropped(codec: Codec, ms: seq<ChatMessage>, maxChars: int, keepRecent: int): nat {
    if Total(ChatSize(codec), ms) <= maxChars then 0
    else
      var pieces := ChatPieces(codec, ms, keepRecent);
      DropCount(ChatSize(codec), ChatHead(ms), MARKER, pieces, Droppable(keepRecent, |pieces|), maxChars, 0)
  }

  /** `compact_openai_messages`. */
  method CompactOpenAiMessages(codec: Codec, messages: seq<ChatMessage>, maxChars: int, keepRecent: int)
    returns (result: seq<ChatMessage>, compacted: bool)
    ensures ChatCompacted(codec, messages, maxChars, keepRecent, result, ChatDropped(codec, messages, maxChars, keepRecent))
    ensures compacted <==>
      Total(ChatSize(codec), result) < Total(ChatSize(codec), messages) || ChatDropped(codec, messages, maxChars, keepRecent) > 0
  {
    var before := Total(ChatSize(codec), messages);
    if before <= maxChars { return messages, false; }
    var system := ChatHead(messages);
    var units := OpenAiUnits(messages[|system|..]);
    ghost var original := units;
    var protect := Protected(keepRecent, |units|);
    var aged := if protect < |units| then |units| - protect else 0;
    var changed := false;
    for k := 0 to aged
      invariant |units| == |original|
      invariant forall i | 0 <= i < k :: units[i] == ShrunkUnit(codec, original[i])
      invariant forall i | k <= i < |units| :: units[i] == original[i]
      invariant !changed ==> units == original
    {
      var unit, shrunk := ShrinkOpenAiUnit(codec, units[k]);
      units := units[k := unit];
      changed := changed || shrunk;
    }
    assert units == ChatPieces(codec, messages, keepRecent);
    var markerInserted;
    result, markerInserted := DropOldest(ChatSize(codec), system, MARKER, units, protect, maxChars);
    DropCountIsLeast(ChatSize(codec), system, MARKER, units, aged, maxChars, 0);
    changed := changed || markerInserted;
    var after := Total(ChatSize(codec), result);
    if after >= before && !changed {
      ChatUnitsConcat(ChatBody(messages));
      assert units[0..] == units && result == messages;
      return messages, false;
    }
    compacted := after < before || markerInserted;
  }

  lemma PiecesFormed(codec: Codec, ms: seq<ChatMessage>, keepRecent: int)
    requires WellFormed(ms)
    ensures WellFormed(ChatHead(ms))
    ensures forall unit | unit in ChatPieces(codec, ms, keepRecent) :: WellFormed(unit)
  {
    hide *;
    HeadFormed(ms);
    HeadAndUnits(ms);
    FormedAppend(ChatHead(ms), ChatBody(ms));
    FormedUnits(ChatBody(ms));
    var units := ChatUnits(ChatBody(ms));
    PiecesFrom(codec, ms, keepRecent, 0);
    assert ChatPieces(codec, ms, keepRecent)[0..] == ChatPieces(codec, ms, keepRecent) && units[0..] == units;
    ShrunkUnitsFormed(codec, units, Droppable(keepRecent, |units|));
  }

  lemma HeadFormed(ms: seq<ChatMessage>)
    ensures WellFormed(ChatHead(ms))
  {
    if ms != [] && ms[0].SystemMsg? { FormedPlain(ms[0]); }
  }

  lemma ShrunkUnitsFormed(codec: Codec, units: seq<seq<ChatMessage>>, aged: nat)
    requires forall unit | unit in units :: Exchange(unit)
    ensures forall unit | unit in ShrunkUnits(codec, units, aged) :: WellFormed(unit)
  {
    var pieces := ShrunkUnits(codec, units, aged);
    hide WellFormed;
    forall i | 0 <= i < |pieces| ensures WellFormed(pieces[i]) {
      assert units[i] in units;
      ShrinkingKeepsShape(codec, units[i]);
      SameShapeFormed(units[i], ShrunkUnit(codec, units[i]));
    }
  }

  /** What compaction leaves when the transcript was too large. */
  lemma CompactedParts(
    codec: Codec, ms: seq<ChatMessage>, maxChars: int, keepRecent: int, result: seq<ChatMessage>, dropped: nat)
    requires ChatCompacted(codec, ms, maxChars, keepRecent, result, dropped)
    ensures Total(ChatSize(codec), ms) <= maxChars ==> result == ms && dropped == 0
    ensures Total(ChatSize(codec), ms) > maxChars ==>
      && dropped <= Droppable(keepRecent, |ChatUnits(ChatBody(ms))|)
      && (dropped == 0 ==> result == ChatHead(ms) + Flatten(ChatPieces(codec, ms, keepRecent)))
      && (dropped > 0 ==> result == ChatHead(ms) + [MARKER] + Flatten(ChatPieces(codec, ms, keepRecent)[dropped..]))
      && (Total(ChatSize(codec), result) <= maxChars || dropped == Droppable(keepRecent, |ChatUnits(ChatBody(ms))|))
  {
  }

  lemma MarkerFormed()
    ensures WellFormed([MARKER])
  {
    FormedPlain(MARKER);
  }

  lemma MarkedFormed(head: seq<ChatMessage>, rest: seq<ChatMessage>)
    requires WellFormed(head) && WellFormed(rest)
    ensures WellFormed(head + [MARKER] + rest)
  {
    hide *;
    MarkerFormed();
    FormedAppend([MARKER], rest);
    FormedAppend(head, [MARKER] + rest);
    assert head + [MARKER] + rest == head + ([MARKER] + rest);
  }

  /** A well-formed transcript stays well-formed. */
  lemma CompactionKeepsFormed(
    codec: Codec, ms: seq<ChatMessage>, maxChars: int, keepRecent: int, result: seq<ChatMessage>, dropped: nat)
    requires WellFormed(ms) && ChatCompacted(codec, ms, maxChars, keepRecent, result, dropped)
    ensures WellFormed(result)
  {
    CompactedParts(codec, ms, maxChars, keepRecent, result, dropped);
    PiecesFormed(codec, ms, keepRecent);
    hide *;
    if Total(ChatSize(codec), ms) > maxChars {
      var pieces := ChatPieces(codec, ms, keepRecent);
      FlattenFormed(pieces);
      FlattenFormed(pieces[dropped..]);
      FormedAppend(ChatHead(ms), Flatten(pieces));
      MarkedFormed(ChatHead(ms), Flatten(pieces[dropped..]));
    }
  }

  /** The newest units, which compaction must leave alone. */
  function RecentChat(ms: seq<ChatMessage>, keepRecent: int): seq<ChatMessage> {
    var units := ChatUnits(ChatBody(ms));
    Flatten(units[Droppable(keepRecent, |units|)..])
  }

  lemma HeadAndUnits(ms: seq<ChatMessage>)
    ensures ms == ChatHead(ms) + ChatBody(ms) && Flatten(ChatUnits(ChatBody(ms))) == ChatBody(ms)
  {
    ChatUnitsConcat(ChatBody(ms));
  }

  lemma RecentIsUntouched(codec: Codec, ms: seq<ChatMessage>, keepRecent: int)
    ensures var units := ChatUnits(ChatBody(ms));
      var aged := Droppable(keepRecent, |units|);
      && ChatPieces(codec, ms, keepRecent)[aged..] == units[aged..]
      && RecentChat(ms, keepRecent) == Flatten(units[aged..])
  {
  }

  lemma PiecesFrom(codec: Codec, ms: seq<ChatMessage>, keepRecent: int, dropped: nat)
    requires dropped <= Droppable(keepRecent, |ChatUnits(ChatBody(ms))|)
    ensures ChatPieces(codec, ms, keepRecent)[dropped..]
      == ShrunkUnits(codec, ChatUnits(ChatBody(ms))[dropped..], Droppable(keepRecent, |ChatUnits(ChatBody(ms))|) - dropped)
  {
    var units := ChatUnits(ChatBody(ms));
    ShrunkFrom(codec, units, Droppable(keepRecent, |units|), dropped);
    hide ChatUnits, ShrunkUnits;
  }

  lemma ShrunkFrom(codec: Codec, units: seq<seq<ChatMessage>>, aged: nat, from: nat)
    requires from <= aged <= |units|
    ensures ShrunkUnits(codec, units, aged)[from..] == ShrunkUnits(codec, units[from..], aged - from)
  {
    var a, b := ShrunkUnits(codec, units, aged)[from..], ShrunkUnits(codec, units[from..], aged - from);
    hide ShrunkUnits, ShrunkUnit;
    assert forall i | 0 <= i < |a| :: a[i] == b[i];
  }

  /** The system prompt and the newest units are unchanged. */
  lemma CompactionKeepsRecent(
    codec: Codec, ms: seq<ChatMessage>, maxChars: int, keepRecent: int, result: seq<ChatMessage>, dropped: nat)
    requires ChatCompacted(codec, ms, maxChars, keepRecent, result, dropped)
    ensures ChatHead(ms) <= result
    ensures |RecentChat(ms, keepRecent)| <= |result|
    ensures result[|result| - |RecentChat(ms, keepRecent)|..] == RecentChat(ms, keepRecent)
  {
    hide *;
    CompactedParts(codec, ms, maxChars, keepRecent, result, dropped);
    RecentIsUntouched(codec, ms, keepRecent);
    HeadAndUnits(ms);
    var head, units, pieces := ChatHead(ms), ChatUnits(ChatBody(ms)), ChatPieces(codec, ms, keepRecent);
    var aged := Droppable(keepRecent, |units|);
    if Total(ChatSize(codec), ms) <= maxChars {
      FlattenEnds(head, units, 0, aged, ms);
    } else if dropped == 0 {
      FlattenEnds(head, pieces, 0, aged, result);
    } else {
      FlattenEnds(head + [MARKER], pieces, dropped, aged, result);
      assert head <= head + [MARKER];
    }
  }

  /** Either the result fits, or nothing but the system prompt, the marker and the newest units is left. */
  lemma CompactionFitsOrIsLeast(
    codec: Codec, ms: seq<ChatMessage>, maxChars: int, keepRecent: int, result: seq<ChatMessage>, dropped: nat)
    requires ChatCompacted(codec, ms, maxChars, keepRecent, result, dropped)
    ensures
      || Total(ChatSize(codec), result) <= maxChars
      || result == ChatHead(ms) + RecentChat(ms, keepRecent)
      || result == ChatHead(ms) + [MARKER] + RecentChat(ms, keepRecent)
  {
    hide *;
    CompactedParts(codec, ms, maxChars, keepRecent, result, dropped);
    RecentIsUntouched(codec, ms, keepRecent);
    var pieces := ChatPieces(codec, ms, keepRecent);
    assert pieces[0..] == pieces;
  }

  lemma FlattenEnds<T>(front: seq<T>, units: seq<seq<T>>, i: nat, j: nat, whole: seq<T>)
    requires i <= j <= |units| && whole == front + Flatten(if i == 0 then units else units[i..])
    ensures front <= whole && |Flatten(units[j..])| <= |whole|
    ensures whole[|whole| - |Flatten(units[j..])|..] == Flatten(units[j..])
  {
    hide *;
    assert units[0..] == units;
    FlattenSplit(units, i, j);
    EndsWith(front, Flatten(units[i..j]), Flatten(units[j..]), whole);
  }

  lemma EndsWith<T>(front: seq<T>, middle: seq<T>, back: seq<T>, whole: seq<T>)
    requires whole == front + (middle + back)
    ensures front <= whole && |back| <= |whole| && whole[|whole| - |back|..] == back
  {
    assert whole == (front + middle) + back;
  }

  lemma NothingToFlatten<T>(units: seq<seq<T>>)
    requires units == []
    ensures Flatten(units) == []
  {
  }

  lemma FlattenSplit<T>(units: seq<seq<T>>, i: nat, j: nat)
    requires i <= j <= |units|
    ensures Flatten(units[i..]) == Flatten(units[i..j]) + Flatten(units[j..])
  {
    FlattenAppend(units[i..j], units[j..]);
    assert units[i..] == units[i..j] + units[j..];
  }

  lemma {:induction false} ShrunkUnitsFlat(codec: Codec, units: seq<seq<ChatMessage>>, aged: nat)
    ensures |Flatten(ShrunkUnits(codec, units, aged))| == |Flatten(units)|
    ensures forall i | 0 <= i < |Flatten(units)| ::
      Flatten(ShrunkUnits(codec, units, aged))[i] in {Flatten(units)[i], ShrunkMessage(codec, Flatten(units)[i])}
  {
    if units != [] {
      var aged' := if aged > 0 then aged - 1 else 0;
      ShrunkUnitsFlat(codec, units[1..], aged');
      assert ShrunkUnits(codec, units, aged)[1..] == ShrunkUnits(codec, units[1..], aged');
    }
  }

  /** Past the marker the result is a stretch from the end of the input, each message kept or shrunk in place. */
  lemma CompactionKeepsOrder(
    codec: Codec, ms: seq<ChatMessage>, maxChars: int, keepRecent: int, result: seq<ChatMessage>, dropped: nat)
    returns (rest: seq<ChatMessage>)
    requires ChatCompacted(codec, ms, maxChars, keepRecent, result, dropped)
    ensures |rest| + |ChatHead(ms)| <= |ms|
    ensures dropped == 0 ==> |rest| + |ChatHead(ms)| == |ms|
    ensures dropped > 0 ==> |rest| + |ChatHead(ms)| < |ms|
    ensures result == if dropped == 0 then ChatHead(ms) + rest else ChatHead(ms) + [MARKER] + rest
    ensures var kept := ms[|ms| - |rest|..];
      forall i | 0 <= i < |rest| :: rest[i] in {kept[i], ShrunkMessage(codec, kept[i])}
  {
    hide *;
    CompactedParts(codec, ms, maxChars, keepRecent, result, dropped);
    HeadAndUnits(ms);
    var head, units, pieces := ChatHead(ms), ChatUnits(ChatBody(ms)), ChatPieces(codec, ms, keepRecent);
    if Total(ChatSize(codec), ms) <= maxChars {
      rest := ChatBody(ms);
    } else {
      var aged := Droppable(keepRecent, |units|);
      PiecesFrom(codec, ms, keepRecent, dropped);
      UnitsNotEmpty(ChatBody(ms));
      rest := Flatten(pieces[dropped..]);
      ShrunkUnitsFlat(codec, units[dropped..], aged - dropped);
      FlattenSplit(units, 0, dropped);
      var gone, kept := Flatten(units[0..dropped]), Flatten(units[dropped..]);
      assert ms == (head + gone) + kept by { assert units[0..] == units; }
      assert kept == ms[|ms| - |rest|..];
      if dropped == 0 {
        NothingToFlatten(units[0..dropped]);
        assert pieces[0..] == pieces;
      } else {
        assert units[0..dropped][0] == units[0] && units[0] in units;
        FirstIsNotEmpty(units[0..dropped]);
      }
    }
  }

  lemma FirstIsNotEmpty<T>(units: seq<seq<T>>)
    requires units != [] && units[0] != []
    ensures Flatten(units) != []
  {
  }

  lemma {:induction false} UnitsNotEmpty(ms: seq<ChatMessage>)
    ensures forall unit | unit in ChatUnits(ms) :: unit != []
    decreases |ms|
  {
    if ms != [] { UnitsNotEmpty(ms[UnitLength(ms)..]); }
  }

  // --------------------------------------------------------- the marker once

  /** The marker stands, if anywhere, right behind the system prompt. */
  ghost predicate MarkerFirst(ms: seq<ChatMessage>) {
    forall i | |ChatHead(ms)| < i < |ms| :: ms[i] != MARKER
  }

  lemma MarkerAtMostOnce(ms: seq<ChatMessage>)
    requires MarkerFirst(ms)
    ensures multiset(ms)[MARKER] <= 1
  {
    var h := |ChatHead(ms)|;
    if h < |ms| {
      assert ms == ms[..h] + [ms[h]] + ms[h + 1..];
      assert multiset(ms) == multiset(ms[..h]) + multiset{ms[h]} + multiset(ms[h + 1..]);
      assert MARKER !in ms[..h] && MARKER !in ms[h + 1..];
    }
  }

  lemma MarkerStaysFirst(codec: Codec, ms: seq<ChatMessage>, more: seq<ChatMessage>)
    requires ms != [] && MarkerFirst(ms) && MARKER !in more
    ensures MarkerFirst(ms + more)
  {
    forall i | |ChatHead(ms + more)| < i < |ms + more| ensures (ms + more)[i] != MARKER {
      if i >= |ms| { assert (ms + more)[i] == more[i - |ms|] && more[i - |ms|] in more; }
    }
  }

  /** However often a transcript is compacted, it never holds more than one marker. */
  lemma CompactionKeepsMarkerFirst(
    codec: Codec, ms: seq<ChatMessage>, maxChars: int, keepRecent: int, result: seq<ChatMessage>, dropped: nat)
    requires MarkerFirst(ms) && ChatCompacted(codec, ms, maxChars, keepRecent, result, dropped)
    ensures MarkerFirst(result)
  {
    var rest := CompactionKeepsOrder(codec, ms, maxChars, keepRecent, result, dropped);
    hide ChatCompacted, ShrunkMessage, MARKER;
    MarkerGoesFirst(codec, ms, result, dropped, rest);
  }

  lemma ShrinkingMakesNoMarker(codec: Codec, m: ChatMessage)
    ensures ShrunkMessage(codec, m) == MARKER <==> m == MARKER
    ensures ShrunkMessage(codec, m).SystemMsg? <==> m.SystemMsg?
  {
  }

  lemma MarkerGoesFirst(codec: Codec, ms: seq<ChatMessage>, result: seq<ChatMessage>, dropped: nat, rest: seq<ChatMessage>)
    requires MarkerFirst(ms) && |rest| + |ChatHead(ms)| <= |ms|
    requires dropped == 0 ==> |rest| + |ChatHead(ms)| == |ms| && result == ChatHead(ms) + rest
    requires dropped > 0 ==> |rest| + |ChatHead(ms)| < |ms| && result == ChatHead(ms) + [MARKER] + rest
    requires var kept := ms[|ms| - |rest|..];
      forall i | 0 <= i < |rest| :: rest[i] in {kept[i], ShrunkMessage(codec, kept[i])}
    ensures MarkerFirst(result)
  {
    hide ShrunkMessage;
    var gone := |ms| - |rest|;
    forall i | 0 <= i < |rest| ensures rest[i] == MARKER ==> ms[gone + i] == MARKER
      ensures rest[i].SystemMsg? ==> ms[gone + i].SystemMsg?
    {
      ShrinkingMakesNoMarker(codec, ms[gone + i]);
      assert ms[gone..][i] == ms[gone + i];
    }
  }
}
