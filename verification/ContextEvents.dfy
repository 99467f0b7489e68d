/**
  Reading event payloads, and choosing the events a model may see: everything
  after the last valid checkpoint, in log order.
 */
module ContextEvents {
  import opened JsonValue
  import opened Tables
  import opened Sorting

  // --------------------------------------------------------------- payloads

  predicate Space(c: char) {
    c == ' ' || '\t' <= c <= '\r' || '\U{1C}' <= c <= '\U{1F}' || c == '\U{85}' || c == '\U{A0}' || c == '\U{1680}'
    || '\U{2000}' <= c <= '\U{200A}' || c == '\U{2028}' || c == '\U{2029}' || c == '\U{202F}' || c == '\U{205F}' || c == '\U{3000}'
  }

  function StripLeft(s: string): string {
    if s != "" && Space(s[0]) then StripLeft(s[1..]) else s
  }

  function StripRight(s: string): string {
    if s != "" && Space(s[|s| - 1]) then StripRight(s[..|s| - 1]) else s
  }

  /** `str.strip()`. */
  function Strip(s: string): string {
    StripRight(StripLeft(s))
  }

  /** The first of `keys` that holds a non-blank text, stripped. */
  function FirstText(payload: Json, keys: seq<string>): string {
    if keys == [] then ""
    else if Strip(TextAt(payload, keys[0])) != "" then Strip(TextAt(payload, keys[0]))
    else FirstText(payload, keys[1..])
  }

  function CheckpointText(payload: Json): string {
    FirstText(payload, ["summary", "content", "text", "message"])
  }

  function NoteText(payload: Json): string {
    FirstText(payload, ["content", "text", "message"])
  }

  /** The text blocks of a list, joined. */
  function JoinTextBlocks(blocks: seq<Json>): string {
    if blocks == [] then ""
    else (if Get(blocks[0], "type") == Some(Str("text")) then TextAt(blocks[0], "text") else "") + JoinTextBlocks(blocks[1..])
  }

  function UserText(payload: Json): string {
    match Get(payload, "content")
    case Some(Str(s)) => s
    case Some(Arr(blocks)) => JoinTextBlocks(blocks)
    case _ => ""
  }

  /** `payload.get(first, payload.get(second))`: the second key counts only when the first is absent. */
  function EitherKey(payload: Json, first: string, second: string): Option<Json> {
    if Get(payload, first).Some? then Get(payload, first) else Get(payload, second)
  }

  function TextOf(value: Option<Json>): string {
    match value
    case Some(Str(s)) => s
    case _ => ""
  }

  function ToolCallId(payload: Json): string {
    TextOf(EitherKey(payload, "tool_call_id", "id"))
  }

  function ToolResultId(payload: Json): string {
    TextOf(EitherKey(payload, "tool_call_id", "tool_use_id"))
  }

  /** An integer in Python's sense, where a truth value is one too. */
  function AsInt(value: Option<Json>): Option<int> {
    match value
    case Some(Int(n)) => Some(n)
    case Some(Bool(b)) => Some(if b then 1 else 0)
    case _ => None
  }

  function Decimal(n: nat): string {
    var digit := ['0' + (n % 10) as char];
    if n < 10 then digit else Decimal(n / 10) + digit
  }

  function ShowText(codec: Codec, value: Json): string {
    if value.Str? then value.s else codec.show(value)
  }

  /** `str(payload.get(key) or other)`. */
  function TextOr(codec: Codec, payload: Json, key: string, other: string): string {
    match Get(payload, key)
    case Some(v) => if Truthy(v) then ShowText(codec, v) else other
    case None => other
  }

  // -------------------------------------------------------------- selection

  function KeyBySeq(events: seq<Event>): seq<Keyed<Event>> {
    if events == [] then []
    else [Keyed(events[0].seqNo, events[0].createdAt, events[0])] + KeyBySeq(events[1..])
  }

  /** The log order: by sequence number, then by time. */
  function InLogOrder(events: seq<Event>): seq<Event> {
    Items(Sort(KeyBySeq(events)))
  }

  /** The checkpoints that an invalidation event of the log names. */
  function InvalidatedIds(codec: Codec, events: seq<Event>): set<string> {
    set e | e in events && e.kind.CheckpointInvalidated?
      && Get(e.payload, "checkpoint_event_id").Some? && Truthy(Get(e.payload, "checkpoint_event_id").value)
      :: ShowText(codec, Get(e.payload, "checkpoint_event_id").value)
  }

  predicate ValidCheckpoint(e: Event, invalidated: set<string>) {
    && e.kind.ContextCheckpoint? && e.id !in invalidated
    && CheckpointText(e.payload) != "" && Get(e.payload, "valid") != Some(Bool(false))
  }

  predicate ModelVisible(e: Event, invalidated: set<string>) {
    match e.kind
    case UserMessage => true
    case AssistantMessage => true
    case ToolCall => true
    case ToolResult => true
    case ContextCheckpoint => ValidCheckpoint(e, invalidated)
    case SystemNote => e.visible
    case RecoveryNote => e.visible
    case _ => false
  }

  /** The last position below `n` that holds a valid checkpoint. */
  function LastCheckpoint(events: seq<Event>, invalidated: set<string>, n: nat): (r: Option<nat>)
    requires n <= |events|
    ensures r.Some? ==> r.value < n
  {
    if n == 0 then None
    else if ValidCheckpoint(events[n - 1], invalidated) then Some(n - 1)
    else LastCheckpoint(events, invalidated, n - 1)
  }

  lemma {:induction false} LastCheckpointMeans(events: seq<Event>, invalidated: set<string>, n: nat)
    requires n <= |events|
    ensures match LastCheckpoint(events, invalidated, n)
      case Some(i) =>
        ValidCheckpoint(events[i], invalidated) && forall j | i < j < n :: !ValidCheckpoint(events[j], invalidated)
      case None => forall j | 0 <= j < n :: !ValidCheckpoint(events[j], invalidated)
  {
    hide ValidCheckpoint;
    if n > 0 { LastCheckpointMeans(events, invalidated, n - 1); }
  }

  /** The events past the covered sequence number that are no checkpoint themselves. */
  function Retained(events: seq<Event>, covers: int): seq<Event> {
    if events == [] then []
    else if events[0].seqNo > covers && !events[0].kind.ContextCheckpoint? then [events[0]] + Retained(events[1..], covers)
    else Retained(events[1..], covers)
  }

  function VisibleOnly(events: seq<Event>, invalidated: set<string>): seq<Event> {
    if events == [] then []
    else if ModelVisible(events[0], invalidated) then [events[0]] + VisibleOnly(events[1..], invalidated)
    else VisibleOnly(events[1..], invalidated)
  }

  /** The log cut at its last valid checkpoint. */
  function CutAtCheckpoint(events: seq<Event>, invalidated: set<string>): seq<Event> {
    match LastCheckpoint(events, invalidated, |events|)
    case None => events
    case Some(i) =>
      match AsInt(Get(events[i].payload, "covers_through_seq"))
      case None => events[i..]
      case Some(covers) => [events[i]] + Retained(events, covers)
  }

  function SelectContext(codec: Codec, log: seq<Event>): seq<Event> {
    var ordered := InLogOrder(log);
    var invalidated := InvalidatedIds(codec, ordered);
    VisibleOnly(CutAtCheckpoint(ordered, invalidated), invalidated)
  }

  lemma {:induction false} RetainedAppend(a: seq<Event>, b: seq<Event>, covers: int)
    ensures Retained(a + b, covers) == Retained(a, covers) + Retained(b, covers)
  {
    if a == [] { assert a + b == b; }
    else {
      assert (a + b)[1..] == a[1..] + b;
      RetainedAppend(a[1..], b, covers);
    }
  }

  lemma {:induction false} VisibleAppend(a: seq<Event>, b: seq<Event>, invalidated: set<string>)
    ensures VisibleOnly(a + b, invalidated) == VisibleOnly(a, invalidated) + VisibleOnly(b, invalidated)
  {
    if a == [] { assert a + b == b; }
    else {
      assert (a + b)[1..] == a[1..] + b;
      VisibleAppend(a[1..], b, invalidated);
    }
  }

  lemma AppendOne<T>(xs: seq<T>, n: nat)
    requires n < |xs|
    ensures xs[..n + 1] == xs[..n] + [xs[n]]
  {
  }

  /** The scan for the checkpoint the selection starts from. */
  method FindCheckpoint(ordered: seq<Event>, invalidated: set<string>) returns (found: Option<nat>)
    ensures found == LastCheckpoint(ordered, invalidated, |ordered|)
  {
    found := None;
    for index := 0 to |ordered|
      invariant found == LastCheckpoint(ordered, invalidated, index)
    {
      var event := ordered[index];
      if event.kind.ContextCheckpoint? && event.id !in invalidated
        && CheckpointText(event.payload) != "" && Get(event.payload, "valid") != Some(Bool(false)) {
        found := Some(index);
      }
    }
  }

  method RetainAfter(ordered: seq<Event>, covers: int, checkpointIndex: nat) returns (retained: seq<Event>)
    requires checkpointIndex < |ordered| && ordered[checkpointIndex].kind.ContextCheckpoint?
    ensures retained == Retained(ordered, covers)
  {
    retained := [];
    for index := 0 to |ordered|
      invariant retained == Retained(ordered[..index], covers)
    {
      var event := ordered[index];
      AppendOne(ordered, index);
      RetainedAppend(ordered[..index], [event], covers);
      if event.seqNo > covers && index != checkpointIndex && !event.kind.ContextCheckpoint? {
        retained := retained + [event];
      }
    }
    assert ordered[..|ordered|] == ordered;
  }

  method KeepVisible(cut: seq<Event>, invalidated: set<string>) returns (selected: seq<Event>)
    ensures selected == VisibleOnly(cut, invalidated)
  {
    selected := [];
    for index := 0 to |cut|
      invariant selected == VisibleOnly(cut[..index], invalidated)
    {
      var event := cut[index];
      AppendOne(cut, index);
      VisibleAppend(cut[..index], [event], invalidated);
      if event.kind.ContextCheckpoint?
        && (CheckpointText(event.payload) == "" || Get(event.payload, "valid") == Some(Bool(false)) || event.id in invalidated) {
        continue;
      }
      if event.kind.UserMessage? || event.kind.AssistantMessage? || event.kind.ToolCall? || event.kind.ToolResult?
        || event.kind.ContextCheckpoint? {
        selected := selected + [event];
      } else if (event.kind.SystemNote? || event.kind.RecoveryNote?) && event.visible {
        selected := selected + [event];
      }
    }
    assert cut[..|cut|] == cut;
  }

  /** `select_context_events`. */
  method SelectContextEvents(codec: Codec, log: seq<Event>) returns (selected: seq<Event>)
    ensures selected == SelectContext(codec, log)
  {
    var ordered := InLogOrder(log);
    var invalidated := InvalidatedIds(codec, ordered);
    LastCheckpointMeans(ordered, invalidated, |ordered|);
    var checkpoint := FindCheckpoint(ordered, invalidated);
    var cut := ordered;
    if checkpoint.Some? {
      var covers := AsInt(Get(ordered[checkpoint.value].payload, "covers_through_seq"));
      if covers.Some? {
        var retained := RetainAfter(ordered, covers.value, checkpoint.value);
        cut := [ordered[checkpoint.value]] + retained;
      } else {
        cut := ordered[checkpoint.value..];
      }
    }
    selected := KeepVisible(cut, invalidated);
  }
}
