/**
  Bringing the turns of the old format into the event log, and reading them back
  in the old format.
 */
module LegacyTurns {
  import opened JsonValue
  import opened Tables
  import opened Sorting
  import opened ContextEvents

  datatype LegacyTurn = LegacyTurn(index: nat, user: string, assistant: string, files: seq<Json>, at: Time)

  /** A turn row in the order of insertion, which is the order of its row id. */
  datatype TurnRow = TurnRow(turn: TurnId, at: Time)

  datatype Projected = Projected(user: string, assistant: string, files: seq<Json>, at: Time)

  /** Stable identifiers, redaction and the reading of number-like times, which the model does not look into. */
  datatype Tools = Tools(
    turnId: (ConversationId, nat) -> TurnId,
    eventId: (ConversationId, nat, EventKind) -> string,
    redact: string -> string,
    redactFiles: seq<Json> -> seq<Json>,
    time: Json -> Time)

  ghost predicate StableIds(tools: Tools) {
    forall c: ConversationId, i: nat, j: nat :: tools.turnId(c, i) == tools.turnId(c, j) ==> i == j
  }

  // ------------------------------------------------------------ normalisation

  function TextOrShown(codec: Codec, value: Option<Json>): string {
    match value
    case Some(v) => ShowText(codec, v)
    case None => ""
  }

  function Normalized(codec: Codec, tools: Tools, raw: Json, index: nat, base: Time): LegacyTurn {
    var ts := Get(raw, "ts");
    var files := Get(raw, "changed_files");
    LegacyTurn(
      index, TextOrShown(codec, Get(raw, "user")), TextOrShown(codec, Get(raw, "assistant")),
      if files.Some? && files.value.Arr? then files.value.items else [],
      if ts.Some? && (ts.value.Int? || ts.value.Float?) then tools.time(ts.value) else base + index)
  }

  function NormalizedUpTo(codec: Codec, tools: Tools, raw: seq<Json>, base: Time, n: nat): seq<LegacyTurn>
    requires n <= |raw|
  {
    if n == 0 then []
    else
      NormalizedUpTo(codec, tools, raw, base, n - 1) + if raw[n - 1].Obj? then [Normalized(codec, tools, raw[n - 1], n - 1, base)] else []
  }

  /** `_normalize_legacy_turns`: entries that are no objects are skipped but keep their index. */
  method NormalizeLegacyTurns(codec: Codec, tools: Tools, raw: seq<Json>, base: Time) returns (legacy: seq<LegacyTurn>)
    ensures legacy == NormalizedUpTo(codec, tools, raw, base, |raw|)
    ensures forall i, j | 0 <= i < j < |legacy| :: legacy[i].index < legacy[j].index
  {
    legacy := [];
    for n := 0 to |raw|
      invariant legacy == NormalizedUpTo(codec, tools, raw, base, n)
      invariant forall i | 0 <= i < |legacy| :: legacy[i].index < n
      invariant forall i, j | 0 <= i < j < |legacy| :: legacy[i].index < legacy[j].index
    {
      if !raw[n].Obj? { continue; }
      legacy := legacy + [Normalized(codec, tools, raw[n], n, base)];
    }
  }

  // ------------------------------------------------------------------ import

  function TextPart(text: string): Json {
    Obj(map["type" := Str("text"), "text" := Str(text)])
  }

  function UserPayload(tools: Tools, l: LegacyTurn): Json {
    Obj(map["content" := Arr([TextPart(tools.redact(l.user))]), "source" := Str("legacy"), "legacy_imported" := Bool(true)])
  }

  function AssistantPayload(tools: Tools, l: LegacyTurn): Json {
    Obj(map["text_blocks" := Arr([TextPart(tools.redact(l.assistant))]), "finish_reason" := Str("stop"), "is_final" := Bool(true),
            "streamed" := Bool(false), "legacy_imported" := Bool(true)])
  }

  function ChangesPayload(tools: Tools, l: LegacyTurn): Json {
    Obj(map["changed_files" := Arr(tools.redactFiles(l.files)), "legacy_imported" := Bool(true)])
  }

  function DonePayload(): Json {
    Obj(map["status" := Str("succeeded"), "legacy_imported" := Bool(true)])
  }

  function LegacyEvent(tools: Tools, c: ConversationId, l: LegacyTurn, seqNo: nat, kind: EventKind, visible: bool, payload: Json): Event {
    Event(tools.eventId(c, l.index, kind), c, tools.turnId(c, l.index), None, seqNo, kind, visible,
          Some(Legacy(c, l.index, kind)), payload, l.at)
  }

  /** The events of one legacy turn, numbered from `from`. */
  function EventsOf(tools: Tools, c: ConversationId, l: LegacyTurn, from: nat): seq<Event> {
    [LegacyEvent(tools, c, l, from, UserMessage, true, UserPayload(tools, l)),
     LegacyEvent(tools, c, l, from + 1, AssistantMessage, true, AssistantPayload(tools, l))]
    + (if l.files != [] then [LegacyEvent(tools, c, l, from + 2, Changes, true, ChangesPayload(tools, l)),
                              LegacyEvent(tools, c, l, from + 3, TurnCompleted, false, DonePayload())]
       else [LegacyEvent(tools, c, l, from + 2, TurnCompleted, false, DonePayload())])
  }

  function ImportedUpTo(tools: Tools, c: ConversationId, legacy: seq<LegacyTurn>, n: nat): seq<Event>
    requires n <= |legacy|
  {
    if n == 0 then []
    else
      var before := ImportedUpTo(tools, c, legacy, n - 1);
      before + EventsOf(tools, c, legacy[n - 1], |before| + 1)
  }

  function RowsFor(tools: Tools, c: ConversationId, legacy: seq<LegacyTurn>): seq<TurnRow> {
    seq(|legacy|, i requires 0 <= i < |legacy| => TurnRow(tools.turnId(c, legacy[i].index), legacy[i].at))
  }

  datatype Conversation = Conversation(rows: seq<TurnRow>, events: seq<Event>)

  /** `_migrate_legacy_conversation_turns` on one conversation: nothing once it has events. */
  function Migrated(tools: Tools, c: ConversationId, conversation: Conversation, legacy: seq<LegacyTurn>): Conversation {
    if conversation.events != [] || legacy == [] then conversation
    else Conversation(conversation.rows + RowsFor(tools, c, legacy), ImportedUpTo(tools, c, legacy, |legacy|))
  }

  /** `_import_legacy_turns`, behind the check that the conversation has no event yet. */
  method ImportLegacyTurns(tools: Tools, c: ConversationId, conversation: Conversation, legacy: seq<LegacyTurn>)
    returns (result: Conversation)
    ensures result == Migrated(tools, c, conversation, legacy)
  {
    if conversation.events != [] || legacy == [] { return conversation; }
    var rows: seq<TurnRow> := [];
    var events: seq<Event> := [];
    hide *;
    ImportEnds(tools, c, conversation, legacy);
    assert legacy[..0] == [] && legacy[..|legacy|] == legacy;
    for n := 0 to |legacy|
      invariant rows == RowsFor(tools, c, legacy[..n])
      invariant events == ImportedUpTo(tools, c, legacy, n)
    {
      var l := legacy[n];
      RowsOneMore(tools, c, legacy, n);
      ImportUnfold(tools, c, legacy, n + 1);
      rows := rows + [TurnRow(tools.turnId(c, l.index), l.at)];
      events := AppendTurn(tools, c, l, events);
    }
    return Conversation(conversation.rows + rows, events);
  }

  lemma ImportEnds(tools: Tools, c: ConversationId, conversation: Conversation, legacy: seq<LegacyTurn>)
    requires conversation.events == [] && legacy != []
    ensures RowsFor(tools, c, []) == [] && ImportedUpTo(tools, c, legacy, 0) == []
    ensures Migrated(tools, c, conversation, legacy)
      == Conversation(conversation.rows + RowsFor(tools, c, legacy), ImportedUpTo(tools, c, legacy, |legacy|))
  {
    hide EventsOf;
  }

  lemma RowsOneMore(tools: Tools, c: ConversationId, legacy: seq<LegacyTurn>, n: nat)
    requires n < |legacy|
    ensures RowsFor(tools, c, legacy[..n + 1])
      == RowsFor(tools, c, legacy[..n]) + [TurnRow(tools.turnId(c, legacy[n].index), legacy[n].at)]
  {
  }

  method AppendTurn(tools: Tools, c: ConversationId, l: LegacyTurn, before: seq<Event>) returns (events: seq<Event>)
    ensures events == before + EventsOf(tools, c, l, |before| + 1)
  {
    hide UserPayload, AssistantPayload, ChangesPayload, DonePayload, LegacyEvent;
    events := before;
    events := events + [LegacyEvent(tools, c, l, |events| + 1, UserMessage, true, UserPayload(tools, l))];
    events := events + [LegacyEvent(tools, c, l, |events| + 1, AssistantMessage, true, AssistantPayload(tools, l))];
    if l.files != [] {
      events := events + [LegacyEvent(tools, c, l, |events| + 1, Changes, true, ChangesPayload(tools, l))];
    }
    events := events + [LegacyEvent(tools, c, l, |events| + 1, TurnCompleted, false, DonePayload())];
  }

  // -------------------------------------------------------------- projection

  function AssistantTextOf(payload: Json): string {
    match Get(payload, "text_blocks")
    case Some(Arr(blocks)) => JoinTextBlocks(blocks)
    case _ => TextAt(payload, "text")
  }

  /** What reading the events of one turn has gathered. */
  datatype Reading = Reading(user: string, last: Option<Json>, lastFinal: Option<Json>, files: seq<Json>)

  function ReadEvent(r: Reading, e: Event): Reading {
    match e.kind
    case UserMessage => if Get(e.payload, "source") != Some(Str("task_message")) then r.(user := UserText(e.payload)) else r
    case AssistantMessage =>
      r.(last := Some(e.payload), lastFinal := if TrueAt(e.payload, "is_final") then Some(e.payload) else r.lastFinal)
    case Changes =>
      (match EitherKey(e.payload, "changed_files", "files")
       case Some(Arr(items)) => r.(files := items)
       case None => r.(files := [])
       case _ => r)
    case _ => r
  }

  function ReadUpTo(events: seq<Event>, turn: TurnId, n: nat): Reading
    requires n <= |events|
  {
    if n == 0 then Reading("", None, None, [])
    else
      var before := ReadUpTo(events, turn, n - 1);
      if events[n - 1].turn == turn then ReadEvent(before, events[n - 1]) else before
  }

  function Shown(r: Reading, at: Time): Projected {
    var selected := if r.lastFinal.Some? then r.lastFinal else r.last;
    Projected(r.user, if selected.Some? then AssistantTextOf(selected.value) else "", r.files, at)
  }

  function ByTime(rows: seq<TurnRow>): seq<Keyed<TurnRow>> {
    seq(|rows|, i requires 0 <= i < |rows| => Keyed(rows[i].at, i, rows[i]))
  }

  /** `ORDER BY created_at, rowid`. */
  function Ordered(rows: seq<TurnRow>): seq<TurnRow> {
    Items(Sort(ByTime(rows)))
  }

  function ProjectedRow(conversation: Conversation, row: TurnRow): Projected {
    Shown(ReadUpTo(conversation.events, row.turn, |conversation.events|), row.at)
  }

  function Projection(conversation: Conversation): seq<Projected> {
    var rows := Ordered(conversation.rows);
    seq(|rows|, i requires 0 <= i < |rows| => ProjectedRow(conversation, rows[i]))
  }

  /** `project_legacy_turns`; the events stand in the order of their numbers. */
  method ProjectLegacyTurns(conversation: Conversation) returns (projected: seq<Projected>)
    ensures projected == Projection(conversation)
  {
    var rows := Ordered(conversation.rows);
    projected := [];
    hide ReadEvent, Shown;
    for i := 0 to |rows|
      invariant |projected| == i
      invariant forall k | 0 <= k < i :: projected[k] == ProjectedRow(conversation, rows[k])
    {
      var r := Reading("", None, None, []);
      for n := 0 to |conversation.events|
        invariant r == ReadUpTo(conversation.events, rows[i].turn, n)
      {
        if conversation.events[n].turn == rows[i].turn { r := ReadEvent(r, conversation.events[n]); }
      }
      projected := projected + [Shown(r, rows[i].at)];
    }
  }

  // -------------------------------------------------------------- round trip

  lemma {:induction false} ReadAppend(a: seq<Event>, b: seq<Event>, turn: TurnId, n: nat)
    requires n <= |b|
    ensures ReadUpTo(a + b, turn, |a| + n) == ReadOn(ReadUpTo(a, turn, |a|), b, turn, n)
  {
    hide ReadEvent;
    if n == 0 {
      SamePrefix(a, b, turn, |a|);
    } else {
      ReadAppend(a, b, turn, n - 1);
    }
  }

  lemma {:induction false} SamePrefix(a: seq<Event>, b: seq<Event>, turn: TurnId, n: nat)
    requires n <= |a|
    ensures ReadUpTo(a + b, turn, n) == ReadUpTo(a, turn, n)
  {
    hide ReadEvent;
    if n > 0 { SamePrefix(a, b, turn, n - 1); }
  }

  function ReadOn(r: Reading, events: seq<Event>, turn: TurnId, n: nat): Reading
    requires n <= |events|
  {
    if n == 0 then r
    else
      var before := ReadOn(r, events, turn, n - 1);
      if events[n - 1].turn == turn then ReadEvent(before, events[n - 1]) else before
  }

  lemma {:induction false} ReadForeign(r: Reading, events: seq<Event>, turn: TurnId, n: nat)
    requires n <= |events| && forall i | 0 <= i < n :: events[i].turn != turn
    ensures ReadOn(r, events, turn, n) == r
  {
    if n > 0 { ReadForeign(r, events, turn, n - 1); }
  }

  function RedactedReading(tools: Tools, l: LegacyTurn): Reading {
    Reading(tools.redact(l.user), Some(AssistantPayload(tools, l)), Some(AssistantPayload(tools, l)),
            if l.files != [] then tools.redactFiles(l.files) else [])
  }

  lemma PayloadsRead(tools: Tools, l: LegacyTurn)
    ensures Get(UserPayload(tools, l), "source") != Some(Str("task_message"))
    ensures UserText(UserPayload(tools, l)) == tools.redact(l.user)
    ensures TrueAt(AssistantPayload(tools, l), "is_final")
    ensures AssistantTextOf(AssistantPayload(tools, l)) == tools.redact(l.assistant)
    ensures EitherKey(ChangesPayload(tools, l), "changed_files", "files") == Some(Arr(tools.redactFiles(l.files)))
  {
    UserPayloadReads(tools, l);
    AssistantPayloadReads(tools, l);
    ChangesPayloadReads(tools, l);
    hide *;
  }

  lemma UserPayloadReads(tools: Tools, l: LegacyTurn)
    ensures Get(UserPayload(tools, l), "source") != Some(Str("task_message"))
    ensures UserText(UserPayload(tools, l)) == tools.redact(l.user)
  {
    assert "legacy" != "task_message" by { assert "legacy"[0] != "task_message"[0]; }
    OnePart(tools.redact(l.user));
    hide JoinTextBlocks;
  }

  lemma AssistantPayloadReads(tools: Tools, l: LegacyTurn)
    ensures TrueAt(AssistantPayload(tools, l), "is_final")
    ensures AssistantTextOf(AssistantPayload(tools, l)) == tools.redact(l.assistant)
  {
    OnePart(tools.redact(l.assistant));
    hide JoinTextBlocks;
  }

  lemma ChangesPayloadReads(tools: Tools, l: LegacyTurn)
    ensures EitherKey(ChangesPayload(tools, l), "changed_files", "files") == Some(Arr(tools.redactFiles(l.files)))
  {
  }

  lemma OnePart(text: string)
    ensures JoinTextBlocks([TextPart(text)]) == text
  {
    assert [TextPart(text)][1..] == [];
    assert JoinTextBlocks([]) == "";
    assert text + "" == text;
  }

  lemma ReadOwn(tools: Tools, c: ConversationId, l: LegacyTurn, from: nat)
    ensures var events := EventsOf(tools, c, l, from);
      ReadOn(Reading("", None, None, []), events, tools.turnId(c, l.index), |events|) == RedactedReading(tools, l)
  {
    PayloadsRead(tools, l);
    hide UserPayload, AssistantPayload, ChangesPayload, DonePayload, UserText, AssistantTextOf, EitherKey;
    var events, turn := EventsOf(tools, c, l, from), tools.turnId(c, l.index);
    var r0 := Reading("", None, None, []);
    assert ReadOn(r0, events, turn, 1) == ReadEvent(r0, events[0]);
    assert ReadOn(r0, events, turn, 2) == ReadEvent(ReadOn(r0, events, turn, 1), events[1]);
    assert ReadOn(r0, events, turn, 3) == ReadEvent(ReadOn(r0, events, turn, 2), events[2]);
    if l.files != [] {
      assert ReadOn(r0, events, turn, 4) == ReadEvent(ReadOn(r0, events, turn, 3), events[3]);
    }
  }

  lemma EventsOfTurn(tools: Tools, c: ConversationId, l: LegacyTurn, from: nat)
    ensures var events := EventsOf(tools, c, l, from);
      forall i | 0 <= i < |events| ::
        events[i].turn == tools.turnId(c, l.index) && events[i].seqNo == from + i && events[i].conversation == c
  {
    hide UserPayload, AssistantPayload, ChangesPayload, DonePayload;
  }

  ghost predicate IndexesGrow(legacy: seq<LegacyTurn>) {
    forall i, j | 0 <= i < j < |legacy| :: legacy[i].index < legacy[j].index
  }

  /** What the imported log says about the turn at `k`, once `n` turns are in. */
  lemma {:induction false} ImportedReads(tools: Tools, c: ConversationId, legacy: seq<LegacyTurn>, n: nat, k: nat)
    requires n <= |legacy| && k < |legacy| && StableIds(tools) && IndexesGrow(legacy)
    ensures var events := ImportedUpTo(tools, c, legacy, n);
      ReadUpTo(events, tools.turnId(c, legacy[k].index), |events|)
      == if k < n then RedactedReading(tools, legacy[k]) else Reading("", None, None, [])
  {
    hide EventsOf, RedactedReading, ReadEvent;
    if n > 0 {
      var before, l, turn := ImportedUpTo(tools, c, legacy, n - 1), legacy[n - 1], tools.turnId(c, legacy[k].index);
      var more := EventsOf(tools, c, l, |before| + 1);
      ImportedReads(tools, c, legacy, n - 1, k);
      ReadAppend(before, more, turn, |more|);
      EventsOfTurn(tools, c, l, |before| + 1);
      hide ReadUpTo, ReadOn, ImportedUpTo;
      if k == n - 1 {
        ReadOwn(tools, c, l, |before| + 1);
      } else {
        assert tools.turnId(c, l.index) != turn by {
          if k < n - 1 { assert legacy[k].index < legacy[n - 1].index; } else { assert legacy[n - 1].index < legacy[k].index; }
        }
        ReadForeign(ReadUpTo(before, turn, |before|), more, turn, |more|);
      }
      ImportUnfold(tools, c, legacy, n);
    }
  }

  lemma ImportUnfold(tools: Tools, c: ConversationId, legacy: seq<LegacyTurn>, n: nat)
    requires 0 < n <= |legacy|
    ensures var before := ImportedUpTo(tools, c, legacy, n - 1);
      ImportedUpTo(tools, c, legacy, n) == before + EventsOf(tools, c, legacy[n - 1], |before| + 1)
  {
    hide EventsOf;
  }

  /** Numbered in order from `from`, all in one conversation. */
  ghost predicate Numbered(events: seq<Event>, c: ConversationId, from: nat) {
    forall i | 0 <= i < |events| :: events[i].seqNo == from + i && events[i].conversation == c
  }

  lemma NumberedOn(a: seq<Event>, b: seq<Event>, c: ConversationId)
    requires Numbered(a, c, 1) && Numbered(b, c, |a| + 1)
    ensures Numbered(a + b, c, 1)
  {
    var all := a + b;
    forall i | 0 <= i < |all| ensures all[i].seqNo == 1 + i && all[i].conversation == c {
      if i >= |a| { assert all[i] == b[i - |a|]; }
    }
  }

  /** The imported log is numbered from 1 without gaps. */
  lemma {:induction false} ImportIsDense(tools: Tools, c: ConversationId, legacy: seq<LegacyTurn>, n: nat)
    requires n <= |legacy|
    ensures Numbered(ImportedUpTo(tools, c, legacy, n), c, 1)
  {
    hide EventsOf;
    if n > 0 {
      var before := ImportedUpTo(tools, c, legacy, n - 1);
      ImportIsDense(tools, c, legacy, n - 1);
      EventsOfTurn(tools, c, legacy[n - 1], |before| + 1);
      NumberedOn(before, EventsOf(tools, c, legacy[n - 1], |before| + 1), c);
      ImportUnfold(tools, c, legacy, n);
    }
  }

  /** A legacy turn as it reads after the round trip: redacted, but otherwise itself. */
  function Original(tools: Tools, l: LegacyTurn): Projected {
    Projected(tools.redact(l.user), tools.redact(l.assistant), if l.files != [] then tools.redactFiles(l.files) else [], l.at)
  }

  function LegacyByTime(legacy: seq<LegacyTurn>): seq<Keyed<LegacyTurn>> {
    seq(|legacy|, i requires 0 <= i < |legacy| => Keyed(legacy[i].at, i, legacy[i]))
  }

  /** The legacy turns in stable order of their timestamps. */
  function StableByTime(legacy: seq<LegacyTurn>): seq<LegacyTurn> {
    Items(Sort(LegacyByTime(legacy)))
  }

  lemma {:induction false} InsertSame<A, B>(x: Keyed<A>, y: Keyed<B>, xs: seq<Keyed<A>>, ys: seq<Keyed<B>>, f: A -> B)
    requires |xs| == |ys| && y == Keyed(x.major, x.minor, f(x.item))
    requires forall i | 0 <= i < |xs| :: ys[i] == Keyed(xs[i].major, xs[i].minor, f(xs[i].item))
    ensures |Insert(x, xs)| == |Insert(y, ys)|
    ensures forall i | 0 <= i < |Insert(x, xs)| ::
      Insert(y, ys)[i] == Keyed(Insert(x, xs)[i].major, Insert(x, xs)[i].minor, f(Insert(x, xs)[i].item))
  {
    if xs != [] && !Leq(x, xs[0]) {
      assert forall i | 0 <= i < |xs[1..]| :: xs[1..][i] == xs[i + 1] && ys[1..][i] == ys[i + 1];
      InsertSame(x, y, xs[1..], ys[1..], f);
    }
  }

  /** Sorting looks at the keys only. */
  lemma {:induction false} SortSame<A, B>(xs: seq<Keyed<A>>, ys: seq<Keyed<B>>, f: A -> B)
    requires |xs| == |ys| && forall i | 0 <= i < |xs| :: ys[i] == Keyed(xs[i].major, xs[i].minor, f(xs[i].item))
    ensures |Sort(xs)| == |Sort(ys)|
    ensures forall i | 0 <= i < |Sort(xs)| :: Sort(ys)[i] == Keyed(Sort(xs)[i].major, Sort(xs)[i].minor, f(Sort(xs)[i].item))
  {
    if xs != [] {
      assert forall i | 0 <= i < |xs[1..]| :: xs[1..][i] == xs[i + 1] && ys[1..][i] == ys[i + 1];
      SortSame(xs[1..], ys[1..], f);
      hide Insert;
      InsertSame(xs[0], ys[0], Sort(xs[1..]), Sort(ys[1..]), f);
    }
  }

  function RowFor(tools: Tools, c: ConversationId): LegacyTurn -> TurnRow {
    (l: LegacyTurn) => TurnRow(tools.turnId(c, l.index), l.at)
  }

  lemma RowsSortAlike(tools: Tools, c: ConversationId, legacy: seq<LegacyTurn>)
    ensures |StableByTime(legacy)| == |legacy| == |Ordered(RowsFor(tools, c, legacy))|
    ensures forall i | 0 <= i < |legacy| :: Ordered(RowsFor(tools, c, legacy))[i] == RowFor(tools, c)(StableByTime(legacy)[i])
    ensures forall l :: l in StableByTime(legacy) <==> l in legacy
  {
    var xs, ys := LegacyByTime(legacy), ByTime(RowsFor(tools, c, legacy));
    SortSame(xs, ys, RowFor(tools, c));
    SameMembers(xs);
    hide Sort, RowFor;
    forall l ensures l in StableByTime(legacy) <==> l in legacy {
      SortedMembers(legacy, l);
    }
  }

  lemma SortedMembers(legacy: seq<LegacyTurn>, l: LegacyTurn)
    ensures l in StableByTime(legacy) <==> l in legacy
  {
    var xs := LegacyByTime(legacy);
    var sorted := Sort(xs);
    SameMembers(xs);
    hide Sort;
    if l in legacy {
      var i :| 0 <= i < |legacy| && legacy[i] == l;
      assert xs[i] in xs && xs[i] in sorted;
      var k :| 0 <= k < |sorted| && sorted[k] == xs[i];
      assert Items(sorted)[k] == l;
    }
    if l in Items(sorted) {
      var k :| 0 <= k < |sorted| && Items(sorted)[k] == l;
      assert sorted[k] in sorted && sorted[k] in xs;
    }
  }

  /**
    Round trip: importing legacy turns into an empty conversation and projecting
    them back gives each turn's user text, assistant text, changed files and
    timestamp, redacted, as a stable sort by timestamp.
   */
  lemma RoundTrip(tools: Tools, c: ConversationId, legacy: seq<LegacyTurn>)
    requires StableIds(tools) && IndexesGrow(legacy) && legacy != []
    ensures var projected := Projection(Migrated(tools, c, Conversation([], []), legacy));
      && |projected| == |legacy|
      && forall i | 0 <= i < |legacy| :: |StableByTime(legacy)| == |legacy| && projected[i] == Original(tools, StableByTime(legacy)[i])
  {
    var imported := Migrated(tools, c, Conversation([], []), legacy);
    assert [] + RowsFor(tools, c, legacy) == RowsFor(tools, c, legacy);
    RowsSortAlike(tools, c, legacy);
    hide RowsFor, ImportedUpTo, Ordered, StableByTime, ReadUpTo, Original;
    assert |Projection(imported)| == |legacy|;
    forall i | 0 <= i < |legacy| ensures Projection(imported)[i] == Original(tools, StableByTime(legacy)[i]) {
      assert StableByTime(legacy)[i] in StableByTime(legacy);
      var k :| 0 <= k < |legacy| && legacy[k] == StableByTime(legacy)[i];
      ImportedReads(tools, c, legacy, |legacy|, k);
      ShownIsOriginal(tools, legacy[k]);
    }
  }

  lemma ShownIsOriginal(tools: Tools, l: LegacyTurn)
    ensures Shown(RedactedReading(tools, l), l.at) == Original(tools, l)
  {
    PayloadsRead(tools, l);
    hide AssistantPayload, AssistantTextOf;
  }

  /** A later migration adds nothing, whatever the old turns say by then and whatever joined the conversation since. */
  lemma SecondMigrationAddsNothing(
    tools: Tools, c: ConversationId, conversation: Conversation, legacy: seq<LegacyTurn>, grown: Conversation, again: seq<LegacyTurn>)
    requires legacy != [] && Migrated(tools, c, conversation, legacy).events <= grown.events
    ensures Migrated(tools, c, grown, again) == grown
  {
    hide RowsFor;
    if conversation.events == [] {
      var n := |legacy|;
      assert |EventsOf(tools, c, legacy[n - 1], |ImportedUpTo(tools, c, legacy, n - 1)| + 1)| > 0;
    }
  }

  // ------------------------------------------------------------ word for word

  /** `s` is what the old entry has under `key`: a text as it is, another value as text, nothing when absent. */
  ghost predicate ReadsText(codec: Codec, raw: Json, key: string, s: string) {
    match Get(raw, key)
    case Some(Str(t)) => s == t
    case Some(v) => s == codec.show(v)
    case None => s == ""
  }

  ghost predicate EntryReads(codec: Codec, tools: Tools, raw: Json, index: nat, base: Time, l: LegacyTurn) {
    && l.index == index && ReadsText(codec, raw, "user", l.user) && ReadsText(codec, raw, "assistant", l.assistant)
    && (forall xs | Get(raw, "changed_files") == Some(Arr(xs)) :: l.files == xs)
    && ((forall xs: seq<Json> :: Get(raw, "changed_files") != Some(Arr(xs))) ==> l.files == [])
    && (forall n | Get(raw, "ts") == Some(Int(n)) :: l.at == tools.time(Int(n)))
    && (forall r | Get(raw, "ts") == Some(Float(r)) :: l.at == tools.time(Float(r)))
    && (Get(raw, "ts").None? || (!Get(raw, "ts").value.Int? && !Get(raw, "ts").value.Float?) ==> l.at == base + index)
  }

  lemma NormalizedReads(codec: Codec, tools: Tools, raw: Json, index: nat, base: Time)
    ensures EntryReads(codec, tools, raw, index, base, Normalized(codec, tools, raw, index, base))
  {
  }

  /** Every entry that is an object becomes one turn, read field by field, and nothing else becomes one. */
  lemma {:induction false} EntriesAreRead(codec: Codec, tools: Tools, raw: seq<Json>, base: Time, n: nat)
    requires n <= |raw|
    ensures forall i | 0 <= i < n && raw[i].Obj? ::
      exists l :: l in NormalizedUpTo(codec, tools, raw, base, n) && EntryReads(codec, tools, raw[i], i, base, l)
    ensures forall l | l in NormalizedUpTo(codec, tools, raw, base, n) ::
      l.index < n && raw[l.index].Obj? && EntryReads(codec, tools, raw[l.index], l.index, base, l)
  {
    hide EntryReads, Normalized;
    if n > 0 {
      EntriesAreRead(codec, tools, raw, base, n - 1);
      NormalizedReads(codec, tools, raw[n - 1], n - 1, base);
      IndexKept(codec, tools, raw[n - 1], n - 1, base);
      var before, after := NormalizedUpTo(codec, tools, raw, base, n - 1), NormalizedUpTo(codec, tools, raw, base, n);
      forall i | 0 <= i < n && raw[i].Obj? ensures exists l :: l in after && EntryReads(codec, tools, raw[i], i, base, l) {
        if i < n - 1 {
          var l :| l in before && EntryReads(codec, tools, raw[i], i, base, l);
          assert l in after;
        } else {
          assert Normalized(codec, tools, raw[i], i, base) in after;
        }
      }
    }
  }

  lemma IndexKept(codec: Codec, tools: Tools, raw: Json, index: nat, base: Time)
    ensures Normalized(codec, tools, raw, index, base).index == index
  {
  }

  /** The content of a message with a single text. */
  function OneText(text: string): Json {
    Arr([Obj(map["type" := Str("text"), "text" := Str(text)])])
  }

  ghost predicate OfLegacy(tools: Tools, c: ConversationId, l: LegacyTurn, e: Event) {
    e.conversation == c && e.turn == tools.turnId(c, l.index) && e.createdAt == l.at
  }

  ghost predicate IsPrompt(tools: Tools, l: LegacyTurn, e: Event) {
    e.kind.UserMessage? && e.visible && Get(e.payload, "content") == Some(OneText(tools.redact(l.user)))
    && Get(e.payload, "source") == Some(Str("legacy")) && Get(e.payload, "legacy_imported") == Some(Bool(true))
  }

  ghost predicate IsAnswer(tools: Tools, l: LegacyTurn, e: Event) {
    e.kind.AssistantMessage? && e.visible && Get(e.payload, "text_blocks") == Some(OneText(tools.redact(l.assistant)))
    && Get(e.payload, "is_final") == Some(Bool(true)) && Get(e.payload, "finish_reason") == Some(Str("stop"))
    && Get(e.payload, "streamed") == Some(Bool(false)) && Get(e.payload, "legacy_imported") == Some(Bool(true))
  }

  ghost predicate IsChanges(tools: Tools, l: LegacyTurn, e: Event) {
    e.kind.Changes? && e.visible && Get(e.payload, "changed_files") == Some(Arr(tools.redactFiles(l.files)))
    && Get(e.payload, "legacy_imported") == Some(Bool(true))
  }

  ghost predicate IsEnd(e: Event) {
    e.kind.TurnCompleted? && !e.visible && Get(e.payload, "status") == Some(Str("succeeded"))
    && Get(e.payload, "legacy_imported") == Some(Bool(true))
  }

  /** The events of one old turn: the prompt, the final answer, the changes if there were any, and a successful end. */
  ghost predicate TellsTurn(tools: Tools, c: ConversationId, l: LegacyTurn, events: seq<Event>) {
    var n := if l.files == [] then 3 else 4;
    && |events| == n && (forall e | e in events :: OfLegacy(tools, c, l, e))
    && IsPrompt(tools, l, events[0]) && IsAnswer(tools, l, events[1]) && IsEnd(events[n - 1])
    && (n == 4 ==> IsChanges(tools, l, events[2]))
  }

  lemma EventsTellTurn(tools: Tools, c: ConversationId, l: LegacyTurn, from: nat)
    ensures TellsTurn(tools, c, l, EventsOf(tools, c, l, from))
  {
    UserPayloadFields(tools, l);
    AnswerPayloadFields(tools, l);
    OtherPayloadFields(tools, l);
    hide UserPayload, AssistantPayload, ChangesPayload, DonePayload;
  }

  lemma UserPayloadFields(tools: Tools, l: LegacyTurn)
    ensures Get(UserPayload(tools, l), "content") == Some(OneText(tools.redact(l.user)))
    ensures Get(UserPayload(tools, l), "source") == Some(Str("legacy"))
    ensures Get(UserPayload(tools, l), "legacy_imported") == Some(Bool(true))
  {
    assert |"content"| == 7 && |"source"| == 6 && |"legacy_imported"| == 15;
  }

  lemma AnswerPayloadFields(tools: Tools, l: LegacyTurn)
    ensures Get(AssistantPayload(tools, l), "text_blocks") == Some(OneText(tools.redact(l.assistant)))
    ensures Get(AssistantPayload(tools, l), "is_final") == Some(Bool(true))
    ensures Get(AssistantPayload(tools, l), "finish_reason") == Some(Str("stop"))
    ensures Get(AssistantPayload(tools, l), "streamed") == Some(Bool(false))
    ensures Get(AssistantPayload(tools, l), "legacy_imported") == Some(Bool(true))
  {
    assert |"text_blocks"| == 11 && |"finish_reason"| == 13 && |"legacy_imported"| == 15;
    assert |"is_final"| == 8 && |"streamed"| == 8 && "is_final"[0] != "streamed"[0];
  }

  lemma OtherPayloadFields(tools: Tools, l: LegacyTurn)
    ensures Get(ChangesPayload(tools, l), "changed_files") == Some(Arr(tools.redactFiles(l.files)))
    ensures Get(ChangesPayload(tools, l), "legacy_imported") == Some(Bool(true))
    ensures Get(DonePayload(), "status") == Some(Str("succeeded")) && Get(DonePayload(), "legacy_imported") == Some(Bool(true))
  {
    assert |"changed_files"| == 13 && |"legacy_imported"| == 15 && |"status"| == 6;
  }

  /** The imported log tells the old turns one after the other. */
  lemma {:induction false} ImportTells(tools: Tools, c: ConversationId, legacy: seq<LegacyTurn>, n: nat, k: nat) returns (at: nat, end: nat)
    requires k < n <= |legacy|
    ensures at <= end <= |ImportedUpTo(tools, c, legacy, n)|
    ensures TellsTurn(tools, c, legacy[k], ImportedUpTo(tools, c, legacy, n)[at..end])
    ensures at == |ImportedUpTo(tools, c, legacy, k)|
    decreases n
  {
    hide TellsTurn, EventsOf;
    ImportUnfold(tools, c, legacy, n);
    var before := ImportedUpTo(tools, c, legacy, n - 1);
    var own := EventsOf(tools, c, legacy[n - 1], |before| + 1);
    if k == n - 1 {
      EventsTellTurn(tools, c, legacy[k], |before| + 1);
      at, end := |before|, |before + own|;
      assert (before + own)[at..end] == own;
    } else {
      at, end := ImportTells(tools, c, legacy, n - 1, k);
      assert (before + own)[at..end] == before[at..end];
    }
  }

  // --------------------------------------------------------- what is read back

  predicate FinalAnswer(e: Event, turn: TurnId) {
    e.turn == turn && e.kind.AssistantMessage? && Get(e.payload, "is_final") == Some(Bool(true))
  }

  predicate SomeAnswer(e: Event, turn: TurnId) {
    e.turn == turn && e.kind.AssistantMessage?
  }

  predicate OwnPrompt(e: Event, turn: TurnId) {
    e.turn == turn && e.kind.UserMessage? && Get(e.payload, "source") != Some(Str("task_message"))
  }

  lemma {:induction false} LastFinalRead(events: seq<Event>, turn: TurnId, i: nat, n: nat)
    requires i < n <= |events| && FinalAnswer(events[i], turn) && forall j | i < j < n :: !FinalAnswer(events[j], turn)
    ensures ReadUpTo(events, turn, n).lastFinal == Some(events[i].payload)
  {
    hide UserText;
    if i < n - 1 { LastFinalRead(events, turn, i, n - 1); }
  }

  lemma {:induction false} LastAnswerRead(events: seq<Event>, turn: TurnId, i: nat, n: nat)
    requires i < n <= |events| && SomeAnswer(events[i], turn) && forall j | i < j < n :: !SomeAnswer(events[j], turn)
    ensures ReadUpTo(events, turn, n).last == Some(events[i].payload)
  {
    hide UserText;
    if i < n - 1 { LastAnswerRead(events, turn, i, n - 1); }
  }

  lemma {:induction false} NoFinalRead(events: seq<Event>, turn: TurnId, n: nat)
    requires n <= |events| && forall j | 0 <= j < n :: !FinalAnswer(events[j], turn)
    ensures ReadUpTo(events, turn, n).lastFinal.None?
  {
    hide UserText;
    if n > 0 { NoFinalRead(events, turn, n - 1); }
  }

  lemma {:induction false} LastPromptRead(events: seq<Event>, turn: TurnId, i: nat, n: nat)
    requires i < n <= |events| && OwnPrompt(events[i], turn) && forall j | i < j < n :: !OwnPrompt(events[j], turn)
    ensures ReadUpTo(events, turn, n).user == UserText(events[i].payload)
  {
    hide UserText;
    if i < n - 1 { LastPromptRead(events, turn, i, n - 1); }
  }

  lemma OneTextReads(text: string)
    ensures JoinTextBlocks([Obj(map["type" := Str("text"), "text" := Str(text)])]) == text
  {
    OnePart(text);
  }

  /** An answer without a list of blocks is shown by its plain text, when it has one. */
  lemma PlainAnswerReads(payload: Json, text: string)
    requires !(Get(payload, "text_blocks").Some? && Get(payload, "text_blocks").value.Arr?)
    ensures Get(payload, "text") == Some(Str(text)) ==> AssistantTextOf(payload) == text
    ensures !(Get(payload, "text").Some? && Get(payload, "text").value.Str?) ==> AssistantTextOf(payload) == ""
  {
  }

  /**
    A turn is shown with its last prompt that is no steer, and with its last
    final answer, or, when none is final, its last answer at all.
   */
  lemma ShownPrefersFinal(conversation: Conversation, row: TurnRow, p: nat, a: nat, prompt: string, answer: string)
    requires p < |conversation.events| && a < |conversation.events|
    requires var events := conversation.events;
      && OwnPrompt(events[p], row.turn) && (forall j | p < j < |events| :: !OwnPrompt(events[j], row.turn))
      && Get(events[p].payload, "content") == Some(Str(prompt))
    requires var events := conversation.events;
      && SomeAnswer(events[a], row.turn) && Get(events[a].payload, "text_blocks") == Some(OneText(answer))
      && ((FinalAnswer(events[a], row.turn) && forall j | a < j < |events| :: !FinalAnswer(events[j], row.turn))
          || ((forall j | 0 <= j < |events| :: !FinalAnswer(events[j], row.turn))
              && forall j | a < j < |events| :: !SomeAnswer(events[j], row.turn)))
    ensures var shown := ProjectedRow(conversation, row); shown.user == prompt && shown.assistant == answer && shown.at == row.at
  {
    var events := conversation.events;
    LastPromptRead(events, row.turn, p, |events|);
    OneTextReads(answer);
    hide ReadUpTo, JoinTextBlocks;
    if FinalAnswer(events[a], row.turn) {
      LastFinalRead(events, row.turn, a, |events|);
    } else {
      NoFinalRead(events, row.turn, |events|);
      LastAnswerRead(events, row.turn, a, |events|);
    }
  }
}
