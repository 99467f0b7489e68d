/**
  Which events a context shows, told from the log: the kinds a model may see, and
  everything that the last checkpoint standing in the log does not cover.
 */
module SelectedEvents {
  import opened JsonValue
  import opened Tables
  import opened Sorting
  import opened ContextEvents

  // --------------------------------------------------------------------- blanks

  /** The blank characters, by code point. */
  lemma BlankExactly(c: char)
    ensures Space(c) <==>
      9 <= c as int <= 13 || 28 <= c as int <= 32 || c as int in {0x85, 0xA0, 0x1680, 0x2028, 0x2029, 0x202F, 0x205F, 0x3000}
      || 0x2000 <= c as int <= 0x200A
  {
  }

  ghost predicate Blank(s: string) {
    forall i | 0 <= i < |s| :: Space(s[i])
  }

  lemma {:induction false} LeftStripped(s: string) returns (a: string)
    ensures Blank(a) && s == a + StripLeft(s) && (StripLeft(s) != "" ==> !Space(StripLeft(s)[0]))
  {
    hide Space;
    a := "";
    if s != "" && Space(s[0]) {
      var rest := LeftStripped(s[1..]);
      a := [s[0]] + rest;
    }
  }

  lemma {:induction false} RightStripped(s: string) returns (b: string)
    ensures Blank(b) && s == StripRight(s) + b && StripRight(s) <= s
    ensures StripRight(s) != "" ==> !Space(StripRight(s)[|StripRight(s)| - 1])
  {
    hide Space;
    b := "";
    if s != "" && Space(s[|s| - 1]) {
      var rest := RightStripped(s[..|s| - 1]);
      b := rest + [s[|s| - 1]];
    }
  }

  /** Stripping takes the blanks off both ends and nothing else. */
  lemma StrippedExactly(s: string) returns (a: string, b: string)
    ensures s == a + Strip(s) + b && Blank(a) && Blank(b)
    ensures Strip(s) != "" ==> !Space(Strip(s)[0]) && !Space(Strip(s)[|Strip(s)| - 1])
  {
    a := LeftStripped(s);
    b := RightStripped(StripLeft(s));
    hide Space;
  }

  // ---------------------------------------------------------------------- texts

  /** The text under the key has more than blanks. */
  predicate Has(payload: Json, key: string) {
    match Get(payload, key)
    case Some(Str(s)) => Strip(s) != ""
    case _ => false
  }

  function Stripped(payload: Json, key: string): string {
    match Get(payload, key)
    case Some(Str(s)) => Strip(s)
    case _ => ""
  }

  lemma FirstTextIs(payload: Json, keys: seq<string>)
    ensures FirstText(payload, keys)
      == if keys == [] then "" else if Has(payload, keys[0]) then Stripped(payload, keys[0]) else FirstText(payload, keys[1..])
  {
    hide Strip;
    StripNothing();
  }

  lemma StripNothing()
    ensures Strip("") == ""
  {
  }

  /** A note says the first of its three texts that is not blank. */
  lemma NoteSays(payload: Json)
    ensures NoteText(payload) ==
      if Has(payload, "content") then Stripped(payload, "content")
      else if Has(payload, "text") then Stripped(payload, "text")
      else Stripped(payload, "message")
  {
    var keys := ["content", "text", "message"];
    assert keys[1..] == ["text", "message"] && keys[1..][1..] == ["message"] && keys[1..][1..][1..] == [];
    FirstTextIs(payload, keys);
    FirstTextIs(payload, keys[1..]);
    FirstTextIs(payload, keys[1..][1..]);
    FirstTextIs(payload, []);
    hide FirstText, Strip;
  }

  /** A checkpoint says its summary, or else what a note would. */
  lemma CheckpointSays(payload: Json)
    ensures CheckpointText(payload) == if Has(payload, "summary") then Stripped(payload, "summary") else NoteText(payload)
  {
    var keys := ["summary", "content", "text", "message"];
    assert keys[1..] == ["content", "text", "message"];
    FirstTextIs(payload, keys);
    hide FirstText, Strip;
  }

  /** What an entry of a content list contributes to the user's text. */
  function Piece(block: Json): string {
    match (Get(block, "type"), Get(block, "text"))
    case (Some(Str(kind)), Some(Str(s))) => if kind == "text" then s else ""
    case _ => ""
  }

  /** The user's text is the text blocks of the list, in order and with nothing between them. */
  lemma {:induction false} PiecesJoin(a: seq<Json>, b: seq<Json>)
    ensures JoinTextBlocks([]) == ""
    ensures JoinTextBlocks(a + b) == JoinTextBlocks(a) + JoinTextBlocks(b)
    ensures |a| == 1 ==> JoinTextBlocks(a) == Piece(a[0])
  {
    if a == [] {
      assert a + b == b;
    } else {
      PiecesJoin(a[1..], b);
      assert (a + b)[1..] == a[1..] + b;
      if |a| == 1 { assert a[1..] == []; }
    }
  }

  // ------------------------------------------------------------------ selection

  /** A checkpoint that says something and that neither itself nor an event of the log calls invalid. */
  ghost predicate Valid(codec: Codec, log: seq<Event>, e: Event) {
    && e in log && e.kind == ContextCheckpoint && Get(e.payload, "valid") != Some(Bool(false))
    && (Has(e.payload, "summary") || Has(e.payload, "content") || Has(e.payload, "text") || Has(e.payload, "message"))
    && !Invalidated(codec, log, e.id)
  }

  ghost predicate Invalidated(codec: Codec, log: seq<Event>, id: string) {
    exists x :: x in log && x.kind == CheckpointInvalidated && Names(codec, x.payload, id)
  }

  ghost predicate Names(codec: Codec, payload: Json, id: string) {
    match Get(payload, "checkpoint_event_id")
    case Some(Str(s)) => s == id && s != ""
    case Some(v) => Truthy(v) && codec.show(v) == id
    case None => false
  }

  /** What a model may see. */
  ghost predicate Shown(codec: Codec, log: seq<Event>, e: Event) {
    || e.kind in {UserMessage, AssistantMessage, ToolCall, ToolResult}
    || (e.kind in {SystemNote, RecoveryNote} && e.visible)
    || Valid(codec, log, e)
  }

  /** The checkpoint the context starts from: the last one that is valid. */
  ghost predicate Starts(codec: Codec, log: seq<Event>, c: Event) {
    Valid(codec, log, c) && forall x | Valid(codec, log, x) :: x.seqNo <= c.seqNo
  }

  /** The event is past what the checkpoint covers, or past the checkpoint when it does not say. */
  ghost predicate Past(c: Event, e: Event) {
    match Get(c.payload, "covers_through_seq")
    case Some(Int(n)) => e.seqNo > n && e.kind != ContextCheckpoint
    case Some(Bool(b)) => e.seqNo > (if b then 1 else 0) && e.kind != ContextCheckpoint
    case _ => e.seqNo > c.seqNo
  }

  ghost predicate Numbered(log: seq<Event>) {
    forall i, j | 0 <= i < |log| && 0 <= j < |log| && i != j :: log[i].seqNo != log[j].seqNo
  }

  lemma {:induction false} VisibleMember(events: seq<Event>, invalidated: set<string>, e: Event)
    ensures e in VisibleOnly(events, invalidated) <==> e in events && ModelVisible(e, invalidated)
  {
    hide ModelVisible;
    if events != [] {
      VisibleMember(events[1..], invalidated, e);
      assert events == [events[0]] + events[1..];
    }
  }

  lemma {:induction false} RetainedMember(events: seq<Event>, covers: int, e: Event)
    ensures e in Retained(events, covers) <==> e in events && e.seqNo > covers && !e.kind.ContextCheckpoint?
  {
    if events != [] {
      RetainedMember(events[1..], covers, e);
      assert events == [events[0]] + events[1..];
    }
  }

  lemma {:induction false} KeyedMember(events: seq<Event>, k: Keyed<Event>)
    ensures k in KeyBySeq(events) <==> k.item in events && k == Keyed(k.item.seqNo, k.item.createdAt, k.item)
    ensures |KeyBySeq(events)| == |events|
  {
    if events != [] {
      KeyedMember(events[1..], k);
      assert events == [events[0]] + events[1..];
    }
  }

  /** The events of the log in the order of their numbers. */
  ghost predicate Ordered(log: seq<Event>, ordered: seq<Event>) {
    && (forall e :: e in ordered <==> e in log)
    && forall i, j | 0 <= i < j < |ordered| :: ordered[i].seqNo <= ordered[j].seqNo
  }

  lemma OrderedExactly(log: seq<Event>)
    ensures Ordered(log, InLogOrder(log))
  {
    var keyed := KeyBySeq(log);
    var sorted, ordered := Sort(keyed), InLogOrder(log);
    SameMembers(keyed);
    SortSorted(keyed);
    forall k ensures k in keyed <==> k.item in log && k == Keyed(k.item.seqNo, k.item.createdAt, k.item) { KeyedMember(log, k); }
    hide KeyBySeq, Sort;
    assert |ordered| == |sorted| && forall i | 0 <= i < |ordered| :: ordered[i] == sorted[i].item && sorted[i] in keyed;
    forall e ensures e in ordered <==> e in log {
      if e in ordered {
        var i :| 0 <= i < |ordered| && ordered[i] == e;
      }
      if e in log {
        var k := Keyed(e.seqNo, e.createdAt, e);
        assert k in sorted;
        var i :| 0 <= i < |sorted| && sorted[i] == k;
        assert ordered[i] == e;
      }
    }
    forall i, j | 0 <= i < j < |ordered| ensures ordered[i].seqNo <= ordered[j].seqNo {
      assert Leq(sorted[i], sorted[j]);
    }
  }

  lemma ValidIs(codec: Codec, log: seq<Event>, ordered: seq<Event>, e: Event)
    requires forall x :: x in ordered <==> x in log
    ensures e in log && ValidCheckpoint(e, InvalidatedIds(codec, ordered)) <==> Valid(codec, log, e)
  {
    CheckpointSays(e.payload);
    NoteSays(e.payload);
    hide CheckpointText, NoteText, Strip;
    forall x: Event ensures Names(codec, x.payload, e.id) <==>
      Get(x.payload, "checkpoint_event_id").Some? && Truthy(Get(x.payload, "checkpoint_event_id").value)
      && ShowText(codec, Get(x.payload, "checkpoint_event_id").value) == e.id
    {
    }
    hide Names, ShowText, Truthy, Get;
    assert e.id in InvalidatedIds(codec, ordered) <==> Invalidated(codec, log, e.id);
  }

  /** After the cut: everything without a valid checkpoint, else the last one and what is past it. */
  ghost predicate Uncut(codec: Codec, log: seq<Event>, e: Event) {
    && e in log
    && ((forall x :: !Valid(codec, log, x)) || exists c :: Starts(codec, log, c) && (e == c || Past(c, e)))
  }

  lemma CutExactly(codec: Codec, log: seq<Event>, ordered: seq<Event>, e: Event)
    requires Numbered(log) && Ordered(log, ordered)
    ensures e in CutAtCheckpoint(ordered, InvalidatedIds(codec, ordered)) <==> Uncut(codec, log, e)
  {
    var invalidated := InvalidatedIds(codec, ordered);
    forall x ensures x in log && ValidCheckpoint(x, invalidated) <==> Valid(codec, log, x) { ValidIs(codec, log, ordered, x); }
    LastCheckpointMeans(ordered, invalidated, |ordered|);
    hide InvalidatedIds, ValidCheckpoint, Valid, LastCheckpoint;
    match LastCheckpoint(ordered, invalidated, |ordered|)
    case None =>
      forall x | x in ordered ensures !Valid(codec, log, x) {
        var j :| 0 <= j < |ordered| && ordered[j] == x;
      }
    case Some(i) =>
      var c := ordered[i];
      assert c in ordered && Valid(codec, log, c);
      LastStarts(codec, log, ordered, invalidated, i);
      PastIs(log, ordered, i, e);
      hide Starts, Past, CutAtCheckpoint;
      CutAt(ordered, invalidated, i, e);
  }

  lemma CutAt(ordered: seq<Event>, invalidated: set<string>, i: nat, e: Event)
    requires i < |ordered| && LastCheckpoint(ordered, invalidated, |ordered|) == Some(i)
    ensures e in CutAtCheckpoint(ordered, invalidated) <==>
      match AsInt(Get(ordered[i].payload, "covers_through_seq"))
      case None => e in ordered[i..]
      case Some(covers) => e == ordered[i] || (e in ordered && e.seqNo > covers && !e.kind.ContextCheckpoint?)
  {
    hide LastCheckpoint;
    match AsInt(Get(ordered[i].payload, "covers_through_seq"))
    case None =>
    case Some(covers) => RetainedMember(ordered, covers, e);
  }

  lemma LastStarts(codec: Codec, log: seq<Event>, ordered: seq<Event>, invalidated: set<string>, i: nat)
    requires Ordered(log, ordered) && Numbered(log) && i < |ordered| && ValidCheckpoint(ordered[i], invalidated)
    requires forall x :: x in log && ValidCheckpoint(x, invalidated) <==> Valid(codec, log, x)
    requires forall j | i < j < |ordered| :: !ValidCheckpoint(ordered[j], invalidated)
    ensures Starts(codec, log, ordered[i])
    ensures forall c | Starts(codec, log, c) :: c == ordered[i]
  {
    hide ValidCheckpoint, Valid;
    assert ordered[i] in ordered;
    forall x | Valid(codec, log, x) ensures x.seqNo <= ordered[i].seqNo {
      assert x in log && x in ordered;
      var j :| 0 <= j < |ordered| && ordered[j] == x;
    }
    forall c | Starts(codec, log, c) ensures c == ordered[i] { SameNumber(log, c, ordered[i]); }
  }

  lemma SameNumber(log: seq<Event>, a: Event, b: Event)
    requires Numbered(log) && a in log && b in log && a.seqNo == b.seqNo
    ensures a == b
  {
    var i :| 0 <= i < |log| && log[i] == a;
    var j :| 0 <= j < |log| && log[j] == b;
  }

  lemma PastIs(log: seq<Event>, ordered: seq<Event>, i: nat, e: Event)
    requires Ordered(log, ordered) && Numbered(log) && i < |ordered|
    ensures match AsInt(Get(ordered[i].payload, "covers_through_seq"))
      case None => e in ordered[i..] <==> e in log && (e == ordered[i] || Past(ordered[i], e))
      case Some(covers) => e in ordered && e.seqNo > covers && !e.kind.ContextCheckpoint? <==> e in log && Past(ordered[i], e)
  {
    if AsInt(Get(ordered[i].payload, "covers_through_seq")).None? {
      assert ordered[i] in ordered;
      if e in ordered[i..] {
        var k :| 0 <= k < |ordered[i..]| && ordered[i..][k] == e;
        assert ordered[i + k] == e && e in ordered;
        if e.seqNo == ordered[i].seqNo { SameNumber(log, e, ordered[i]); }
      }
      if e in log && e.seqNo > ordered[i].seqNo {
        assert e in ordered;
        var j :| 0 <= j < |ordered| && ordered[j] == e;
        assert j >= i && ordered[i..][j - i] == e;
      }
      if e == ordered[i] { assert ordered[i..][0] == e; }
    }
  }

  /**
    A context shows exactly the events of the log that a model may see and that
    the last valid checkpoint does not cover, and that checkpoint itself.
   */
  lemma SelectedExactly(codec: Codec, log: seq<Event>, e: Event)
    requires Numbered(log)
    ensures e in SelectContext(codec, log) <==> Uncut(codec, log, e) && Shown(codec, log, e)
  {
    var ordered := InLogOrder(log);
    OrderedExactly(log);
    CutExactly(codec, log, ordered, e);
    var invalidated := InvalidatedIds(codec, ordered);
    VisibleMember(CutAtCheckpoint(ordered, invalidated), invalidated, e);
    ValidIs(codec, log, ordered, e);
    hide InLogOrder, CutAtCheckpoint, InvalidatedIds, VisibleOnly, ValidCheckpoint, Valid, Numbered, Ordered;
    assert Uncut(codec, log, e) ==> e in log;
  }
}
