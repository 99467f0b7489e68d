/**
  The evidence of a turn read off its events: which results count as edits and
  builds, what the totals add up to, and how each report is stored.
 */
module EvidenceTotals {
  import opened JsonValue
  import opened Tables
  import opened EventStore
  import opened ContextEvents
  import opened CrashRecovery
  import opened Evidence

  // ------------------------------------------------------------------ counting

  predicate IsEdit(e: Event) {
    e.kind == ToolResult && Get(e.payload, "name") in {Some(Str("write_file")), Some(Str("str_replace"))} && Holds(e.payload, "ok")
  }

  /** A build of the debug variant, which is the default task. */
  predicate IsBuild(e: Event) {
    && e.kind == ToolResult && Get(e.payload, "name") == Some(Str("run_gradle"))
    && match Get(e.payload, "input")
       case Some(Obj(fields)) => "task" !in fields || fields["task"] == Str("assembleDebug")
       case _ => true
  }

  predicate IsDecision(e: Event) {
    e.kind == ApprovalResolved && Holds(e.payload, "decision")
  }

  function Tokens(e: Event, key: string): int {
    match (e.kind, Get(e.payload, "usage"))
    case (Usage, Some(Obj(fields))) => if key in fields && fields[key].Int? then fields[key].n else 0
    case _ => 0
  }

  function TokenSum(events: Events, key: string): int {
    if events == [] then 0 else Tokens(events[0], key) + TokenSum(events[1..], key)
  }

  lemma {:induction false} TokenSumAppend(events: Events, e: Event, key: string)
    ensures TokenSum(events + [e], key) == TokenSum(events, key) + Tokens(e, key)
  {
    if events != [] {
      assert (events + [e])[1..] == events[1..] + [e];
      TokenSumAppend(events[1..], e, key);
    } else {
      assert [e][1..] == [];
    }
  }

  function Edits(events: Events): set<nat> {
    set i: nat | 0 <= i < |events| && IsEdit(events[i])
  }

  ghost predicate AnyBuild(events: Events) {
    exists i :: 0 <= i < |events| && IsBuild(events[i])
  }

  /** The last build of the list was a success. */
  ghost predicate LastBuildGood(events: Events) {
    exists i :: 0 <= i < |events| && IsBuild(events[i]) && Holds(events[i].payload, "ok")
                && forall j | i < j < |events| :: !IsBuild(events[j])
  }

  ghost predicate Increasing(at: seq<nat>) {
    forall k, l | 0 <= k < l < |at| :: at[k] < at[l]
  }

  /** The decisions are those of the approval events, in their order. */
  ghost predicate DecisionsOf(codec: Codec, events: Events, at: seq<nat>, decisions: seq<string>) {
    && Increasing(at) && |decisions| == |at|
    && (forall i: nat :: i in at <==> i < |events| && IsDecision(events[i]))
    && forall k | 0 <= k < |at| && at[k] < |events| :: decisions[k] == ShowText(codec, ValueAt(events[at[k]].payload, "decision"))
  }

  ghost predicate DecisionsAre(codec: Codec, events: Events, decisions: seq<string>) {
    exists at :: DecisionsOf(codec, events, at, decisions)
  }

  ghost predicate Tallied(codec: Codec, events: Events, t: Totals) {
    && t.edits == |Edits(events)|
    && (t.attempted <==> AnyBuild(events))
    && (t.succeeded <==> LastBuildGood(events))
    && DecisionsAre(codec, events, t.decisions)
    && t.input == TokenSum(events, "input_tokens")
    && t.output == TokenSum(events, "output_tokens")
    && t.total == TokenSum(events, "total_tokens")
  }

  lemma MoreEdits(events: Events, e: Event)
    ensures |Edits(events + [e])| == |Edits(events)| + if IsEdit(e) then 1 else 0
  {
    hide IsEdit;
    var longer := events + [e];
    assert forall i: nat | i < |events| :: longer[i] == events[i];
    assert Edits(longer) == Edits(events) + if IsEdit(e) then {|events|} else {};
  }

  lemma MoreBuilds(events: Events, e: Event)
    ensures AnyBuild(events + [e]) <==> AnyBuild(events) || IsBuild(e)
    ensures LastBuildGood(events + [e]) <==> if IsBuild(e) then Holds(e.payload, "ok") else LastBuildGood(events)
  {
    hide IsBuild, Holds;
    var longer := events + [e];
    assert longer[|events|] == e && forall i | 0 <= i < |events| :: longer[i] == events[i];
    if LastBuildGood(longer) {
      var i :| 0 <= i < |longer| && IsBuild(longer[i]) && Holds(longer[i].payload, "ok") && forall j | i < j < |longer| :: !IsBuild(longer[j]);
      if i < |events| {
        assert !IsBuild(longer[|events|]);
        assert forall j | i < j < |events| :: longer[j] == events[j];
        assert events[i] == longer[i];
      }
    }
    if !IsBuild(e) && LastBuildGood(events) {
      var i :| 0 <= i < |events| && IsBuild(events[i]) && Holds(events[i].payload, "ok") && forall j | i < j < |events| :: !IsBuild(events[j]);
      assert longer[i] == events[i];
      assert forall j | i < j < |longer| :: j == |events| || longer[j] == events[j];
    }
  }

  lemma MoreDecisions(codec: Codec, events: Events, e: Event, decisions: seq<string>)
    requires DecisionsAre(codec, events, decisions)
    ensures DecisionsAre(codec, events + [e],
                         if IsDecision(e) then decisions + [ShowText(codec, ValueAt(e.payload, "decision"))] else decisions)
  {
    hide IsDecision, ShowText, ValueAt;
    var at :| DecisionsOf(codec, events, at, decisions);
    if IsDecision(e) {
      OneMoreDecision(codec, events, e, at, decisions, ShowText(codec, ValueAt(e.payload, "decision")));
    } else {
      NoMoreDecision(codec, events, e, at, decisions);
    }
  }

  lemma OneMoreDecision(codec: Codec, events: Events, e: Event, at: seq<nat>, decisions: seq<string>, decision: string)
    requires DecisionsOf(codec, events, at, decisions) && IsDecision(e) && decision == ShowText(codec, ValueAt(e.payload, "decision"))
    ensures DecisionsAre(codec, events + [e], decisions + [decision])
  {
    hide IsDecision, ShowText, ValueAt;
    var longer, last: nat := events + [e], |events|;
    var at', decisions' := at + [last], decisions + [decision];
    forall k | 0 <= k < |at| ensures at[k] < |events| { assert at[k] in at; }
    forall i: nat ensures i in at' <==> i < |longer| && IsDecision(longer[i]) {
      assert i in at' <==> i in at || i == last;
      if i < |events| { assert longer[i] == events[i]; }
    }
    forall k | 0 <= k < |at'| && at'[k] < |longer|
      ensures decisions'[k] == ShowText(codec, ValueAt(longer[at'[k]].payload, "decision"))
    {
      if k < |at| { assert at'[k] == at[k] && longer[at[k]] == events[at[k]]; }
    }
    assert DecisionsOf(codec, longer, at', decisions');
  }

  lemma NoMoreDecision(codec: Codec, events: Events, e: Event, at: seq<nat>, decisions: seq<string>)
    requires DecisionsOf(codec, events, at, decisions) && !IsDecision(e)
    ensures DecisionsAre(codec, events + [e], decisions)
  {
    hide IsDecision, ShowText, ValueAt;
    var longer := events + [e];
    forall i: nat ensures i in at <==> i < |longer| && IsDecision(longer[i]) {
      if i < |events| { assert longer[i] == events[i]; }
    }
    forall k | 0 <= k < |at| && at[k] < |longer|
      ensures decisions[k] == ShowText(codec, ValueAt(longer[at[k]].payload, "decision"))
    {
      assert at[k] in at;
      assert longer[at[k]] == events[at[k]];
    }
    assert DecisionsOf(codec, longer, at, decisions);
  }

  lemma CountedIs(codec: Codec, t: Totals, e: Event)
    ensures var u := Counted(codec, t, e);
      && u.edits == t.edits + (if IsEdit(e) then 1 else 0)
      && u.attempted == (t.attempted || IsBuild(e))
      && u.succeeded == (if IsBuild(e) then Holds(e.payload, "ok") else t.succeeded)
      && u.decisions == (if IsDecision(e) then t.decisions + [ShowText(codec, ValueAt(e.payload, "decision"))] else t.decisions)
      && u.input == t.input + Tokens(e, "input_tokens")
      && u.output == t.output + Tokens(e, "output_tokens")
      && u.total == t.total + Tokens(e, "total_tokens")
  {
    hide ShowText, Truthy;
    assert !Truthy(Null) by { NullIsFalse(); }
  }

  /**
    The totals of a turn say what its events say: as many edits as there are
    successful results of the two editing tools, a build if there is one and the
    outcome of the last, the decisions in order, and the sums of the tokens.
   */
  lemma {:induction false} TotalsAreTallied(codec: Codec, events: Events)
    ensures Tallied(codec, events, TotalsOf(codec, events))
  {
    if events == [] {
      assert DecisionsOf(codec, [], [], []);
      assert Edits([]) == {};
    } else {
      hide *;
      var init, e := events[..|events| - 1], events[|events| - 1];
      assert events == init + [e];
      TotalsAreTallied(codec, init);
      TotalsOneMore(codec, init, e);
      CountingTallies(codec, init, e, TotalsOf(codec, init));
    }
  }

  lemma CountingTallies(codec: Codec, events: Events, e: Event, t: Totals)
    requires Tallied(codec, events, t)
    ensures Tallied(codec, events + [e], Counted(codec, t, e))
  {
    hide IsEdit, IsBuild, IsDecision, Holds, DecisionsAre, AnyBuild, LastBuildGood, Edits, TokenSum, Tokens, Counted, ShowText, ValueAt;
    CountedIs(codec, t, e);
    MoreEdits(events, e);
    MoreBuilds(events, e);
    TokenSumAppend(events, e, "input_tokens");
    TokenSumAppend(events, e, "output_tokens");
    TokenSumAppend(events, e, "total_tokens");
    MoreDecisions(codec, events, e, t.decisions);
  }

  // ------------------------------------------------------------------- storing

  /** Replies are stored visibly and their usage is not, each under the message they belong to. */
  lemma ReplyForms(codec: Codec, turn: TurnId, payload: Json, id: string)
    requires id != "" && Get(payload, "message_id") == Some(Str(id))
    ensures CanonicalOf(codec, turn, AssistantMessage, payload) == Write(AssistantMessage, payload, true, Some(AssistantOf(id)))
    ensures CanonicalOf(codec, turn, Usage, payload) == Write(Usage, payload, false, Some(UsageOf(id)))
  {
    hide Decimal, TextOr;
    assert Truthy(Str(id));
  }

  /** Calls and results are stored visibly, one of each for an id; a malformed call is not shown. */
  lemma CallForms(codec: Codec, turn: TurnId, payload: Json, id: string)
    requires id != "" && Get(payload, "tool_call_id") == Some(Str(id))
    ensures CanonicalOf(codec, turn, ToolCall, payload) == Write(ToolCall, payload, true, Some(CallOf(id)))
    ensures CanonicalOf(codec, turn, ToolResult, payload) == Write(ToolResult, payload, true, Some(EventKey.ResultOf(id)))
    ensures CanonicalOf(codec, turn, OtherKind("malformed_tool_call"), payload)
      == Write(OtherKind("malformed_tool_call"), payload, false, Some(Named("malformed_tool_call:" + id)))
  {
    hide Decimal, TextOr;
    assert Truthy(Str(id));
  }

  /** An approval is stored twice, when it is asked for and when it is decided. */
  lemma ApprovalForms(codec: Codec, turn: TurnId, payload: Json, call: string, id: string)
    requires call != "" && Get(payload, "tool_call_id") == Some(Str(call))
    requires id != "" && Get(payload, "approval_id") == Some(Str(id))
    ensures CanonicalOf(codec, turn, OtherKind("approval_required"), payload)
      == Write(OtherKind("approval_required"), payload, false, Some(Named("approval:" + id + ":required")))
    ensures CanonicalOf(codec, turn, ApprovalResolved, payload) == Write(ApprovalResolved, payload, false, Some(ApprovalOf(id)))
  {
    hide Decimal, TextOr;
    assert Truthy(Str(call)) && Truthy(Str(id));
  }

  /** Switches of provider or model are stored each time, the start and the end of a child task once, as notes nobody is shown. */
  lemma OtherForms(codec: Codec, turn: TurnId, payload: Json, name: string)
    ensures name in {"provider_switch", "model_switch"} ==>
      CanonicalOf(codec, turn, OtherKind(name), payload) == Write(OtherKind(name), payload, false, None)
    ensures forall child |
      child != "" && name in {"subagent_spawned", "subagent_completed"} && Get(payload, "child_task_id") == Some(Str(child)) ::
      CanonicalOf(codec, turn, OtherKind(name), payload)
      == Write(SystemNote, Obj(payload.fields["agent_event" := Str(name)]), false, Some(Named("subagent:" + child + ":" + name)))
  {
    hide Decimal, TextOr;
  }

  /** A skill's note is kept once per turn, by its kind and the skill it names. */
  lemma NoteForm(codec: Codec, turn: TurnId, payload: Json, kind: string, skill: string)
    requires Get(payload, "kind") == (if kind == "note" then None else Some(Str(kind))) && kind != ""
    requires Get(payload, "skill") == (if skill == "rules" then None else Some(Str(skill))) && skill != ""
    ensures CanonicalOf(codec, turn, SystemNote, payload)
      == Write(SystemNote, payload, false, Some(Named("system_note:" + Decimal(turn) + ":" + kind + ":" + skill)))
  {
    hide Decimal;
  }

  /** A report without the ids it needs is refused, or not stored. */
  lemma NamelessReports(codec: Codec, turn: TurnId, payload: Json)
    ensures !Holds(payload, "message_id") ==>
      && CanonicalOf(codec, turn, AssistantMessage, payload) == Malformed
      && CanonicalOf(codec, turn, Usage, payload) == Write(Usage, payload, false, None)
    ensures !Holds(payload, "tool_call_id") ==>
      && CanonicalOf(codec, turn, ToolCall, payload) == NotCanonical
      && CanonicalOf(codec, turn, ToolResult, payload) == NotCanonical
    ensures !Holds(payload, "tool_call_id") || !Holds(payload, "approval_id") ==>
      CanonicalOf(codec, turn, ApprovalResolved, payload) == Malformed
  {
    hide Truthy, ShowText, TextOr, Decimal;
    NullIsFalse();
  }

  lemma NamelessOthers(codec: Codec, turn: TurnId, payload: Json)
    ensures !Holds(payload, "tool_call_id") ==>
      CanonicalOf(codec, turn, OtherKind("malformed_tool_call"), payload) == NotCanonical
    ensures !Holds(payload, "tool_call_id") || !Holds(payload, "approval_id") ==>
      CanonicalOf(codec, turn, OtherKind("approval_required"), payload) == Malformed
    ensures !Holds(payload, "child_task_id") ==>
      && CanonicalOf(codec, turn, OtherKind("subagent_spawned"), payload) == NotCanonical
      && CanonicalOf(codec, turn, OtherKind("subagent_completed"), payload) == NotCanonical
  {
    hide Truthy, ShowText, TextOr, Decimal;
    NullIsFalse();
  }

  /** Nothing else that a job reports enters the log. */
  lemma OthersAreNotStored(codec: Codec, turn: TurnId, kind: EventKind, payload: Json)
    requires kind !in {AssistantMessage, ToolCall, ToolResult, ApprovalResolved, Usage, SystemNote,
                       OtherKind("malformed_tool_call"), OtherKind("approval_required"), OtherKind("provider_switch"),
                       OtherKind("model_switch"), OtherKind("subagent_spawned"), OtherKind("subagent_completed")}
    ensures CanonicalOf(codec, turn, kind, payload) == NotCanonical
  {
    hide TruthyText, TextOr, Decimal;
  }

  /** The payload of a finished build that brings a summary along. */
  ghost predicate BringsSummary(kind: EventKind, payload: Json) {
    && kind == ToolResult && Get(payload, "name") == Some(Str("run_gradle"))
    && match Get(payload, "summary")
       case Some(Obj(fields)) => Holds(Obj(fields), "schema_version")
       case _ => false
  }

  /** The key of a summary: the turn's, for the call it names. */
  function SummaryKey(codec: Codec, s: Scope, payload: Json): EventKey {
    Named("turn:" + Decimal(s.turn) + ":summary:"
          + if Holds(payload, "tool_call_id") then ShowText(codec, ValueAt(payload, "tool_call_id")) else "")
  }

  /** An event of the turn, written by a report. */
  ghost predicate Written(e: Event, s: Scope, kind: EventKind, payload: Json, visible: bool, key: Option<EventKey>) {
    && e.conversation == s.conversation && e.turn == s.turn && e.task == Some(s.task)
    && e.kind == kind && e.payload == payload && e.visible == visible && e.key == key
  }

  /**
    A report under a key of its own adds its event, and a build result with a
    summary adds that as well, as an event of its own that names the call.
   */
  lemma ReportIsStored(codec: Codec, turns: Turns, events: Events, s: Scope, x: Emission, w: Canonical)
    requires InScope(turns, s) && CountIn(events, s.conversation) + 1 < x.quota
    requires w.Write? && w == CanonicalOf(codec, s.turn, x.kind, x.payload)
    requires w.key.Some? ==> FindKey(events, s.conversation, w.key.value).None?
    requires FindKey(events, s.conversation, SummaryKey(codec, s, x.payload)).None?
    ensures var r := EmitOutcome(codec, turns, events, s, x);
      && r.ok && events < r.events && r.noted == Some(r.events[|events|])
      && Written(r.events[|events|], s, w.kind, w.payload, w.visible, w.key)
      && (!BringsSummary(x.kind, x.payload) ==> |r.events| == |events| + 1)
      && (BringsSummary(x.kind, x.payload) ==>
            && |r.events| == |events| + 2
            && var fields, e := Get(x.payload, "summary").value.fields, r.events[|events| + 1];
               var payload := Obj(fields["tool_call_id" := ValueAt(x.payload, "tool_call_id")]);
               var kind := OtherKind(if "kind" in fields && fields["kind"] == Str("test") then "test_summary" else "build_summary");
               Written(e, s, kind, payload, false, Some(SummaryKey(codec, s, x.payload))))
  {
    EmitUnfold(codec, turns, events, s, x);
    SummaryIs(codec, s, x.kind, x.payload);
    SummaryJoinsResult(codec, s.turn, x.kind, x.payload);
    hide CanonicalOf, SummaryDraft, BringsSummary, EmitOutcome, MaxSeq, Decimal;
    var r := AppendOutcome(turns, events, CanonicalDraft(s, w), w.key.Some?, x.id, x.at, x.quota);
    assert r.Appended?;
    assert Written(r.event, s, w.kind, w.payload, w.visible, w.key);
    assert LogAfter(events, r) == events + [r.event];
    assert (events + [r.event])[|events|] == r.event;
    assert events < events + [r.event];
    var d := SummaryDraft(codec, s, x.kind, x.payload);
    if d.Some? {
      var more := events + [r.event];
      FindKeyAppend(events, [r.event], s.conversation, d.value.key.value);
      assert [r.event][1..] == [];
      CountOneMore(events, r.event, s.conversation);
      var q := AppendOutcome(turns, more, d.value, true, x.summaryId, x.at, x.quota);
      assert q.Appended?;
      assert (more + [q.event])[|events|] == r.event;
    }
  }

  lemma SummaryJoinsResult(codec: Codec, turn: TurnId, kind: EventKind, payload: Json)
    ensures var w := CanonicalOf(codec, turn, kind, payload);
      BringsSummary(kind, payload) && w.Write? ==> w.key.Some? && w.key.value.ResultOf?
  {
  }

  lemma CountOneMore(events: Events, e: Event, conversation: ConversationId)
    ensures CountIn(events + [e], conversation) <= CountIn(events, conversation) + 1
  {
    assert (events + [e])[..|events|] == events;
  }

  lemma SummaryIs(codec: Codec, s: Scope, kind: EventKind, payload: Json)
    ensures var d := SummaryDraft(codec, s, kind, payload);
      && (d.Some? <==> BringsSummary(kind, payload))
      && (d.Some? ==>
            var fields := Get(payload, "summary").value.fields;
            d.value == Draft(s.conversation, s.turn, Some(s.task),
                OtherKind(if "kind" in fields && fields["kind"] == Str("test") then "test_summary" else "build_summary"), false,
                Some(SummaryKey(codec, s, payload)), Obj(fields["tool_call_id" := ValueAt(payload, "tool_call_id")])))
  {
    hide Truthy, Decimal;
    NullIsFalse();
  }
}
