/**
  The evidence a worker keeps about its turn: edits, build state, approval
  decisions and token totals, counted from the turn's durable events so that a
  pause cannot change them.
 */
module Evidence {
  import opened JsonValue
  import opened Tables
  import opened EventStore
  import opened ContextEvents
  import opened CrashRecovery

  // ------------------------------------------------------------ specification

  datatype Totals = Totals(
    edits: nat, attempted: bool, succeeded: bool, decisions: seq<string>, input: int, output: int, total: int)

  const NOTHING := Totals(0, false, false, [], 0, 0, 0)

  function IntAt(usage: Json, key: string): int {
    match Get(usage, key)
    case Some(Int(n)) => n
    case _ => 0
  }

  predicate EditResult(e: Event) {
    && e.kind.ToolResult? && (ValueAt(e.payload, "name") == Str("write_file") || ValueAt(e.payload, "name") == Str("str_replace"))
    && Truthy(ValueAt(e.payload, "ok"))
  }

  predicate BuildResult(e: Event) {
    && e.kind.ToolResult? && ValueAt(e.payload, "name") == Str("run_gradle")
    && (Get(ValueAt(e.payload, "input"), "task").None? || ValueAt(ValueAt(e.payload, "input"), "task") == Str("assembleDebug"))
  }

  predicate Decision(e: Event) {
    e.kind.ApprovalResolved? && Truthy(ValueAt(e.payload, "decision"))
  }

  /** What one event adds to the totals. */
  function Counted(codec: Codec, t: Totals, e: Event): Totals {
    var usage := ValueAt(e.payload, "usage");
    Totals(
      if EditResult(e) then t.edits + 1 else t.edits,
      t.attempted || BuildResult(e),
      if BuildResult(e) then Truthy(ValueAt(e.payload, "ok")) else t.succeeded,
      if Decision(e) then t.decisions + [ShowText(codec, ValueAt(e.payload, "decision"))] else t.decisions,
      if e.kind.Usage? then t.input + IntAt(usage, "input_tokens") else t.input,
      if e.kind.Usage? then t.output + IntAt(usage, "output_tokens") else t.output,
      if e.kind.Usage? then t.total + IntAt(usage, "total_tokens") else t.total)
  }

  /** The totals of a list of events. */
  function TotalsOf(codec: Codec, events: Events): Totals {
    if events == [] then NOTHING
    else Counted(codec, TotalsOf(codec, events[..|events| - 1]), events[|events| - 1])
  }

  datatype Identity = ByKey(key: EventKey) | ById(id: string)

  function IdentityOf(e: Event): Identity {
    if e.key.Some? then ByKey(e.key.value) else ById(e.id)
  }

  function Identities(events: Events): set<Identity> {
    set e | e in events :: IdentityOf(e)
  }

  /** The worker's memory: the totals and the events they count. */
  datatype Memory = Memory(totals: Totals, applied: set<Identity>)

  function Noted(codec: Codec, m: Memory, e: Event): Memory {
    if IdentityOf(e) in m.applied then m else Memory(Counted(codec, m.totals, e), m.applied + {IdentityOf(e)})
  }

  function NotedAll(codec: Codec, m: Memory, events: Events): Memory {
    if events == [] then m else Noted(codec, NotedAll(codec, m, events[..|events| - 1]), events[|events| - 1])
  }

  /** The memory a worker starts or resumes with. */
  function Recalled(codec: Codec, turnEvents: Events): Memory {
    NotedAll(codec, Memory(NOTHING, {}), turnEvents)
  }

  // ------------------------------------------------------- what is made durable

  /** Whose events these are. */
  datatype Scope = Scope(conversation: ConversationId, turn: TurnId, task: TaskId)

  /** What a job reports, with the identities and the quota its appends would meet. */
  datatype Emission = Emission(kind: EventKind, payload: Json, id: string, summaryId: string, at: Time, quota: nat)

  datatype Canonical =
    | NotCanonical
    | Malformed
    | Write(kind: EventKind, payload: Json, visible: bool, key: Option<EventKey>)

  function TruthyText(codec: Codec, payload: Json, key: string): Option<string> {
    if Truthy(ValueAt(payload, key)) then Some(ShowText(codec, ValueAt(payload, key))) else None
  }

  function WithField(payload: Json, key: string, value: Json): Json {
    if payload.Obj? then Obj(payload.fields[key := value]) else payload
  }

  /** The kinds that occur only here, by name. */
  function NamedCanonical(codec: Codec, name: string, payload: Json): Canonical {
    var call, approval, child :=
      TruthyText(codec, payload, "tool_call_id"), TruthyText(codec, payload, "approval_id"), TruthyText(codec, payload, "child_task_id");
    if name == "malformed_tool_call" then
      if call.Some? then Write(OtherKind(name), payload, false, Some(Named("malformed_tool_call:" + call.value))) else NotCanonical
    else if name == "approval_required" then
      if call.Some? && approval.Some?
      then Write(OtherKind(name), payload, false, Some(Named("approval:" + approval.value + ":required"))) else Malformed
    else if name == "provider_switch" || name == "model_switch" then Write(OtherKind(name), payload, false, None)
    else if (name == "subagent_spawned" || name == "subagent_completed") && child.Some? then
      Write(SystemNote, WithField(payload, "agent_event", Str(name)), false, Some(Named("subagent:" + child.value + ":" + name)))
    else NotCanonical
  }

  /** How `on_event` stores an event, and under which key. */
  function CanonicalOf(codec: Codec, turn: TurnId, kind: EventKind, payload: Json): Canonical {
    var call := TruthyText(codec, payload, "tool_call_id");
    match kind
    case AssistantMessage =>
      (match TruthyText(codec, payload, "message_id")
       case Some(id) => Write(kind, payload, true, Some(AssistantOf(id)))
       case None => Malformed)
    case ToolCall => if call.Some? then Write(kind, payload, true, Some(CallOf(call.value))) else NotCanonical
    case ToolResult => if call.Some? then Write(kind, payload, true, Some(ResultOf(call.value))) else NotCanonical
    case ApprovalResolved =>
      (match TruthyText(codec, payload, "approval_id")
       case Some(id) => if call.Some? then Write(kind, payload, false, Some(ApprovalOf(id))) else Malformed
       case None => Malformed)
    case Usage =>
      (match TruthyText(codec, payload, "message_id")
       case Some(id) => Write(kind, payload, false, Some(UsageOf(id)))
       case None => Write(kind, payload, false, None))
    case SystemNote =>
      Write(kind, payload, false, Some(Named("system_note:" + Decimal(turn) + ":" + TextOr(codec, payload, "kind", "note") + ":"
                                             + TextOr(codec, payload, "skill", "rules"))))
    case OtherKind(name) => NamedCanonical(codec, name, payload)
    case _ => NotCanonical
  }

  function CanonicalDraft(s: Scope, w: Canonical): Draft
    requires w.Write?
  {
    Draft(s.conversation, s.turn, Some(s.task), w.kind, w.visible, w.key, w.payload)
  }

  /** The summary that a build result brings along as an event of its own. */
  function SummaryDraft(codec: Codec, s: Scope, kind: EventKind, payload: Json): Option<Draft> {
    var summary := ValueAt(payload, "summary");
    if kind.ToolResult? && ValueAt(payload, "name") == Str("run_gradle") && summary.Obj? && Truthy(ValueAt(summary, "schema_version")) then
      Some(Draft(s.conversation, s.turn, Some(s.task),
                 OtherKind(if ValueAt(summary, "kind") == Str("test") then "test_summary" else "build_summary"), false,
                 Some(Named("turn:" + Decimal(s.turn) + ":summary:" + TextOr(codec, payload, "tool_call_id", ""))),
                 WithField(summary, "tool_call_id", ValueAt(payload, "tool_call_id"))))
    else None
  }

  predicate Answered(r: AppendResult) {
    r.Appended? || r.Existing?
  }

  /** What an emission leaves: the log, the event to count, and whether the job goes on. */
  datatype Emitted = Emitted(events: Events, noted: Option<Event>, ok: bool)

  function EmitOutcome(codec: Codec, turns: Turns, events: Events, s: Scope, x: Emission): Emitted {
    var w := CanonicalOf(codec, s.turn, x.kind, x.payload);
    match w
    case Malformed => Emitted(events, None, false)
    case NotCanonical => Emitted(events, None, true)
    case Write(_, _, _, _) =>
      var r := AppendOutcome(turns, events, CanonicalDraft(s, w), w.key.Some?, x.id, x.at, x.quota);
      if !Answered(r) then Emitted(events, None, false)
      else WithSummary(turns, LogAfter(events, r), SummaryDraft(codec, s, x.kind, x.payload), r.event, x)
  }

  function WithSummary(turns: Turns, events: Events, d: Option<Draft>, noted: Event, x: Emission): Emitted {
    match d
    case None => Emitted(events, Some(noted), true)
    case Some(summary) =>
      var r := AppendOutcome(turns, events, summary, true, x.summaryId, x.at, x.quota);
      if Answered(r) then Emitted(LogAfter(events, r), Some(noted), true) else Emitted(events, None, false)
  }

  // ---------------------------------------------------------------- the object

  /** The variables that the closures of one job share. */
  class TurnEvidence {
    var successfulEdits: nat
    var buildAttempted: bool
    var buildSucceeded: bool
    var approvalDecisions: seq<string>
    var inputTokens: int
    var outputTokens: int
    var totalTokens: int
    var applied: set<Identity>

    function Contents(): Memory
      reads this
    {
      Memory(Totals(successfulEdits, buildAttempted, buildSucceeded, approvalDecisions, inputTokens, outputTokens, totalTokens), applied)
    }

    /** A job starts, or resumes, by applying what its turn has recorded so far. */
    constructor (codec: Codec, priorEvents: Events)
      ensures Contents() == Recalled(codec, priorEvents)
    {
      successfulEdits, buildAttempted, buildSucceeded, approvalDecisions := 0, false, false, [];
      inputTokens, outputTokens, totalTokens, applied := 0, 0, 0, {};
      new;
      assert priorEvents[..0] == [];
      for i := 0 to |priorEvents|
        invariant Contents() == Recalled(codec, priorEvents[..i])
      {
        assert priorEvents[..i + 1][..i] == priorEvents[..i];
        var _ := ApplyEvidence(codec, priorEvents[i]);
      }
      assert priorEvents[..|priorEvents|] == priorEvents;
    }

    /** `apply_evidence`. */
    method ApplyEvidence(codec: Codec, event: Event) returns (counted: bool)
      modifies this
      ensures counted == (IdentityOf(event) !in old(applied))
      ensures Contents() == Noted(codec, old(Contents()), event)
    {
      var identity := IdentityOf(event);
      if identity in applied { return false; }
      applied := applied + {identity};
      if event.kind.ToolResult? {
        if EditResult(event) { successfulEdits := successfulEdits + 1; }
        if BuildResult(event) { buildAttempted, buildSucceeded := true, Truthy(ValueAt(event.payload, "ok")); }
      } else if Decision(event) {
        approvalDecisions := approvalDecisions + [ShowText(codec, ValueAt(event.payload, "decision"))];
      }
      if event.kind.Usage? {
        var usage := ValueAt(event.payload, "usage");
        inputTokens := inputTokens + IntAt(usage, "input_tokens");
        outputTokens := outputTokens + IntAt(usage, "output_tokens");
        totalTokens := totalTokens + IntAt(usage, "total_tokens");
      }
      return true;
    }

    /** `on_event` with `append_canonical`: the event is made durable first and counted only then. */
    method OnEvent(codec: Codec, db: Database, s: Scope, x: Emission) returns (ok: bool)
      modifies this, db`events
      ensures var r := EmitOutcome(codec, db.turns, old(db.events), s, x);
        && ok == r.ok && db.events == r.events
        && Contents() == if r.noted.Some? then Noted(codec, old(Contents()), r.noted.value) else old(Contents())
    {
      hide AppendOutcome, Noted, CanonicalOf, SummaryDraft;
      var w := CanonicalOf(codec, s.turn, x.kind, x.payload);
      if w.Malformed? { return false; }
      if w.NotCanonical? { return true; }
      var canonical := AppendEvent(db, CanonicalDraft(s, w), w.key.Some?, x.id, x.at, x.quota);
      if !Answered(canonical) { return false; }
      var summary := SummaryDraft(codec, s, x.kind, x.payload);
      if summary.Some? {
        var r := AppendEvent(db, summary.value, true, x.summaryId, x.at, x.quota);
        if !Answered(r) { return false; }
      }
      var _ := ApplyEvidence(codec, canonical.event);
      return true;
    }
  }

  // --------------------------------------------------- memory and durable log

  ghost predicate DistinctIdentities(events: Events) {
    forall i, j | 0 <= i < j < |events| :: IdentityOf(events[i]) != IdentityOf(events[j])
  }

  lemma IdentitiesOneMore(events: Events, e: Event)
    ensures Identities(events + [e]) == Identities(events) + {IdentityOf(e)}
  {
    hide IdentityOf;
  }

  lemma TotalsOneMore(codec: Codec, events: Events, e: Event)
    ensures TotalsOf(codec, events + [e]) == Counted(codec, TotalsOf(codec, events), e)
  {
    assert (events + [e])[..|events|] == events;
    hide Counted;
  }

  lemma RecalledOneMore(codec: Codec, events: Events, e: Event)
    ensures Recalled(codec, events + [e]) == Noted(codec, Recalled(codec, events), e)
  {
    assert (events + [e])[..|events|] == events;
    hide Noted;
  }

  /** Recalling distinct events counts each of them. */
  lemma {:induction false} RecalledIsTotal(codec: Codec, events: Events)
    requires DistinctIdentities(events)
    ensures Recalled(codec, events) == Memory(TotalsOf(codec, events), Identities(events))
  {
    if events != [] {
      hide IdentityOf, Counted, TotalsOf, Recalled;
      var init, last := events[..|events| - 1], events[|events| - 1];
      assert events == init + [last];
      RecalledIsTotal(codec, init);
      RecalledOneMore(codec, init, last);
      IdentitiesOneMore(init, last);
      TotalsOneMore(codec, init, last);
      LastIsDistinct(events);
    } else {
      assert Identities([]) == {};
    }
  }

  lemma LastIsDistinct(events: Events)
    requires events != [] && DistinctIdentities(events)
    ensures DistinctIdentities(events[..|events| - 1])
    ensures IdentityOf(events[|events| - 1]) !in Identities(events[..|events| - 1])
  {
    hide IdentityOf;
    var init := events[..|events| - 1];
    assert forall i | 0 <= i < |init| :: init[i] == events[i];
  }

  /** An event that carries no evidence changes no total. */
  lemma NoEvidence(codec: Codec, t: Totals, e: Event)
    requires !e.kind.ToolResult? && !e.kind.ApprovalResolved? && !e.kind.Usage?
    ensures Counted(codec, t, e) == t
  {
  }

  predicate Bears(e: Event) {
    e.kind.ToolResult? || e.kind.ApprovalResolved? || e.kind.Usage?
  }

  // ------------------------------------------------------- identities of a log

  /** Event ids are fresh when they are made, so no two events share one. */
  ghost predicate DistinctIds(events: Events) {
    forall i, j | 0 <= i < j < |events| :: events[i].id != events[j].id
  }

  ghost predicate Sound(turns: Turns, events: Events) {
    SoundLog(turns, events) && DistinctIds(events)
  }

  ghost predicate InScope(turns: Turns, s: Scope) {
    s.turn in turns && turns[s.turn].conversation == s.conversation
  }

  /** The identities known to a conversation. */
  function Known(events: Events, conversation: ConversationId): set<Identity> {
    set e | e in events && e.conversation == conversation :: IdentityOf(e)
  }

  lemma KnownOneMore(events: Events, e: Event)
    ensures Known(events + [e], e.conversation) == Known(events, e.conversation) + {IdentityOf(e)}
    ensures forall c | c != e.conversation :: Known(events + [e], c) == Known(events, c)
  {
    hide IdentityOf;
    assert forall x :: x in events + [e] <==> x in events || x == e;
  }

  lemma SoundPrefix(turns: Turns, events: Events, e: Event)
    requires Sound(turns, events + [e])
    ensures Sound(turns, events)
    ensures IdentityOf(e) !in Known(events, e.conversation)
    ensures e.turn in turns && turns[e.turn].conversation == e.conversation
  {
    hide *;
    PrefixIsSound(turns, events, e);
    LastIsNew(turns, events, e);
    LastIsOwned(turns, events, e);
  }

  lemma PrefixIsSound(turns: Turns, events: Events, e: Event)
    requires Sound(turns, events + [e])
    ensures Sound(turns, events)
  {
    var longer := events + [e];
    hide CountIn;
    assert forall i | 0 <= i < |events| :: longer[i] == events[i] && longer[..i] == events[..i];
    assert forall x | x in events :: x in longer;
  }

  lemma LastIsOwned(turns: Turns, events: Events, e: Event)
    requires Sound(turns, events + [e])
    ensures e.turn in turns && turns[e.turn].conversation == e.conversation
  {
    hide Dense, KeysUnique, DistinctIds;
    assert (events + [e])[|events|] == e && e in events + [e];
  }

  lemma LastIsNew(turns: Turns, events: Events, e: Event)
    requires Sound(turns, events + [e])
    ensures IdentityOf(e) !in Known(events, e.conversation)
  {
    var longer := events + [e];
    hide Dense, Owned;
    assert longer[|events|] == e;
    forall x | x in events && x.conversation == e.conversation ensures IdentityOf(x) != IdentityOf(e) {
      var i :| 0 <= i < |events| && events[i] == x;
      assert longer[i] == x;
    }
  }

  lemma {:induction false} TurnIsKnown(turns: Turns, events: Events, s: Scope)
    requires Owned(turns, events) && InScope(turns, s)
    ensures forall e | e in OfTurn(events, s.turn) :: e.conversation == s.conversation && IdentityOf(e) in Known(events, s.conversation)
  {
    OfTurnMembers(events, s.turn);
    hide OfTurn, IdentityOf;
  }

  lemma {:induction false} TurnDistinct(turns: Turns, events: Events, s: Scope)
    requires Sound(turns, events) && InScope(turns, s)
    ensures DistinctIdentities(OfTurn(events, s.turn))
  {
    if events == [] {
      assert OfTurn(events, s.turn) == [];
    } else {
      hide *;
      var init, last := events[..|events| - 1], events[|events| - 1];
      assert events == init + [last];
      SoundPrefix(turns, init, last);
      TurnDistinct(turns, init, s);
      TurnLogOneMore(init, last, s.turn);
      OwnedOf(turns, init);
      TurnIsKnown(turns, init, s);
      if last.turn == s.turn {
        ScopeIs(turns, s);
        OneMoreDistinct(OfTurn(init, s.turn), last, Known(init, s.conversation));
      }
    }
  }

  lemma ScopeIs(turns: Turns, s: Scope)
    requires InScope(turns, s)
    ensures s.turn in turns && turns[s.turn].conversation == s.conversation
  {
  }

  lemma OneMoreDistinct(events: Events, e: Event, known: set<Identity>)
    requires DistinctIdentities(events) && IdentityOf(e) !in known
    requires forall x | x in events :: IdentityOf(x) in known
    ensures DistinctIdentities(events + [e])
  {
    hide IdentityOf;
  }

  lemma OwnedOf(turns: Turns, events: Events)
    requires Sound(turns, events)
    ensures Owned(turns, events)
  {
    hide Owned;
  }

  lemma TurnLogOneMore(events: Events, e: Event, turn: TurnId)
    ensures OfTurn(events + [e], turn) == if e.turn == turn then OfTurn(events, turn) + [e] else OfTurn(events, turn)
  {
    OfTurnAppend(events, e, turn);
    hide OfTurn;
    assert OfTurn(events, turn) + [] == OfTurn(events, turn);
  }

  // --------------------------------------------------------- memory in step

  /**
    The memory agrees with the turn's durable events, has counted each of them
    that bears evidence, and knows no identity that the log does not.
   */
  ghost predicate InStep(codec: Codec, m: Memory, events: Events, s: Scope) {
    && m.totals == TotalsOf(codec, OfTurn(events, s.turn))
    && m.applied <= Known(events, s.conversation)
    && forall e | e in OfTurn(events, s.turn) && Bears(e) :: IdentityOf(e) in m.applied
  }

  /** An event that joins the log without being counted keeps the step if it bears nothing for this turn. */
  lemma OtherKeepsStep(codec: Codec, m: Memory, events: Events, s: Scope, e: Event)
    requires InStep(codec, m, events, s) && (e.turn == s.turn ==> !Bears(e))
    ensures InStep(codec, m, events + [e], s)
  {
    hide Counted, IdentityOf, OfTurn, TotalsOf, Known, Bears, NOTHING;
    TurnLogOneMore(events, e, s.turn);
    KnownOneMore(events, e);
    if e.turn == s.turn {
      TotalsOneMore(codec, OfTurn(events, s.turn), e);
      QuietEvent(codec, m.totals, e);
    }
  }

  lemma QuietEvent(codec: Codec, t: Totals, e: Event)
    requires !Bears(e)
    ensures Counted(codec, t, e) == t
  {
    NoEvidence(codec, t, e);
  }

  /** A new event of the turn that is counted keeps it too. */
  lemma NotingNewKeepsStep(codec: Codec, m: Memory, events: Events, s: Scope, e: Event)
    requires InStep(codec, m, events, s) && e.turn == s.turn && e.conversation == s.conversation
    requires IdentityOf(e) !in Known(events, s.conversation)
    ensures InStep(codec, Noted(codec, m, e), events + [e], s)
  {
    TurnLogOneMore(events, e, s.turn);
    KnownOneMore(events, e);
    TotalsOneMore(codec, OfTurn(events, s.turn), e);
    hide Counted, IdentityOf, OfTurn, TotalsOf, Known, Bears;
  }

  /** What an event must be to add nothing: no edit, no decision, no tokens, and no news about the build. */
  predicate AddsNothing(t: Totals, e: Event) {
    && !EditResult(e) && !Decision(e)
    && (BuildResult(e) ==> t.attempted && t.succeeded == Truthy(ValueAt(e.payload, "ok")))
    && (e.kind.Usage? ==>
          var usage := ValueAt(e.payload, "usage");
          IntAt(usage, "input_tokens") == 0 && IntAt(usage, "output_tokens") == 0 && IntAt(usage, "total_tokens") == 0)
  }

  lemma CountedSameExactly(codec: Codec, t: Totals, e: Event)
    ensures Counted(codec, t, e) == t <==> AddsNothing(t, e)
  {
    if Decision(e) { assert |Counted(codec, t, e).decisions| == |t.decisions| + 1; }
    hide EditResult, BuildResult, Decision, IntAt;
  }

  /** An event of the log that is counted keeps the totals right exactly when it is of this turn, counted already, or adds nothing. */
  lemma NotingKnownExactly(codec: Codec, m: Memory, events: Events, s: Scope, e: Event)
    requires InStep(codec, m, events, s) && e in events && e.conversation == s.conversation
    ensures Noted(codec, m, e).totals == TotalsOf(codec, OfTurn(events, s.turn)) <==>
      (e.turn != s.turn && IdentityOf(e) !in m.applied ==> AddsNothing(m.totals, e))
    ensures Noted(codec, m, e).totals == m.totals ==> InStep(codec, Noted(codec, m, e), events, s)
  {
    OfTurnMembers(events, s.turn);
    CountedSameExactly(codec, m.totals, e);
    if !Bears(e) { NoEvidence(codec, m.totals, e); }
    assert IdentityOf(e) in Known(events, s.conversation);
    hide Counted, IdentityOf, OfTurn, TotalsOf, Known, AddsNothing;
  }

  lemma RecallInStep(codec: Codec, turns: Turns, events: Events, s: Scope)
    requires Sound(turns, events) && InScope(turns, s)
    ensures InStep(codec, Recalled(codec, OfTurn(events, s.turn)), events, s)
  {
    TurnDistinct(turns, events, s);
    RecalledIsTotal(codec, OfTurn(events, s.turn));
    OwnedOf(turns, events);
    TurnIsKnown(turns, events, s);
    hide IdentityOf, OfTurn, TotalsOf, Recalled, Known, Owned, Sound;
  }

  // -------------------------------------------------------- one emission, exactly

  /** The ids an emission would use are fresh. */
  ghost predicate FreshIds(events: Events, x: Emission) {
    x.id != x.summaryId && forall e | e in events :: e.id != x.id && e.id != x.summaryId
  }

  lemma AppendedIsSound(turns: Turns, events: Events, d: Draft, id: string, at: Time)
    requires Sound(turns, events) && d.turn in turns && turns[d.turn].conversation == d.conversation
    requires d.key.Some? ==> FindKey(events, d.conversation, d.key.value).None?
    requires forall e | e in events :: e.id != id
    ensures Sound(turns, events + [Placed(events, d, id, at)])
  {
    hide SoundLog, FindKey, MaxSeq;
    PlacedKeepsSound(turns, events, d, id, at);
  }

  /** What an append does, seen from the turn it is made for. */
  lemma AppendCases(turns: Turns, events: Events, d: Draft, id: string, at: Time, quota: nat)
    requires Sound(turns, events) && (forall e | e in events :: e.id != id)
    ensures var r := AppendOutcome(turns, events, d, d.key.Some?, id, at, quota);
      && (r.Appended? ==>
            && r.event.turn == d.turn && r.event.conversation == d.conversation && r.event.kind == d.kind && r.event.id == id
            && Sound(turns, events + [r.event]))
      && (r.Existing? ==>
            r.event in events && r.event.conversation == d.conversation
            && d.key.Some? && FindKey(events, d.conversation, d.key.value) == Some(r.event))
  {
    var r := AppendOutcome(turns, events, d, d.key.Some?, id, at, quota);
    if d.key.Some? { FindKeyMeans(events, d.conversation, d.key.value); }
    hide FindKey, MaxSeq, CountIn, Sound;
    if r.Appended? { AppendedIsSound(turns, events, WithTask(d, turns), id, at); }
  }

  /** An emission whose key leads to an event of another turn counts only what adds nothing here, or was counted before. */
  ghost predicate Harmless(codec: Codec, turns: Turns, s: Scope, m: Memory, events: Events, x: Emission) {
    var w := CanonicalOf(codec, s.turn, x.kind, x.payload);
    w.Write? && w.key.Some? && EmitOutcome(codec, turns, events, s, x).ok ==>
      match FindKey(events, s.conversation, w.key.value)
      case Some(e) => e.turn != s.turn && IdentityOf(e) !in m.applied ==> AddsNothing(m.totals, e)
      case None => true
  }

  function AfterEmission(codec: Codec, m: Memory, r: Emitted): Memory {
    if r.noted.Some? then Noted(codec, m, r.noted.value) else m
  }

  ghost predicate Agrees(codec: Codec, m: Memory, events: Events, s: Scope) {
    m.totals == TotalsOf(codec, OfTurn(events, s.turn))
  }

  lemma SummaryKeeps(
    codec: Codec, turns: Turns, s: Scope, m: Memory, events: Events, kind: EventKind, payload: Json, noted: Event, x: Emission)
    requires Sound(turns, events) && (forall e | e in events :: e.id != x.summaryId)
    ensures var r := WithSummary(turns, events, SummaryDraft(codec, s, kind, payload), noted, x);
      && Sound(turns, r.events) && (r.ok ==> r.noted == Some(noted))
      && (InStep(codec, m, events, s) ==> InStep(codec, m, r.events, s))
      && (Agrees(codec, m, r.events, s) <==> Agrees(codec, m, events, s))
  {
    var d := SummaryDraft(codec, s, kind, payload);
    if d.Some? {
      SummaryShape(codec, s, kind, payload);
      AppendCases(turns, events, d.value, x.summaryId, x.at, x.quota);
      hide SummaryDraft, AppendOutcome, Sound, InStep;
      var r := AppendOutcome(turns, events, d.value, true, x.summaryId, x.at, x.quota);
      if r.Appended? {
        if InStep(codec, m, events, s) { OtherKeepsStep(codec, m, events, s, r.event); }
        QuietKeepsTotals(codec, events, s, r.event);
      }
    }
  }

  lemma QuietKeepsTotals(codec: Codec, events: Events, s: Scope, e: Event)
    requires !Bears(e)
    ensures TotalsOf(codec, OfTurn(events + [e], s.turn)) == TotalsOf(codec, OfTurn(events, s.turn))
  {
    TurnLogOneMore(events, e, s.turn);
    TotalsOneMore(codec, OfTurn(events, s.turn), e);
    NoEvidence(codec, TotalsOf(codec, OfTurn(events, s.turn)), e);
    hide OfTurn, TotalsOf, Counted;
  }

  lemma SummaryShape(codec: Codec, s: Scope, kind: EventKind, payload: Json)
    ensures var d := SummaryDraft(codec, s, kind, payload);
      d.Some? ==> d.value.key.Some? && d.value.turn == s.turn && d.value.kind.OtherKind?
  {
    hide WithField, Decimal;
  }

  lemma EmitUnfold(codec: Codec, turns: Turns, events: Events, s: Scope, x: Emission)
    ensures var w := CanonicalOf(codec, s.turn, x.kind, x.payload);
      && (!w.Write? ==> EmitOutcome(codec, turns, events, s, x) == Emitted(events, None, w.NotCanonical?))
      && (w.Write? ==>
            var r := AppendOutcome(turns, events, CanonicalDraft(s, w), w.key.Some?, x.id, x.at, x.quota);
            EmitOutcome(codec, turns, events, s, x)
            == if Answered(r) then WithSummary(turns, LogAfter(events, r), SummaryDraft(codec, s, x.kind, x.payload), r.event, x)
               else Emitted(events, None, false))
  {
    hide CanonicalOf, AppendOutcome, SummaryDraft, WithSummary;
  }

  /**
    An emission of the turn keeps memory and log in step exactly when it is
    harmless.  The keys of calls and results are per conversation, so a call id
    that an earlier turn used leads to that turn's event, which is then counted
    here as well.
   */
  lemma EmitKeepsStepExactly(codec: Codec, turns: Turns, events: Events, s: Scope, m: Memory, x: Emission)
    requires Sound(turns, events) && InScope(turns, s) && InStep(codec, m, events, s) && FreshIds(events, x)
    ensures var r := EmitOutcome(codec, turns, events, s, x);
      && Sound(turns, r.events)
      && (r.ok ==> (Agrees(codec, AfterEmission(codec, m, r), r.events, s) <==> Harmless(codec, turns, s, m, events, x)))
      && (r.ok && Harmless(codec, turns, s, m, events, x) ==> InStep(codec, AfterEmission(codec, m, r), r.events, s))
  {
    var w := CanonicalOf(codec, s.turn, x.kind, x.payload);
    EmitUnfold(codec, turns, events, s, x);
    if w.Write? {
      var d := CanonicalDraft(s, w);
      var r := AppendOutcome(turns, events, d, w.key.Some?, x.id, x.at, x.quota);
      AppendCases(turns, events, d, x.id, x.at, x.quota);
      hide CanonicalOf, AppendOutcome, SummaryDraft, WithSummary, EmitOutcome, Sound, InStep, Noted, AddsNothing, IdentityOf, FindKey, Agrees;
      if r.Appended? {
        AppendedKeepsStep(codec, turns, events, s, m, x, w, r.event);
      } else if r.Existing? {
        ExistingKeepsStep(codec, turns, events, s, m, x, r.event);
      }
    } else {
      hide CanonicalOf, AppendOutcome, EmitOutcome, Sound;
    }
  }

  lemma AppendedKeepsStep(
    codec: Codec, turns: Turns, events: Events, s: Scope, m: Memory, x: Emission, w: Canonical, e: Event)
    requires Sound(turns, events) && InStep(codec, m, events, s) && FreshIds(events, x)
    requires w.Write? && w == CanonicalOf(codec, s.turn, x.kind, x.payload)
    requires AppendOutcome(turns, events, CanonicalDraft(s, w), w.key.Some?, x.id, x.at, x.quota) == Appended(e)
    requires e.turn == s.turn && e.conversation == s.conversation && e.id == x.id && Sound(turns, events + [e])
    ensures var r := WithSummary(turns, events + [e], SummaryDraft(codec, s, x.kind, x.payload), e, x);
      && Sound(turns, r.events)
      && (r.ok ==> Harmless(codec, turns, s, m, events, x) && Agrees(codec, AfterEmission(codec, m, r), r.events, s)
                   && InStep(codec, AfterEmission(codec, m, r), r.events, s))
  {
    SoundPrefix(turns, events, e);
    NotingNewKeepsStep(codec, m, events, s, e);
    NewIsHarmless(codec, turns, s, m, events, x, w, e);
    hide CanonicalOf, AppendOutcome, SummaryDraft, WithSummary, Sound, Noted, IdentityOf, Harmless;
    SummaryKeeps(codec, turns, s, Noted(codec, m, e), events + [e], x.kind, x.payload, e, x);
  }

  lemma NewIsHarmless(codec: Codec, turns: Turns, s: Scope, m: Memory, events: Events, x: Emission, w: Canonical, e: Event)
    requires w.Write? && w == CanonicalOf(codec, s.turn, x.kind, x.payload)
    requires AppendOutcome(turns, events, CanonicalDraft(s, w), w.key.Some?, x.id, x.at, x.quota) == Appended(e)
    ensures Harmless(codec, turns, s, m, events, x)
  {
    hide CanonicalOf, EmitOutcome, FindKey, CountIn, Placed;
  }

  lemma ExistingKeepsStep(codec: Codec, turns: Turns, events: Events, s: Scope, m: Memory, x: Emission, e: Event)
    requires Sound(turns, events) && InStep(codec, m, events, s) && FreshIds(events, x)
    requires e in events && e.conversation == s.conversation
    requires var w := CanonicalOf(codec, s.turn, x.kind, x.payload);
      && w.Write? && w.key.Some? && FindKey(events, s.conversation, w.key.value) == Some(e)
      && EmitOutcome(codec, turns, events, s, x) == WithSummary(turns, events, SummaryDraft(codec, s, x.kind, x.payload), e, x)
    ensures var r := WithSummary(turns, events, SummaryDraft(codec, s, x.kind, x.payload), e, x);
      && Sound(turns, r.events)
      && (r.ok ==> (Agrees(codec, AfterEmission(codec, m, r), r.events, s) <==> Harmless(codec, turns, s, m, events, x)))
      && (r.ok && Harmless(codec, turns, s, m, events, x) ==> InStep(codec, AfterEmission(codec, m, r), r.events, s))
  {
    NotingKnownExactly(codec, m, events, s, e);
    hide CanonicalOf, SummaryDraft, WithSummary, Sound, Noted, IdentityOf, EmitOutcome, AddsNothing, FindKey;
    SummaryKeeps(codec, turns, s, Noted(codec, m, e), events, x.kind, x.payload, e, x);
  }

  // -------------------------------------------------------------------- runs

  /** A log, and the memory of the worker whose turn it is, None while none runs. */
  datatype Situation = Situation(events: Events, memory: Option<Memory>)

  datatype Step =
    | Emit(emission: Emission)
    | Other(event: Event)
    | Stop
    | Resume

  /**
    A worker emits events of its turn, and is gone when that fails; others append
    too, though no evidence of this turn while its worker runs; a stop drops the
    memory and a resume recalls it from the log.
   */
  ghost predicate Steps(codec: Codec, turns: Turns, s: Scope, j: Situation, step: Step, j': Situation) {
    match step
    case Emit(x) =>
      && j.memory.Some? && FreshIds(j.events, x)
      && var r := EmitOutcome(codec, turns, j.events, s, x);
         j' == Situation(r.events, if r.ok then Some(AfterEmission(codec, j.memory.value, r)) else None)
    case Other(e) =>
      && Sound(turns, j.events + [e]) && (j.memory.Some? && e.turn == s.turn ==> !Bears(e))
      && j' == Situation(j.events + [e], j.memory)
    case Stop => j' == Situation(j.events, None)
    case Resume => j' == Situation(j.events, Some(Recalled(codec, OfTurn(j.events, s.turn))))
  }

  ghost predicate Run(codec: Codec, turns: Turns, s: Scope, jobs: seq<Situation>, steps: seq<Step>) {
    && |jobs| == |steps| + 1 && InScope(turns, s)
    && Sound(turns, jobs[0].events) && jobs[0].memory.None?
    && forall i | 0 <= i < |steps| :: Steps(codec, turns, s, jobs[i], steps[i], jobs[i + 1])
  }

  ghost predicate AgreesAt(codec: Codec, s: Scope, j: Situation) {
    j.memory.Some? ==> Agrees(codec, j.memory.value, j.events, s)
  }

  ghost predicate InStepAt(codec: Codec, s: Scope, j: Situation) {
    j.memory.Some? ==> InStep(codec, j.memory.value, j.events, s)
  }

  ghost predicate HarmlessAt(codec: Codec, turns: Turns, s: Scope, j: Situation, step: Step) {
    step.Emit? && j.memory.Some? ==> Harmless(codec, turns, s, j.memory.value, j.events, step.emission)
  }

  /** One step from a situation in step, exactly. */
  lemma StepExactly(codec: Codec, turns: Turns, s: Scope, j: Situation, step: Step, j': Situation)
    requires InScope(turns, s) && Sound(turns, j.events) && InStepAt(codec, s, j) && Steps(codec, turns, s, j, step, j')
    ensures Sound(turns, j'.events)
    ensures AgreesAt(codec, s, j') <==> HarmlessAt(codec, turns, s, j, step)
    ensures HarmlessAt(codec, turns, s, j, step) ==> InStepAt(codec, s, j')
  {
    hide Sound, Harmless, EmitOutcome, Recalled, InScope, FreshIds, Bears;
    match step
    case Emit(x) =>
      EmitKeepsStepExactly(codec, turns, j.events, s, j.memory.value, x);
      if !EmitOutcome(codec, turns, j.events, s, x).ok { FailedIsHarmless(codec, turns, s, j.memory.value, j.events, x); }
      hide InStep, AfterEmission, Agrees;
    case Other(e) =>
      if j.memory.Some? { OtherKeepsStep(codec, j.memory.value, j.events, s, e); }
    case Stop =>
    case Resume =>
      RecallInStep(codec, turns, j.events, s);
  }

  lemma FailedIsHarmless(codec: Codec, turns: Turns, s: Scope, m: Memory, events: Events, x: Emission)
    requires !EmitOutcome(codec, turns, events, s, x).ok
    ensures Harmless(codec, turns, s, m, events, x)
  {
    hide EmitOutcome, CanonicalOf, FindKey, AddsNothing;
  }

  ghost predicate AgreesUpTo(codec: Codec, s: Scope, jobs: seq<Situation>, n: nat)
    requires n < |jobs|
  {
    forall i | 0 <= i <= n :: AgreesAt(codec, s, jobs[i])
  }

  ghost predicate HarmlessUpTo(codec: Codec, turns: Turns, s: Scope, jobs: seq<Situation>, steps: seq<Step>, n: nat)
    requires n <= |steps| < |jobs|
  {
    forall i | 0 <= i < n :: HarmlessAt(codec, turns, s, jobs[i], steps[i])
  }

  /**
    In every run, wherever it was stopped and whatever was emitted twice, the
    totals in memory are at all times those of the turn's durable events in log
    order, if and only if every emission was harmless.
   */
  lemma {:induction false} TotalsFollowTheLogExactly(
    codec: Codec, turns: Turns, s: Scope, jobs: seq<Situation>, steps: seq<Step>, n: nat)
    requires Run(codec, turns, s, jobs, steps) && n <= |steps|
    ensures AgreesUpTo(codec, s, jobs, n) <==> HarmlessUpTo(codec, turns, s, jobs, steps, n)
    ensures Sound(turns, jobs[n].events) || !HarmlessUpTo(codec, turns, s, jobs, steps, n)
    ensures HarmlessUpTo(codec, turns, s, jobs, steps, n) ==> InStepAt(codec, s, jobs[n])
  {
    hide Sound, Steps, AgreesAt, HarmlessAt, InStep;
    if n == 0 {
      assert AgreesAt(codec, s, jobs[0]) by { NobodyAgrees(codec, s, jobs[0]); }
    } else {
      TotalsFollowTheLogExactly(codec, turns, s, jobs, steps, n - 1);
      assert Steps(codec, turns, s, jobs[n - 1], steps[n - 1], jobs[(n - 1) + 1]);
      hide InStepAt;
      if HarmlessUpTo(codec, turns, s, jobs, steps, n - 1) {
        StepExactly(codec, turns, s, jobs[n - 1], steps[n - 1], jobs[n]);
      }
    }
  }

  lemma NobodyAgrees(codec: Codec, s: Scope, j: Situation)
    requires j.memory.None?
    ensures AgreesAt(codec, s, j)
  {
  }

  /** The key an emission goes to is free or holds an event of this very turn. */
  ghost predicate OwnKey(codec: Codec, s: Scope, events: Events, x: Emission) {
    var w := CanonicalOf(codec, s.turn, x.kind, x.payload);
    w.Write? && w.key.Some? && FindKey(events, s.conversation, w.key.value).Some? ==>
      FindKey(events, s.conversation, w.key.value).value.turn == s.turn
  }

  /** A turn that reuses no other turn's call and message ids only makes harmless emissions. */
  lemma OwnKeysAreHarmless(codec: Codec, turns: Turns, s: Scope, m: Memory, events: Events, x: Emission)
    requires OwnKey(codec, s, events, x)
    ensures Harmless(codec, turns, s, m, events, x)
  {
    hide CanonicalOf, FindKey, EmitOutcome, AddsNothing;
  }

  /** Totals do not depend on ids and times of events, so two runs that leave alike logs end with the same totals. */
  lemma {:induction false} AlikeTotals(codec: Codec, a: Events, b: Events)
    requires Alike(a, b)
    ensures TotalsOf(codec, a) == TotalsOf(codec, b)
  {
    if a != [] {
      AlikeTotals(codec, a[..|a| - 1], b[..|b| - 1]);
      assert Bare(a[|a| - 1]) == Bare(b[|b| - 1]);
      SameCallId(a[|a| - 1], b[|b| - 1]);
      SameCount(codec, TotalsOf(codec, a[..|a| - 1]), a[|a| - 1], b[|b| - 1]);
      hide Counted;
    }
  }

  lemma SameCount(codec: Codec, t: Totals, a: Event, b: Event)
    requires a.kind == b.kind && a.payload == b.payload
    ensures Counted(codec, t, a) == Counted(codec, t, b)
  {
  }

  /** Two runs of a turn, stopped and resumed however often, end with the same totals when they leave the same durable log. */
  lemma PausesChangeNothing(
    codec: Codec, turns: Turns, s: Scope, jobs: seq<Situation>, steps: seq<Step>, jobs': seq<Situation>, steps': seq<Step>)
    requires Run(codec, turns, s, jobs, steps) && HarmlessUpTo(codec, turns, s, jobs, steps, |steps|)
    requires Run(codec, turns, s, jobs', steps') && HarmlessUpTo(codec, turns, s, jobs', steps', |steps'|)
    requires jobs[|steps|].memory.Some? && jobs'[|steps'|].memory.Some?
    requires Alike(jobs[|steps|].events, jobs'[|steps'|].events)
    ensures jobs[|steps|].memory.value.totals == jobs'[|steps'|].memory.value.totals
  {
    TotalsFollowTheLogExactly(codec, turns, s, jobs, steps, |steps|);
    TotalsFollowTheLogExactly(codec, turns, s, jobs', steps', |steps'|);
    AlikeOfTurn(jobs[|steps|].events, jobs'[|steps'|].events, s.turn);
    hide Steps, OfTurn, TotalsOf, Alike, InStep, Sound, HarmlessUpTo;
    assert AgreesAt(codec, s, jobs[|steps|]) && AgreesAt(codec, s, jobs'[|steps'|]);
    AlikeTotals(codec, OfTurn(jobs[|steps|].events, s.turn), OfTurn(jobs'[|steps'|].events, s.turn));
  }

  // ------------------------------------------------------------ a reused call id

  const EDIT := Obj(map["tool_call_id" := Str("c"), "name" := Str("write_file"), "ok" := Bool(true)])

  /**
    A call id used in two turns of a conversation does miscount: emitting the
    result of the second writes nothing and counts the edit of the first, until a
    pause and a resume set the totals right again.
   */
  lemma ReusedIdMiscounts(codec: Codec, turns: Turns, e: Event, x: Emission)
    requires e.conversation == 0 && e.turn == 1 && e.kind.ToolResult? && e.key == Some(ResultOf("c")) && e.payload == EDIT
    requires x.kind.ToolResult? && x.payload == EDIT
    ensures var s, m := Scope(0, 2, 0), Memory(NOTHING, {});
      var r := EmitOutcome(codec, turns, [e], s, x);
      && InStep(codec, m, [e], s)
      && r == Emitted([e], Some(e), true) && !Harmless(codec, turns, s, m, [e], x)
      && AfterEmission(codec, m, r).totals.edits == 1 && Recalled(codec, OfTurn([e], 2)).totals.edits == 0
  {
    var s := Scope(0, 2, 0);
    TurnLogOneMore([], e, 2);
    assert [] + [e] == [e];
    assert OfTurn([], 2) == [];
    EditFields();
    assert CanonicalOf(codec, 2, x.kind, x.payload) == Write(ToolResult, EDIT, true, Some(ResultOf("c")));
    assert HasKey(e, 0, ResultOf("c"));
    assert FindKey([e], 0, ResultOf("c")) == Some(e);
    assert SummaryDraft(codec, s, x.kind, x.payload) == None;
    assert EditResult(e);
  }

  lemma EditFields()
    ensures ValueAt(EDIT, "tool_call_id") == Str("c") && ValueAt(EDIT, "name") == Str("write_file")
    ensures ValueAt(EDIT, "ok") == Bool(true) && ValueAt(EDIT, "summary") == Null
  {
    assert |"tool_call_id"| == 12 && |"name"| == 4 && |"ok"| == 2 && |"summary"| == 7;
  }
}
