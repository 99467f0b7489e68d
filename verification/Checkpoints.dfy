/**
  Semantic checkpoints: what a summary of the older turns is built from, why it
  always passes its own validation, what it covers, and what the context that
  starts from it still shows.
 */
module Checkpoints {
  import opened JsonValue
  import opened Tables
  import opened EventStore
  import opened ContextEvents
  import opened RecoveredContext

  // ------------------------------------------------------------------- facts

  datatype Category = Goal | Constraints | Decisions | Unresolved | Files | Tests | ToolFacts | Errors

  /** A fact with its further fields; the lists of all categories are kept in one. */
  datatype Fact = Fact(category: Category, text: string, source: int, extra: map<string, Json>)

  function Word(s: string): (w: string)
    ensures |w| <= |s|
  {
    if s == "" || Space(s[0]) then "" else [s[0]] + Word(s[1..])
  }

  lemma StripLeftShrinks(s: string)
    ensures |StripLeft(s)| <= |s|
    ensures StripLeft(s) != "" ==> !Space(StripLeft(s)[0])
  {
  }

  /** `" ".join(text.split())`. */
  function Squeezed(s: string): string
    decreases |s|
  {
    StripLeftShrinks(s);
    var t := StripLeft(s);
    if t == "" then ""
    else
      assert Word(t) == [t[0]] + Word(t[1..]);
      var rest := Squeezed(t[|Word(t)|..]);
      if rest == "" then Word(t) else Word(t) + " " + rest
  }

  predicate SameFact(a: Fact, b: Fact) {
    a.category == b.category && a.text == b.text && a.extra == b.extra
  }

  /** `add`: blank texts and repetitions are dropped. */
  function Added(state: seq<Fact>, f: Fact): seq<Fact> {
    var cleaned := f.(text := Squeezed(f.text));
    if cleaned.text == "" || exists g | g in state :: SameFact(g, cleaned) then state else state + [cleaned]
  }

  function AddedAll(state: seq<Fact>, facts: seq<Fact>, n: nat): seq<Fact>
    requires n <= |facts|
  {
    if n == 0 then state else Added(AddedAll(state, facts, n - 1), facts[n - 1])
  }

  function AssistantText(codec: Codec, payload: Json): string {
    match Get(payload, "text_blocks")
    case Some(Arr(blocks)) => JoinTextBlocks(blocks)
    case _ => TextOr(codec, payload, "text", "")
  }

  /** The parts of extraction that are heuristics: the lines of a text that read like constraints, and the name of an event kind. */
  datatype Digest = Digest(constraintLines: string -> seq<string>, kindName: EventKind -> string, calledText: Json -> string)

  function LineFacts(lines: seq<string>, source: int): seq<Fact> {
    seq(|lines|, i requires 0 <= i < |lines| => Fact(Constraints, lines[i], source, map[]))
  }

  function ToolExtra(codec: Codec, payload: Json, status: string): map<string, Json> {
    map["tool_call_id" := ValueAt(payload, "tool_call_id"), "name" := Str(TextOr(codec, payload, "name", "tool")), "status" := Str(status)]
  }

  function ResultFacts(codec: Codec, e: Event): seq<Fact> {
    var name, output := TextOr(codec, e.payload, "name", "tool"), TextOr(codec, e.payload, "model_output", "");
    var ok := TrueAt(e.payload, "ok");
    [Fact(ToolFacts, name + (if ok then " succeeded: " else " failed: ") + output, e.seqNo,
          ToolExtra(codec, e.payload, if ok then "succeeded" else "failed"))]
    + (if name == "run_gradle" then [Fact(Tests, output, e.seqNo, map["ok" := Bool(ok), "name" := Str(name)])] else [])
    + (if ok then []
       else
         [Fact(Errors, if output != "" then output else name + " failed", e.seqNo,
               map["error_type" := ValueAt(e.payload, "error_type"), "tool_call_id" := ValueAt(e.payload, "tool_call_id")]),
          Fact(Unresolved, "Resolve failed tool " + name, e.seqNo, map[])])
  }

  function FileFacts(items: seq<Json>, source: int): seq<Fact> {
    if items == [] then []
    else
      (match items[0]
       case Str(path) => if path != "" then [Fact(Files, path, source, map["change" := Str("changed")])] else []
       case Obj(fields) =>
         if TextAt(items[0], "path") != ""
         then [Fact(Files, TextAt(items[0], "path"), source, map["change" := ValueAt(items[0], "change")])] else []
       case _ => [])
      + FileFacts(items[1..], source)
  }

  /** The facts one event offers. */
  function FactsOf(codec: Codec, digest: Digest, e: Event): seq<Fact> {
    if e.seqNo == 0 then []
    else
      match e.kind
      case UserMessage =>
        [Fact(Goal, UserText(e.payload), e.seqNo, map[])] + LineFacts(digest.constraintLines(UserText(e.payload)), e.seqNo)
      case AssistantMessage =>
        if AssistantText(codec, e.payload) != "" && TrueAt(e.payload, "is_final")
        then [Fact(Decisions, AssistantText(codec, e.payload), e.seqNo, map[])] else []
      case ToolCall =>
        [Fact(ToolFacts, TextOr(codec, e.payload, "name", "tool") + " called with " + digest.calledText(e.payload), e.seqNo,
              ToolExtra(codec, e.payload, "requested"))]
      case ToolResult => ResultFacts(codec, e)
      case Changes =>
        (match EitherKey(e.payload, "files", "changed_files")
         case Some(Arr(items)) => FileFacts(items, e.seqNo)
         case _ => [])
      case TurnFailed => EndFacts(codec, digest, e)
      case TurnInterrupted => EndFacts(codec, digest, e)
      case TurnCanceled => EndFacts(codec, digest, e)
      case _ => []
  }

  function EndFacts(codec: Codec, digest: Digest, e: Event): seq<Fact> {
    var error := TextOr(codec, e.payload, "error", TextOr(codec, e.payload, "message", digest.kindName(e.kind)));
    [Fact(Errors, error, e.seqNo, map["error_type" := Str(digest.kindName(e.kind))]), Fact(Unresolved, error, e.seqNo, map[])]
  }

  function StateUpTo(codec: Codec, digest: Digest, events: Events, n: nat): seq<Fact>
    requires n <= |events|
  {
    if n == 0 then []
    else
      var facts := FactsOf(codec, digest, events[n - 1]);
      AddedAll(StateUpTo(codec, digest, events, n - 1), facts, |facts|)
  }

  /** `_build_structured_state`. */
  method BuildStructuredState(codec: Codec, digest: Digest, events: Events) returns (state: seq<Fact>)
    ensures state == StateUpTo(codec, digest, events, |events|)
  {
    state := [];
    hide FactsOf, Squeezed, SameFact;
    for n := 0 to |events|
      invariant state == StateUpTo(codec, digest, events, n)
    {
      var facts := FactsOf(codec, digest, events[n]);
      ghost var before := state;
      for k := 0 to |facts|
        invariant state == AddedAll(before, facts, k)
      {
        var cleaned := facts[k].(text := Squeezed(facts[k].text));
        if cleaned.text == "" { continue; }
        if exists g | g in state :: SameFact(g, cleaned) { continue; }
        state := state + [cleaned];
      }
    }
  }

  // --------------------------------------------------------------- validation

  datatype Problem = UnknownSource(category: Category) | BeyondCoverage(category: Category) | UnknownCall(category: Category)

  predicate HasSeq(source: Events, n: int) {
    exists e | e in source :: e.seqNo == n
  }

  predicate HasCall(codec: Codec, source: Events, id: string) {
    exists e | e in source ::
      e.kind.ToolCall? && Truthy(ValueAt(e.payload, "tool_call_id")) && ShowText(codec, ValueAt(e.payload, "tool_call_id")) == id
  }

  predicate AsksForUnknownCall(codec: Codec, f: Fact, source: Events) {
    && "tool_call_id" in f.extra && Truthy(f.extra["tool_call_id"])
    && "status" in f.extra && f.extra["status"] == Str("requested")
    && !HasCall(codec, source, ShowText(codec, f.extra["tool_call_id"]))
  }

  function ProblemsOf(codec: Codec, f: Fact, source: Events, covers: int): seq<Problem> {
    (if !HasSeq(source, f.source) then [UnknownSource(f.category)]
     else if f.source > covers then [BeyondCoverage(f.category)]
     else [])
    + (if AsksForUnknownCall(codec, f, source) then [UnknownCall(f.category)] else [])
  }

  function ProblemsUpTo(codec: Codec, state: seq<Fact>, source: Events, covers: int, n: nat): seq<Problem>
    requires n <= |state|
  {
    if n == 0 then [] else ProblemsUpTo(codec, state, source, covers, n - 1) + ProblemsOf(codec, state[n - 1], source, covers)
  }

  /** `_validate_structured_state`. */
  method ValidateStructuredState(codec: Codec, state: seq<Fact>, source: Events, covers: int) returns (problems: seq<Problem>)
    ensures problems == ProblemsUpTo(codec, state, source, covers, |state|)
    ensures problems == [] <==>
      forall f | f in state :: HasSeq(source, f.source) && f.source <= covers && !AsksForUnknownCall(codec, f, source)
  {
    problems := [];
    hide HasSeq, AsksForUnknownCall;
    for n := 0 to |state|
      invariant problems == ProblemsUpTo(codec, state, source, covers, n)
      invariant problems == [] <==>
        forall k | 0 <= k < n :: HasSeq(source, state[k].source) && state[k].source <= covers && !AsksForUnknownCall(codec, state[k], source)
    {
      var f := state[n];
      if !HasSeq(source, f.source) { problems := problems + [UnknownSource(f.category)]; }
      else if f.source > covers { problems := problems + [BeyondCoverage(f.category)]; }
      if AsksForUnknownCall(codec, f, source) { problems := problems + [UnknownCall(f.category)]; }
    }
  }

  /** A fact taken from an event of the source. */
  ghost predicate Grounded(codec: Codec, f: Fact, source: Events) {
    HasSeq(source, f.source) && !AsksForUnknownCall(codec, f, source)
  }

  lemma FactIsGrounded(codec: Codec, digest: Digest, e: Event, f: Fact, source: Events)
    requires e in source && f in FactsOf(codec, digest, e)
    ensures f.source == e.seqNo && Grounded(codec, f, source)
  {
    hide Squeezed, TextOr, UserText, AssistantText;
    if e.kind.Changes? {
      var files := EitherKey(e.payload, "files", "changed_files");
      if files.Some? && files.value.Arr? { FileFactsSource(files.value.items, e.seqNo); }
    } else if e.kind.ToolCall? {
      assert f.extra == ToolExtra(codec, e.payload, "requested");
      assert f.extra["tool_call_id"] == ValueAt(e.payload, "tool_call_id");
    } else if e.kind.ToolResult? {
      ResultNeverAsks(codec, e, f);
    }
  }

  lemma ResultNeverAsks(codec: Codec, e: Event, f: Fact)
    requires f in ResultFacts(codec, e)
    ensures f.source == e.seqNo
    ensures "status" in f.extra ==> f.extra["status"] != Str("requested")
  {
    hide TextOr;
    assert "succeeded" != "requested" by { assert "succeeded"[0] != "requested"[0]; }
    assert "failed" != "requested" by { assert "failed"[0] != "requested"[0]; }
  }

  lemma {:induction false} FileFactsSource(items: seq<Json>, source: int)
    ensures forall f | f in FileFacts(items, source) :: f.source == source && "status" !in f.extra && "tool_call_id" !in f.extra
  {
    if items != [] {
      FileFactsSource(items[1..], source);
      assert "change" != "status" && "change" != "tool_call_id" by { assert "change"[0] != "status"[0] && "change"[0] != "tool_call_id"[0]; }
    }
  }

  lemma {:induction false} AddedKeeps(codec: Codec, state: seq<Fact>, facts: seq<Fact>, n: nat, source: Events, covers: int)
    requires n <= |facts|
    requires forall f | f in state :: Grounded(codec, f, source) && f.source <= covers
    requires forall f | f in facts :: Grounded(codec, f, source) && f.source <= covers
    ensures forall f | f in AddedAll(state, facts, n) :: Grounded(codec, f, source) && f.source <= covers
  {
    hide Squeezed, SameFact;
    if n > 0 {
      AddedKeeps(codec, state, facts, n - 1, source, covers);
      var f := facts[n - 1];
      assert f in facts;
      CleaningKeeps(codec, f, Squeezed(f.text), source);
      hide Grounded;
    }
  }

  lemma CleaningKeeps(codec: Codec, f: Fact, text: string, source: Events)
    requires Grounded(codec, f, source)
    ensures Grounded(codec, f.(text := text), source)
  {
    hide HasSeq, HasCall;
  }

  lemma {:induction false} StateIsGrounded(codec: Codec, digest: Digest, events: Events, n: nat, source: Events, covers: int)
    requires n <= |events| && forall e | e in events :: e in source && e.seqNo <= covers
    ensures forall f | f in StateUpTo(codec, digest, events, n) :: Grounded(codec, f, source) && f.source <= covers
  {
    if n > 0 {
      StateIsGrounded(codec, digest, events, n - 1, source, covers);
      var e := events[n - 1];
      var facts := FactsOf(codec, digest, e);
      assert e in events;
      hide Grounded, FactsOf;
      forall f | f in facts ensures Grounded(codec, f, source) && f.source <= covers {
        FactIsGrounded(codec, digest, e, f, source);
      }
      AddedKeeps(codec, StateUpTo(codec, digest, events, n - 1), facts, |facts|, source, covers);
      hide AddedAll;
    }
  }

  /**
    The state built from some events passes validation against any source that
    holds those events and any coverage that reaches them: against the events
    themselves when it is made, and against the whole covered log when it is repaired.
   */
  lemma BuiltStateIsValid(codec: Codec, digest: Digest, events: Events, source: Events, covers: int)
    requires forall e | e in events :: e in source && e.seqNo <= covers
    ensures var state := StateUpTo(codec, digest, events, |events|); ProblemsUpTo(codec, state, source, covers, |state|) == []
  {
    var state := StateUpTo(codec, digest, events, |events|);
    StateIsGrounded(codec, digest, events, |events|, source, covers);
    hide StateUpTo, HasSeq, AsksForUnknownCall;
    NoProblems(codec, state, source, covers, |state|);
  }

  lemma {:induction false} NoProblems(codec: Codec, state: seq<Fact>, source: Events, covers: int, n: nat)
    requires n <= |state| && forall f | f in state :: Grounded(codec, f, source) && f.source <= covers
    ensures ProblemsUpTo(codec, state, source, covers, n) == []
  {
    hide HasSeq, AsksForUnknownCall;
    if n > 0 {
      assert state[n - 1] in state;
      NoProblems(codec, state, source, covers, n - 1);
    }
  }

  // ---------------------------------------------------------------- the plan

  function TurnsSeen(events: Events, n: nat): seq<TurnId>
    requires n <= |events|
  {
    if n == 0 then []
    else
      var before := TurnsSeen(events, n - 1);
      if events[n - 1].turn in before then before else before + [events[n - 1].turn]
  }

  predicate Summarizable(e: Event, retained: set<TurnId>) {
    e.turn !in retained && !e.kind.ContextCheckpoint? && !e.kind.CheckpointInvalidated?
  }

  function Summarized(events: Events, retained: set<TurnId>): Events {
    if events == [] then []
    else (if Summarizable(events[0], retained) then [events[0]] else []) + Summarized(events[1..], retained)
  }

  function MaxOf(events: Events): nat {
    if events == [] then 0
    else
      var rest := MaxOf(events[1..]);
      if events[0].seqNo > rest then events[0].seqNo else rest
  }

  /** The ids that invalidation events name, as text. */
  function NamedInvalid(codec: Codec, events: Events): set<string> {
    set e | e in events && e.kind.CheckpointInvalidated? :: ShowText(codec, ValueAt(e.payload, "checkpoint_event_id"))
  }

  predicate Standing(e: Event, invalid: set<string>) {
    e.kind.ContextCheckpoint? && e.id !in invalid && Get(e.payload, "valid") != Some(Bool(false))
  }

  function CoverOf(e: Event): int {
    match AsInt(Get(e.payload, "covers_through_seq"))
    case Some(n) => n
    case None => 0
  }

  /** The greatest coverage of a standing checkpoint, at least 0. */
  function PriorCovers(events: Events, invalid: set<string>): int {
    if events == [] then 0
    else
      var rest := PriorCovers(events[1..], invalid);
      if Standing(events[0], invalid) && CoverOf(events[0]) > rest then CoverOf(events[0]) else rest
  }

  function Above(events: Events, covers: int): Events {
    if events == [] then [] else (if events[0].seqNo > covers then [events[0]] else []) + Above(events[1..], covers)
  }

  function PayloadChars(codec: Codec, events: Events): nat {
    if events == [] then 0 else |codec.spaced(events[0].payload)| + PayloadChars(codec, events[1..])
  }

  function AtLeastOne(n: int): int {
    if n < 1 then 1 else n
  }

  /** The thresholds of an attempt, and whether it is forced. */
  datatype Policy = Policy(eventThreshold: int, charThreshold: int, keepRecentTurns: int, force: bool)

  datatype Plan = NoPlan | Plan(covers: nat, retained: set<TurnId>, summarized: Events)

  function RetainedTurns(events: Events, keepRecentTurns: int): set<TurnId> {
    var seen, keep := TurnsSeen(events, |events|), AtLeastOne(keepRecentTurns);
    TurnSet(if |seen| <= keep then seen else seen[|seen| - keep..])
  }

  function TurnSet(turns: seq<TurnId>): set<TurnId> {
    set t | t in turns
  }

  /** The decision of `create_semantic_checkpoint`: whether to summarise, and what. */
  function PlanOf(codec: Codec, events: Events, policy: Policy): Plan {
    if |TurnsSeen(events, |events|)| <= AtLeastOne(policy.keepRecentTurns) then NoPlan
    else
      var retained := RetainedTurns(events, policy.keepRecentTurns);
      var summarized := Summarized(events, retained);
      var delta := Above(summarized, PriorCovers(events, NamedInvalid(codec, events)));
      if summarized == [] then NoPlan
      else if
        !policy.force && |delta| < AtLeastOne(policy.eventThreshold)
        && PayloadChars(codec, delta) < AtLeastOne(policy.charThreshold)
      then NoPlan
      else Plan(MaxOf(summarized), retained, summarized)
  }

  lemma {:induction false} SummarizedMember(events: Events, retained: set<TurnId>, e: Event)
    ensures e in Summarized(events, retained) <==> e in events && Summarizable(e, retained)
  {
    if events != [] { SummarizedMember(events[1..], retained, e); }
  }

  lemma {:induction false} MaxOfMeans(events: Events)
    ensures forall e | e in events :: e.seqNo <= MaxOf(events)
  {
    if events != [] {
      MaxOfMeans(events[1..]);
      assert events == [events[0]] + events[1..];
    }
  }

  lemma {:induction false} AboveMember(events: Events, covers: int)
    requires Above(events, covers) != []
    ensures exists e :: e in events && e.seqNo > covers
  {
    if events[0].seqNo > covers {
      assert events[0] in events;
    } else {
      AboveMember(events[1..], covers);
      var e :| e in events[1..] && e.seqNo > covers;
      assert e in events;
    }
  }

  /** A checkpoint that was not forced covers strictly more than every standing one before it. */
  lemma UnforcedAdvances(codec: Codec, events: Events, policy: Policy)
    requires !policy.force && PlanOf(codec, events, policy).Plan?
    ensures var plan := PlanOf(codec, events, policy);
      plan.covers > PriorCovers(events, NamedInvalid(codec, events))
  {
    var plan := PlanOf(codec, events, policy);
    var prior := PriorCovers(events, NamedInvalid(codec, events));
    hide PriorCovers, NamedInvalid, TurnsSeen, RetainedTurns, Summarized;
    if Above(plan.summarized, prior) == [] {
      assert PayloadChars(codec, Above(plan.summarized, prior)) == 0;
    }
    AboveMember(plan.summarized, prior);
    MaxOfMeans(plan.summarized);
  }

  lemma {:induction false} PriorIsGreatest(events: Events, invalid: set<string>, e: Event)
    requires e in events && Standing(e, invalid)
    ensures CoverOf(e) <= PriorCovers(events, invalid)
  {
    hide Standing, CoverOf;
    if events[0] != e {
      assert events == [events[0]] + events[1..];
      PriorIsGreatest(events[1..], invalid, e);
    }
  }

  /**
    The key of a checkpoint is its coverage, so an unforced attempt can meet an
    older event under its key; such an event no longer stands.
   */
  lemma SameKeyNoLongerStands(codec: Codec, events: Events, policy: Policy, e: Event)
    requires !policy.force && PlanOf(codec, events, policy).Plan?
    requires e in events && CoverOf(e) == PlanOf(codec, events, policy).covers
    ensures !Standing(e, NamedInvalid(codec, events))
  {
    UnforcedAdvances(codec, events, policy);
    hide PlanOf, Standing, CoverOf, NamedInvalid;
    if Standing(e, NamedInvalid(codec, events)) {
      PriorIsGreatest(events, NamedInvalid(codec, events), e);
    }
  }

  /** The plan summarises what it should of `events`, and covers it. */
  ghost predicate PlanFits(events: Events, plan: Plan) {
    && plan.Plan? && plan.summarized == Summarized(events, plan.retained) && plan.summarized != []
    && plan.covers == MaxOf(plan.summarized)
  }

  lemma PlansFit(codec: Codec, events: Events, policy: Policy)
    ensures var plan := PlanOf(codec, events, policy); plan.Plan? ==> PlanFits(events, plan)
  {
    hide TurnsSeen, RetainedTurns, Summarized, PriorCovers, Above, PayloadChars, MaxOf;
  }

  lemma SummaryReaches(events: Events, plan: Plan, e: Event)
    requires PlanFits(events, plan) && e in plan.summarized
    ensures e.seqNo <= plan.covers && e.turn !in plan.retained
  {
    MaxOfMeans(plan.summarized);
    SummarizedMember(events, plan.retained, e);
  }

  // --------------------------------------------------- which turns are kept

  /** Turn `t` first shows at position `i`. */
  ghost predicate FirstOf(events: Events, i: nat, t: TurnId) {
    i < |events| && events[i].turn == t && forall j | 0 <= j < i :: events[j].turn != t
  }

  ghost predicate Appears(events: Events, t: TurnId) {
    exists i :: FirstOf(events, i, t)
  }

  /** `seen` lists the turns of the first `n` events, each once, by where it first shows. */
  ghost predicate ByFirst(events: Events, n: nat, seen: seq<TurnId>) {
    && n <= |events|
    && (forall i | 0 <= i < n :: events[i].turn in seen)
    && (forall t | t in seen :: exists i :: 0 <= i < n && FirstOf(events, i, t))
    && (forall a, b | 0 <= a < b < |seen| :: seen[a] != seen[b])
    && (forall a, b, i, j | 0 <= a < b < |seen| && FirstOf(events, i, seen[a]) && FirstOf(events, j, seen[b]) :: i < j)
  }

  lemma {:induction false} SeenByFirst(events: Events, n: nat)
    requires n <= |events|
    ensures ByFirst(events, n, TurnsSeen(events, n))
  {
    hide *;
    if n == 0 {
      NothingSeen(events);
    } else {
      SeenByFirst(events, n - 1);
      SeenStep(events, n - 1, TurnsSeen(events, n - 1));
      SeenUnfold(events, n);
    }
  }

  lemma NothingSeen(events: Events)
    ensures ByFirst(events, 0, TurnsSeen(events, 0))
  {
  }

  lemma SeenUnfold(events: Events, n: nat)
    requires 0 < n <= |events|
    ensures var before := TurnsSeen(events, n - 1);
      TurnsSeen(events, n) == if events[n - 1].turn in before then before else before + [events[n - 1].turn]
  {
  }

  lemma SeenStep(events: Events, n: nat, seen: seq<TurnId>)
    requires n < |events| && ByFirst(events, n, seen)
    ensures ByFirst(events, n + 1, if events[n].turn in seen then seen else seen + [events[n].turn])
  {
    var t := events[n].turn;
    if t !in seen {
      assert FirstOf(events, n, t);
      var longer := seen + [t];
      forall a, b, i, j | 0 <= a < b < |longer| && FirstOf(events, i, longer[a]) && FirstOf(events, j, longer[b])
        ensures i < j
      {
        if b == |seen| {
          assert longer[a] in seen;
          var k :| 0 <= k < n && FirstOf(events, k, longer[a]);
          assert i == k && j == n;
        }
      }
      forall x | x in longer ensures exists i :: 0 <= i < n + 1 && FirstOf(events, i, x) {
        if x in seen { var i :| 0 <= i < n && FirstOf(events, i, x); }
      }
    }
  }

  lemma {:induction false} TurnSetCount(turns: seq<TurnId>)
    requires forall a, b | 0 <= a < b < |turns| :: turns[a] != turns[b]
    ensures |TurnSet(turns)| == |turns|
  {
    if turns != [] {
      var init, last := turns[..|turns| - 1], turns[|turns| - 1];
      TurnSetCount(init);
      assert turns == init + [last];
      assert TurnSet(turns) == TurnSet(init) + {last};
    } else {
      assert TurnSet(turns) == {};
    }
  }

  /**
    A plan keeps as many turns as asked for, at least one, and exactly the
    newest: each kept turn first shows behind the first event of every turn that
    is not kept.
   */
  lemma KeepsTheNewest(codec: Codec, events: Events, policy: Policy)
    requires PlanOf(codec, events, policy).Plan?
    ensures var retained := PlanOf(codec, events, policy).retained;
      && |retained| == (if policy.keepRecentTurns < 1 then 1 else policy.keepRecentTurns)
      && (forall r | r in retained :: Appears(events, r))
      && (forall i, j | 0 <= i < |events| && 0 <= j < |events| && events[i].turn !in retained && events[j].turn in retained
            && FirstOf(events, i, events[i].turn) && FirstOf(events, j, events[j].turn) :: i < j)
  {
    hide *;
    var seen, retained := TurnsSeen(events, |events|), PlanOf(codec, events, policy).retained;
    var keep := if policy.keepRecentTurns < 1 then 1 else policy.keepRecentTurns;
    SeenByFirst(events, |events|);
    RetainedIsTail(codec, events, policy);
    TailIsCounted(events, seen, keep);
    forall i, j | 0 <= i < |events| && 0 <= j < |events| && events[i].turn !in retained && events[j].turn in retained
        && FirstOf(events, i, events[i].turn) && FirstOf(events, j, events[j].turn)
      ensures i < j
    {
      TailIsNewest(events, seen, keep, i, j);
    }
  }

  lemma RetainedIsTail(codec: Codec, events: Events, policy: Policy)
    requires PlanOf(codec, events, policy).Plan?
    ensures var seen := TurnsSeen(events, |events|);
      var keep := if policy.keepRecentTurns < 1 then 1 else policy.keepRecentTurns;
      keep < |seen| && PlanOf(codec, events, policy).retained == TurnSet(seen[|seen| - keep..])
  {
    hide TurnsSeen, Summarized, PriorCovers, Above, PayloadChars, MaxOf, NamedInvalid, TurnSet;
  }

  lemma TailIsCounted(events: Events, seen: seq<TurnId>, keep: nat)
    requires ByFirst(events, |events|, seen) && 0 < keep < |seen|
    ensures |TurnSet(seen[|seen| - keep..])| == keep
    ensures forall r | r in TurnSet(seen[|seen| - keep..]) :: Appears(events, r)
  {
    var newest := seen[|seen| - keep..];
    hide FirstOf;
    forall a, b | 0 <= a < b < |newest| ensures newest[a] != newest[b] {
      assert newest[a] == seen[|seen| - keep + a] && newest[b] == seen[|seen| - keep + b];
    }
    TurnSetCount(newest);
    forall r | r in TurnSet(newest) ensures Appears(events, r) {
      assert r in seen;
      var i :| 0 <= i < |events| && FirstOf(events, i, r);
    }
  }

  lemma TailIsNewest(events: Events, seen: seq<TurnId>, keep: nat, i: nat, j: nat)
    requires ByFirst(events, |events|, seen) && 0 < keep < |seen| && i < |events| && j < |events|
    requires FirstOf(events, i, events[i].turn) && FirstOf(events, j, events[j].turn)
    requires events[i].turn !in TurnSet(seen[|seen| - keep..]) && events[j].turn in TurnSet(seen[|seen| - keep..])
    ensures i < j
  {
    hide FirstOf;
    var oldest, newest := seen[..|seen| - keep], seen[|seen| - keep..];
    assert seen == oldest + newest;
    assert events[i].turn in oldest;
    var a :| 0 <= a < |oldest| && oldest[a] == events[i].turn;
    var b :| 0 <= b < |newest| && newest[b] == events[j].turn;
    assert seen[a] == events[i].turn && seen[|oldest| + b] == events[j].turn;
  }

  /** A plan summarises exactly the events of the turns it does not keep, earlier checkpoints apart, and covers the highest-numbered one. */
  lemma SummarisesTheRest(codec: Codec, events: Events, policy: Policy)
    requires PlanOf(codec, events, policy).Plan?
    ensures var plan := PlanOf(codec, events, policy);
      && (forall e :: e in plan.summarized <==>
            e in events && e.turn !in plan.retained && !e.kind.ContextCheckpoint? && !e.kind.CheckpointInvalidated?)
      && (forall e | e in plan.summarized :: e.seqNo <= plan.covers)
      && (exists e :: e in plan.summarized && e.seqNo == plan.covers)
  {
    var plan := PlanOf(codec, events, policy);
    PlansFit(codec, events, policy);
    hide PlanOf;
    forall e ensures e in plan.summarized <==>
      e in events && e.turn !in plan.retained && !e.kind.ContextCheckpoint? && !e.kind.CheckpointInvalidated?
    {
      SummarizedMember(events, plan.retained, e);
    }
    MaxOfMeans(plan.summarized);
    MaxIsMember(plan.summarized);
  }

  lemma {:induction false} MaxIsMember(events: Events)
    requires events != []
    ensures exists e :: e in events && e.seqNo == MaxOf(events)
  {
    assert events[0] in events;
    if |events| == 1 {
      assert MaxOf(events[1..]) == 0;
    } else if MaxOf(events) != events[0].seqNo {
      MaxIsMember(events[1..]);
      var e :| e in events[1..] && e.seqNo == MaxOf(events[1..]);
      assert e in events;
    }
  }

  /** Each turn's events stand together. */
  ghost predicate Contiguous(events: Events) {
    forall i, j, k | 0 <= i < j < k < |events| && events[i].turn == events[k].turn :: events[j].turn == events[i].turn
  }

  lemma {:induction false} FirstExists(events: Events, i: nat) returns (f: nat)
    requires i < |events|
    ensures f <= i && FirstOf(events, f, events[i].turn)
  {
    if FirstOf(events, i, events[i].turn) { f := i; }
    else {
      var j :| 0 <= j < i && events[j].turn == events[i].turn;
      f := FirstExists(events, j);
    }
  }

  /** When turns do not interleave, every kept event stands behind every event of a turn that is not kept. */
  lemma KeptStandBehind(codec: Codec, events: Events, policy: Policy, i: nat, j: nat)
    requires PlanOf(codec, events, policy).Plan? && Contiguous(events)
    requires i < |events| && j < |events|
    requires events[i].turn !in PlanOf(codec, events, policy).retained && events[j].turn in PlanOf(codec, events, policy).retained
    ensures i < j
  {
    KeepsTheNewest(codec, events, policy);
    var f := FirstExists(events, i);
    var g := FirstExists(events, j);
    FirstIsAt(events, f, events[i].turn);
    FirstIsAt(events, g, events[j].turn);
    hide PlanOf, Contiguous, FirstOf, Appears;
    assert f < g;
    if j <= i { BetweenIsSame(events, f, g, i); }
  }

  lemma FirstIsAt(events: Events, i: nat, t: TurnId)
    requires i < |events| && FirstOf(events, i, t)
    ensures events[i].turn == t
  {
  }

  lemma BetweenIsSame(events: Events, f: nat, g: nat, i: nat)
    requires Contiguous(events) && f < g <= i < |events| && events[f].turn == events[i].turn
    ensures events[g].turn == events[i].turn
  {
  }

  // -------------------------------------------------------------- the summary

  function Label(c: Category): string {
    match c
    case Goal => "Goals"
    case Constraints => "Constraints"
    case Decisions => "Decisions and outcomes"
    case Unresolved => "Unresolved items"
    case Files => "File state"
    case Tests => "Tests"
    case ToolFacts => "Tool facts"
    case Errors => "Errors"
  }

  const CATEGORIES := [Goal, Constraints, Decisions, Unresolved, Files, Tests, ToolFacts, Errors]
  const SUMMARY_TITLE := "Earlier conversation structured checkpoint:"

  function Lines(state: seq<Fact>, c: Category): string {
    if state == [] then ""
    else
      (if state[0].category != c then ""
       else
         "\n- [source seq " + (if state[0].source < 0 then "-" + Decimal(-state[0].source) else Decimal(state[0].source)) + "] "
         + state[0].text)
      + Lines(state[1..], c)
  }

  function Sections(state: seq<Fact>, categories: seq<Category>): string {
    if categories == [] then ""
    else
      var lines := Lines(state, categories[0]);
      (if lines == "" then "" else "\n\n" + Label(categories[0]) + ":" + lines) + Sections(state, categories[1..])
  }

  /** `_format_structured_state`. */
  function Formatted(state: seq<Fact>): string {
    SUMMARY_TITLE + Sections(state, CATEGORIES)
  }

  lemma {:induction false} StripKeepsFirst(s: string)
    requires s != "" && !Space(s[0])
    ensures StripRight(s) != ""
    decreases |s|
  {
    if |s| > 1 && Space(s[|s| - 1]) { StripKeepsFirst(s[..|s| - 1]); }
  }

  /** The title alone keeps a summary from reading as blank. */
  lemma SummaryIsNotBlank(state: seq<Fact>)
    ensures Strip(Formatted(state)) != ""
  {
    var s := Formatted(state);
    assert s[0] == SUMMARY_TITLE[0];
    StripKeepsFirst(s);
  }

  // -------------------------------------------------------------- transaction

  const MAX_SUMMARY_CHARS := 80_000
  const REJECTED := "rejected:"

  /** The stored form of a state and the way back, which the model does not look into. */
  datatype Render = Render(json: seq<Fact> -> Json, facts: Json -> seq<Fact>)

  function CheckpointPayload(render: Render, state: seq<Fact>, plan: Plan): Json
    requires plan.Plan?
  {
    Obj(map["summary" := Str(Formatted(state)), "state" := render.json(state),
            "covers_through_seq" := Int(plan.covers), "source_event_count" := Int(|plan.summarized|), "valid" := Bool(true)])
  }

  function CheckpointDraft(conversation: ConversationId, turn: TurnId, render: Render, state: seq<Fact>, plan: Plan): Draft
    requires plan.Plan?
  {
    Draft(conversation, turn, None, ContextCheckpoint, true, Some(CheckpointAt(conversation, plan.covers)),
          CheckpointPayload(render, state, plan))
  }

  function InvalidDraft(conversation: ConversationId, turn: TurnId, checkpoint: string): Draft {
    Draft(conversation, turn, None, CheckpointInvalidated, false, Some(InvalidatedCheckpoint(checkpoint)),
          Obj(map["checkpoint_event_id" := Str(checkpoint), "valid" := Bool(false)]))
  }

  /** The events a stored checkpoint is validated against. */
  function SourceOf(events: Events, covers: int): Events {
    if events == [] then []
    else
      (if events[0].seqNo <= covers && !events[0].kind.ContextCheckpoint? && !events[0].kind.CheckpointInvalidated? then [events[0]] else [])
      + SourceOf(events[1..], covers)
  }

  /** A stored checkpoint that `repair_invalid_checkpoints` invalidates. */
  predicate Corrupt(codec: Codec, render: Render, events: Events, e: Event) {
    && e.kind.ContextCheckpoint? && e.id !in NamedInvalid(codec, events) && Get(e.payload, "valid") != Some(Bool(false))
    && Get(e.payload, "state").Some? && Get(e.payload, "state").value.Obj?
    && AsInt(Get(e.payload, "covers_through_seq")).Some?
    && var state := render.facts(Get(e.payload, "state").value);
       ProblemsUpTo(codec, state, SourceOf(events, CoverOf(e)), CoverOf(e), |state|) != []
  }

  lemma {:induction false} SourceMember(events: Events, covers: int, e: Event)
    ensures e in SourceOf(events, covers) <==>
      e in events && e.seqNo <= covers && !e.kind.ContextCheckpoint? && !e.kind.CheckpointInvalidated?
  {
    if events != [] { SourceMember(events[1..], covers, e); }
  }

  /**
    A checkpoint made by this code is never found corrupt later, however the log
    has grown since: repair only ever invalidates what something else wrote.
   */
  lemma OwnCheckpointNeverCorrupt(
    codec: Codec, digest: Digest, render: Render, before: Events, plan: Plan, e: Event, later: Events)
    requires PlanFits(before, plan) && forall x | x in before :: x in later
    requires CoverOf(e) == plan.covers
    requires Get(e.payload, "state").Some?
      && render.facts(Get(e.payload, "state").value) == StateUpTo(codec, digest, plan.summarized, |plan.summarized|)
    ensures !Corrupt(codec, render, later, e)
  {
    forall x | x in plan.summarized ensures x in SourceOf(later, plan.covers) && x.seqNo <= plan.covers {
      SummaryReaches(before, plan, x);
      SummarizedMember(before, plan.retained, x);
      SourceMember(later, plan.covers, x);
    }
    hide StateUpTo, SourceOf, ProblemsUpTo, PlanFits;
    BuiltStateIsValid(codec, digest, plan.summarized, SourceOf(later, plan.covers), plan.covers);
  }

  function CorruptIds(codec: Codec, render: Render, events: Events, n: nat): seq<string>
    requires n <= |events|
  {
    if n == 0 then []
    else CorruptIds(codec, render, events, n - 1) + if Corrupt(codec, render, events, events[n - 1]) then [events[n - 1].id] else []
  }

  // ------------------------------------------------ what an attempt writes

  /** An invalidation of one of the corrupt checkpoints among `rows`. */
  ghost predicate IsRepair(codec: Codec, render: Render, rows: Events, e: Event) {
    && e.kind.CheckpointInvalidated? && !e.visible && e.key.Some? && e.key.value.InvalidatedCheckpoint?
    && ValueAt(e.payload, "valid") == Bool(false)
    && exists n :: 0 <= n < |rows| && Corrupt(codec, render, rows, rows[n])
         && ValueAt(e.payload, "checkpoint_event_id") == Str(rows[n].id)
  }

  /** The refusal of a summary that is too long. */
  ghost predicate IsRejection(plan: Plan, e: Event)
    requires plan.Plan?
  {
    && e.kind.CheckpointInvalidated? && !e.visible && ValueAt(e.payload, "checkpoint_event_id") == Str(REJECTED + Decimal(plan.covers))
    && ValueAt(e.payload, "valid") == Bool(false)
  }

  /** The checkpoint of a plan: the state built from what it summarises, and its coverage. */
  ghost predicate IsCheckpointOf(codec: Codec, digest: Digest, render: Render, plan: Plan, e: Event)
    requires plan.Plan?
  {
    var state := StateUpTo(codec, digest, plan.summarized, |plan.summarized|);
    e.kind.ContextCheckpoint? && e.visible && e.payload == CheckpointPayload(render, state, plan) && |Formatted(state)| <= MAX_SUMMARY_CHARS
  }

  /** The events an attempt appended: repairs, and then a checkpoint, a rejection or nothing. */
  datatype Writes = Writes(repairs: Events, last: Option<Event>)

  function Appends(w: Writes): Events {
    if w.last.Some? then w.repairs + [w.last.value] else w.repairs
  }

  /** What an attempt may have written that read `log`. */
  ghost predicate AttemptWrites(
    codec: Codec, digest: Digest, render: Render, conversation: ConversationId, log: Events, policy: Policy, w: Writes)
  {
    var plan := PlanOf(codec, log, policy);
    && (plan.NoPlan? ==> Appends(w) == [])
    && (forall e | e in w.repairs :: IsRepair(codec, render, log, e))
    && (w.last.Some? ==> plan.Plan? && (IsCheckpointOf(codec, digest, render, plan, w.last.value) || IsRejection(plan, w.last.value)))
    && (forall e | e in Appends(w) :: e.conversation == conversation)
  }

  /** Appends a draft for its turn; the answer is the event under its key. */
  method AppendKeyed(db: Database, d: Draft, quota: nat, stamp: Stamp) returns (ok: bool, event: Option<Event>)
    requires d.key.Some?
    modifies db`events
    ensures ok <==> event.Some?
    ensures ok ==> FindKey(db.events, d.conversation, d.key.value) == event
    ensures ok && FindKey(old(db.events), d.conversation, d.key.value).None? ==>
      && db.events == old(db.events) + [event.value] && event.value.kind == d.kind && event.value.payload == d.payload
      && event.value.visible == d.visible && event.value.key == d.key && event.value.conversation == d.conversation
      && event.value.id == stamp.id(|old(db.events)|)
    ensures !ok || FindKey(old(db.events), d.conversation, d.key.value).Some? ==> db.events == old(db.events)
  {
    var n := |db.events|;
    ghost var before := db.events;
    var r := AppendEvent(db, d, true, stamp.id(n), stamp.at(n), quota);
    if r.Appended? {
      assert HasKey(r.event, d.conversation, d.key.value);
      hide MaxSeq, CountIn, HasKey;
      FindKeyAppend(before, [r.event], d.conversation, d.key.value);
      SingleKey(r.event, d.conversation, d.key.value);
      return true, Some(r.event);
    }
    if r.Existing? { return true, Some(r.event); }
    return false, None;
  }

  lemma SingleKey(e: Event, conversation: ConversationId, key: EventKey)
    requires HasKey(e, conversation, key)
    ensures FindKey([e], conversation, key) == Some(e)
  {
  }

  ghost predicate Repairs(codec: Codec, render: Render, conversation: ConversationId, rows: Events, more: Events) {
    forall e | e in more :: IsRepair(codec, render, rows, e) && e.conversation == conversation
  }

  /** Each corrupt checkpoint among the first `n` rows has its invalidation in the log. */
  ghost predicate AllInvalidated(codec: Codec, render: Render, conversation: ConversationId, rows: Events, n: nat, log: Events)
    requires n <= |rows|
  {
    forall k | 0 <= k < n && Corrupt(codec, render, rows, rows[k]) ::
      FindKey(log, conversation, InvalidatedCheckpoint(rows[k].id)).Some?
  }

  lemma NoneInvalidated(codec: Codec, render: Render, conversation: ConversationId, rows: Events, log: Events)
    ensures AllInvalidated(codec, render, conversation, rows, 0, log)
  {
  }

  lemma OneMoreInvalidated(
    codec: Codec, render: Render, conversation: ConversationId, rows: Events, n: nat, log: Events, log': Events)
    requires n < |rows| && AllInvalidated(codec, render, conversation, rows, n, log) && log <= log'
    requires Corrupt(codec, render, rows, rows[n]) ==> FindKey(log', conversation, InvalidatedCheckpoint(rows[n].id)).Some?
    ensures AllInvalidated(codec, render, conversation, rows, n + 1, log')
  {
    hide Corrupt, FindKey;
    assert log' == log + log'[|log|..];
    forall k | 0 <= k < n && Corrupt(codec, render, rows, rows[k])
      ensures FindKey(log', conversation, InvalidatedCheckpoint(rows[k].id)).Some?
    {
      FindKeyAppend(log, log'[|log|..], conversation, InvalidatedCheckpoint(rows[k].id));
    }
  }

  /** The reported ids are those of the corrupt checkpoints, in log order. */
  lemma {:induction false} CorruptIdsExactly(codec: Codec, render: Render, rows: Events, n: nat, id: string)
    requires n <= |rows|
    ensures id in CorruptIds(codec, render, rows, n) <==> exists k :: 0 <= k < n && Corrupt(codec, render, rows, rows[k]) && rows[k].id == id
  {
    hide Corrupt;
    if n > 0 { CorruptIdsExactly(codec, render, rows, n - 1, id); }
  }

  /** `repair_invalid_checkpoints`. */
  method RepairInvalidCheckpoints(
    codec: Codec, render: Render, db: Database, conversation: ConversationId, rows: Events, quota: nat, stamp: Stamp)
    returns (ok: bool, repaired: seq<string>, ghost more: Events)
    modifies db`events
    ensures db.events == old(db.events) + more && Repairs(codec, render, conversation, rows, more)
    ensures ok ==> repaired == CorruptIds(codec, render, rows, |rows|)
    ensures CorruptIds(codec, render, rows, |rows|) == [] ==> more == []
    ensures ok ==> AllInvalidated(codec, render, conversation, rows, |rows|, db.events)
  {
    repaired, more := [], [];
    hide Corrupt, IsRepair, FindKey, AllInvalidated;
    NoneInvalidated(codec, render, conversation, rows, db.events);
    for n := 0 to |rows|
      invariant db.events == old(db.events) + more && Repairs(codec, render, conversation, rows, more)
      invariant repaired == CorruptIds(codec, render, rows, n)
      invariant repaired == [] ==> more == []
      invariant AllInvalidated(codec, render, conversation, rows, n, db.events)
    {
      CorruptGrows(codec, render, rows, n + 1, |rows|);
      ghost var before := db.events;
      if Corrupt(codec, render, rows, rows[n]) {
        var event;
        ok, event := AppendKeyed(db, InvalidDraft(conversation, rows[n].turn, rows[n].id), quota, stamp);
        if !ok { return; }
        if db.events != before {
          RepairIs(codec, render, conversation, rows, n, event.value);
          more := more + [event.value];
        }
        repaired := repaired + [rows[n].id];
        OneMoreInvalidated(codec, render, conversation, rows, n, before, db.events);
      } else {
        OneMoreInvalidated(codec, render, conversation, rows, n, before, before);
      }
    }
    ok := true;
  }

  lemma RepairIs(codec: Codec, render: Render, conversation: ConversationId, rows: Events, n: nat, e: Event)
    requires n < |rows| && Corrupt(codec, render, rows, rows[n])
    requires var d := InvalidDraft(conversation, rows[n].turn, rows[n].id);
      e.kind == d.kind && e.visible == d.visible && e.payload == d.payload && e.key == d.key
    ensures IsRepair(codec, render, rows, e)
  {
    hide Corrupt;
  }

  lemma {:induction false} CorruptGrows(codec: Codec, render: Render, events: Events, n: nat, m: nat)
    requires n <= m <= |events|
    ensures CorruptIds(codec, render, events, m) == [] ==> CorruptIds(codec, render, events, n) == []
    decreases m
  {
    hide Corrupt;
    if n < m { CorruptGrows(codec, render, events, n, m - 1); }
  }

  /**
    `create_semantic_checkpoint` with `activate_structured_checkpoint`.  The
    answer is the event under the key of the coverage, which is new unless the
    key was taken.
   */
  method CreateSemanticCheckpoint(
    codec: Codec, digest: Digest, render: Render, db: Database, conversation: ConversationId, policy: Policy, quota: nat, stamp: Stamp)
    returns (ok: bool, result: Option<Event>, ghost w: Writes)
    modifies db`events
    ensures db.events == old(db.events) + Appends(w)
    ensures AttemptWrites(codec, digest, render, conversation, InConversation(old(db.events), conversation), policy, w)
    ensures PlanOf(codec, InConversation(old(db.events), conversation), policy).NoPlan? ==> ok && result.None?
    ensures result.Some? ==>
      var plan := PlanOf(codec, InConversation(old(db.events), conversation), policy);
      && plan.Plan? && FindKey(db.events, conversation, CheckpointAt(conversation, plan.covers)) == result
      && (FindKey(old(db.events), conversation, CheckpointAt(conversation, plan.covers)).None? ==>
            && w.last == result && IsCheckpointOf(codec, digest, render, plan, result.value)
            && result.value.id == stamp.id(|old(db.events)| + |w.repairs|))
      && (FindKey(old(db.events), conversation, CheckpointAt(conversation, plan.covers)).Some? ==> w.last.None?)
  {
    hide *;
    ghost var before := db.events;
    var events := InConversation(db.events, conversation);
    var plan := PlanOf(codec, events, policy);
    w := Writes([], None);
    NothingWritten(codec, digest, render, conversation, events, policy);
    AppendsIs(w);
    if plan.NoPlan? { return true, None, w; }
    PlannedEvents(codec, events, policy);
    PlansFit(codec, events, policy);
    var repaired;
    ghost var repairs;
    ok, repaired, repairs := RepairInvalidCheckpoints(codec, render, db, conversation, events, quota, stamp);
    w := Writes(repairs, None);
    AppendsIs(w);
    RepairsWritten(codec, digest, render, conversation, events, policy, repairs);
    if !ok { return false, None, w; }
    ghost var repairedLog := db.events;
    var state := BuildStructuredState(codec, digest, plan.summarized);
    var problems := ValidateStructuredState(codec, state, plan.summarized, plan.covers);
    PlanIsValid(codec, digest, events, plan);
    assert problems == [];
    var turn := events[|events| - 1].turn;
    var summary := Formatted(state);
    if summary == "" || |summary| > MAX_SUMMARY_CHARS {
      var rejected;
      InvalidDraftIs(conversation, turn, plan);
      ok, rejected := AppendKeyed(db, InvalidDraft(conversation, turn, REJECTED + Decimal(plan.covers)), quota, stamp);
      if db.events != repairedLog {
        w := Writes(repairs, rejected);
        RejectionWritten(codec, digest, render, conversation, events, policy, w);
        AppendsIs(w);
      }
      return ok, None, w;
    }
    CheckpointDraftIs(conversation, turn, render, state, plan);
    RepairTouchesNoCheckpoint(codec, render, before, events, repairs, conversation, plan.covers);
    ok, result := AppendKeyed(db, CheckpointDraft(conversation, turn, render, state, plan), quota, stamp);
    if ok && FindKey(repairedLog, conversation, CheckpointAt(conversation, plan.covers)).None? {
      w := Writes(repairs, result);
      CheckpointWritten(codec, digest, render, conversation, events, policy, w, state);
      AppendsIs(w);
    }
  }

  lemma AppendsIs(w: Writes)
    ensures Appends(w) == w.repairs + (if w.last.Some? then [w.last.value] else [])
  {
  }

  lemma NothingWritten(codec: Codec, digest: Digest, render: Render, conversation: ConversationId, log: Events, policy: Policy)
    ensures AttemptWrites(codec, digest, render, conversation, log, policy, Writes([], None))
  {
    hide PlanOf, IsRepair, IsCheckpointOf, IsRejection;
  }

  lemma RepairsWritten(
    codec: Codec, digest: Digest, render: Render, conversation: ConversationId, log: Events, policy: Policy, repairs: Events)
    requires PlanOf(codec, log, policy).Plan? && Repairs(codec, render, conversation, log, repairs)
    ensures AttemptWrites(codec, digest, render, conversation, log, policy, Writes(repairs, None))
  {
    hide PlanOf, IsRepair, IsCheckpointOf, IsRejection;
  }

  lemma RejectionWritten(
    codec: Codec, digest: Digest, render: Render, conversation: ConversationId, log: Events, policy: Policy, w: Writes)
    requires PlanOf(codec, log, policy).Plan? && Repairs(codec, render, conversation, log, w.repairs)
    requires w.last.Some? && w.last.value.conversation == conversation && IsRejection(PlanOf(codec, log, policy), w.last.value)
    ensures AttemptWrites(codec, digest, render, conversation, log, policy, w)
  {
    hide PlanOf, IsRepair, IsCheckpointOf, IsRejection;
  }

  lemma CheckpointWritten(
    codec: Codec, digest: Digest, render: Render, conversation: ConversationId, log: Events, policy: Policy, w: Writes, state: seq<Fact>)
    requires PlanOf(codec, log, policy).Plan? && Repairs(codec, render, conversation, log, w.repairs)
    requires var plan := PlanOf(codec, log, policy);
      && state == StateUpTo(codec, digest, plan.summarized, |plan.summarized|) && |Formatted(state)| <= MAX_SUMMARY_CHARS
      && w.last.Some? && w.last.value.conversation == conversation && w.last.value.kind.ContextCheckpoint? && w.last.value.visible
      && w.last.value.payload == CheckpointPayload(render, state, plan)
    ensures AttemptWrites(codec, digest, render, conversation, log, policy, w)
    ensures IsCheckpointOf(codec, digest, render, PlanOf(codec, log, policy), w.last.value)
  {
    hide PlanOf, IsRepair, IsRejection, StateUpTo, Formatted;
  }

  lemma PlannedEvents(codec: Codec, events: Events, policy: Policy)
    requires PlanOf(codec, events, policy).Plan?
    ensures events != []
  {
  }

  lemma PlanIsValid(codec: Codec, digest: Digest, events: Events, plan: Plan)
    requires PlanFits(events, plan)
    ensures var state := StateUpTo(codec, digest, plan.summarized, |plan.summarized|);
      ProblemsUpTo(codec, state, plan.summarized, plan.covers, |state|) == []
  {
    MaxOfMeans(plan.summarized);
    hide StateUpTo, ProblemsUpTo, Summarized, MaxOf;
    BuiltStateIsValid(codec, digest, plan.summarized, plan.summarized, plan.covers);
  }

  lemma InvalidDraftIs(conversation: ConversationId, turn: TurnId, plan: Plan)
    requires plan.Plan?
    ensures var d := InvalidDraft(conversation, turn, REJECTED + Decimal(plan.covers));
      d.key.Some? && d.conversation == conversation &&
      forall e: Event | e.kind == d.kind && e.visible == d.visible && e.payload == d.payload :: IsRejection(plan, e)
  {
    hide Decimal;
  }

  lemma CheckpointDraftIs(conversation: ConversationId, turn: TurnId, render: Render, state: seq<Fact>, plan: Plan)
    requires plan.Plan?
    ensures var d := CheckpointDraft(conversation, turn, render, state, plan);
      && d.key == Some(CheckpointAt(conversation, plan.covers)) && d.conversation == conversation && d.kind.ContextCheckpoint? && d.visible
      && d.payload == CheckpointPayload(render, state, plan)
  {
    hide CheckpointPayload;
  }

  /** Invalidations carry keys of their own, so they never take a checkpoint's. */
  lemma RepairTouchesNoCheckpoint(
    codec: Codec, render: Render, before: Events, rows: Events, more: Events, conversation: ConversationId, covers: int)
    requires Repairs(codec, render, conversation, rows, more)
    ensures FindKey(before + more, conversation, CheckpointAt(conversation, covers))
         == FindKey(before, conversation, CheckpointAt(conversation, covers))
  {
    forall i | 0 <= i < |more| ensures !HasKey(more[i], conversation, CheckpointAt(conversation, covers)) {
      assert more[i] in more && IsRepair(codec, render, rows, more[i]);
    }
    hide FindKey, HasKey, IsRepair;
    NoSuchKey(more, conversation, CheckpointAt(conversation, covers));
    FindKeyAppend(before, more, conversation, CheckpointAt(conversation, covers));
  }

  lemma {:induction false} NoSuchKey(events: Events, conversation: ConversationId, key: EventKey)
    requires forall i | 0 <= i < |events| :: !HasKey(events[i], conversation, key)
    ensures FindKey(events, conversation, key).None?
  {
    hide HasKey;
    if events != [] { NoSuchKey(events[1..], conversation, key); }
  }
}
