/**
  What a conversation still shows after its checkpoints: for any log the one that
  selection starts from, and for whole runs of attempts among other writes.
 */
module CheckpointRuns {
  import opened JsonValue
  import opened Tables
  import opened EventStore
  import opened ContextEvents
  import opened RecoveredContext
  import opened Checkpoints

  // ------------------------------------------------------------ losing nothing

  /** Events a context may show, checkpoints apart. */
  predicate Shows(e: Event) {
    match e.kind
    case UserMessage => true
    case AssistantMessage => true
    case ToolCall => true
    case ToolResult => true
    case SystemNote => e.visible
    case RecoveryNote => e.visible
    case _ => false
  }

  /**
    The event at `at` is the checkpoint made by a plan of the first `n` events;
    nothing but invalidations came in between.
   */
  ghost predicate MadeBy(log: Events, n: nat, at: nat, plan: Plan) {
    && n <= at < |log| && plan.Plan? && PlanFits(log[..n], plan)
    && log[at].kind.ContextCheckpoint? && CheckpointText(log[at].payload) != ""
    && Get(log[at].payload, "covers_through_seq") == Some(Int(plan.covers)) && Get(log[at].payload, "valid") != Some(Bool(false))
    && forall i | n <= i < at :: log[i].kind.CheckpointInvalidated?
  }

  /** Selection starts from the checkpoint at `at`: it is valid, and none behind it is. */
  ghost predicate Picked(codec: Codec, log: Events, at: nat) {
    && at < |log| && ValidCheckpoint(log[at], InvalidatedIds(codec, log))
    && forall i | at < i < |log| :: !ValidCheckpoint(log[i], InvalidatedIds(codec, log))
  }

  /** The context that starts from a checkpoint: it, and then what lies above its coverage. */
  lemma {:induction false} PickedContext(codec: Codec, log: Events, n: nat, at: nat, plan: Plan)
    requires Increasing(log) && MadeBy(log, n, at, plan) && Picked(codec, log, at)
    ensures SelectContext(codec, log) == [log[at]] + VisibleOnly(Retained(log, plan.covers), InvalidatedIds(codec, log))
  {
    var invalidated := InvalidatedIds(codec, log);
    SortedBySeq(log);
    SelectedIs(codec, log);
    PickedIsLast(codec, log, at);
    hide InvalidatedIds, InLogOrder, SelectContext, Retained, Increasing, CheckpointText, PlanFits, LastCheckpoint;
    assert CutAtCheckpoint(log, invalidated) == [log[at]] + Retained(log, plan.covers);
    assert ([log[at]] + Retained(log, plan.covers))[1..] == Retained(log, plan.covers);
  }

  lemma PickedIsLast(codec: Codec, log: Events, at: nat)
    requires Picked(codec, log, at)
    ensures LastCheckpoint(log, InvalidatedIds(codec, log), |log|) == Some(at)
  {
    hide InvalidatedIds, ValidCheckpoint;
    LastCheckpointMeans(log, InvalidatedIds(codec, log), |log|);
  }

  lemma {:induction false} ShownMeans(codec: Codec, log: Events, n: nat, at: nat, plan: Plan, e: Event)
    requires Increasing(log) && MadeBy(log, n, at, plan) && Picked(codec, log, at)
    requires e in log && Shows(e)
    ensures e in SelectContext(codec, log) <==> e.seqNo > plan.covers
  {
    var invalidated := InvalidatedIds(codec, log);
    PickedContext(codec, log, n, at, plan);
    VisibleMember(Retained(log, plan.covers), invalidated, e);
    RetainedMember(log, plan.covers, e);
    hide SelectContext, Retained, VisibleOnly, InvalidatedIds, PlanFits;
  }

  /** No event of a turn that is kept lies at or below the coverage. */
  ghost predicate NoInterleaving(events: Events, plan: Plan)
    requires plan.Plan?
  {
    forall e | e in events && Shows(e) && e.turn in plan.retained :: e.seqNo > plan.covers
  }

  lemma CoversWithin(log: Events, n: nat, plan: Plan, i: nat)
    requires Increasing(log) && n <= i < |log| && PlanFits(log[..n], plan)
    ensures log[i].seqNo > plan.covers
  {
    MaxIsMember(plan.summarized);
    var top :| top in plan.summarized && top.seqNo == plan.covers;
    SummarizedMember(log[..n], plan.retained, top);
  }

  lemma ShowsNoCheckpoint(e: Event)
    requires Shows(e)
    ensures !e.kind.ContextCheckpoint? && !e.kind.CheckpointInvalidated?
  {
  }

  /**
    The checkpoint that selection starts from loses nothing, however the log has
    grown behind it: each event a context may show is either summarised or
    selected, if and only if no turn that was kept when it was made had such an
    event at or below the coverage.  Queued turns that interleave break this.
   */
  lemma {:induction false} LosesNothingExactly(codec: Codec, log: Events, n: nat, at: nat, plan: Plan)
    requires Increasing(log) && MadeBy(log, n, at, plan) && Picked(codec, log, at)
    ensures (forall e | e in log && Shows(e) :: e in plan.summarized || e in SelectContext(codec, log))
      <==> NoInterleaving(log[..n], plan)
  {
    hide SelectContext, Summarized, Shows, Picked;
    forall e | e in log && Shows(e)
      ensures (e in plan.summarized || e in SelectContext(codec, log))
        <==> (e in log[..n] && e.turn in plan.retained ==> e.seqNo > plan.covers)
    {
      ShownMeans(codec, log, n, at, plan, e);
      SummarizedMember(log[..n], plan.retained, e);
      ShowsNoCheckpoint(e);
      if e !in log[..n] { BehindPrefix(log, n, plan, e); }
    }
  }

  lemma BehindPrefix(log: Events, n: nat, plan: Plan, e: Event)
    requires Increasing(log) && n <= |log| && PlanFits(log[..n], plan) && e in log && e !in log[..n]
    ensures e.seqNo > plan.covers
  {
    assert log == log[..n] + log[n..];
    var i :| 0 <= i < |log[n..]| && log[n..][i] == e;
    hide PlanFits, Increasing;
    CoversWithin(log, n, plan, n + i);
  }

  lemma {:induction false} RetainedIncreases(xs: Events, covers: int)
    requires Increasing(xs)
    ensures Increasing(Retained(xs, covers))
  {
    if xs != [] {
      var rest := Retained(xs[1..], covers);
      assert forall i | 0 <= i < |xs[1..]| :: xs[1..][i] == xs[i + 1];
      RetainedIncreases(xs[1..], covers);
      forall i | 0 <= i < |rest| ensures xs[0].seqNo < rest[i].seqNo {
        assert rest[i] in rest;
        RetainedMember(xs[1..], covers, rest[i]);
      }
    }
  }

  lemma {:induction false} VisibleIncreases(xs: Events, invalidated: set<string>)
    requires Increasing(xs)
    ensures Increasing(VisibleOnly(xs, invalidated))
  {
    hide ModelVisible;
    if xs != [] {
      var rest := VisibleOnly(xs[1..], invalidated);
      assert forall i | 0 <= i < |xs[1..]| :: xs[1..][i] == xs[i + 1];
      VisibleIncreases(xs[1..], invalidated);
      forall i | 0 <= i < |rest| ensures xs[0].seqNo < rest[i].seqNo {
        assert rest[i] in rest;
        VisibleMember(xs[1..], invalidated, rest[i]);
      }
    }
  }

  /** What is selected behind the checkpoint comes in log order, each event once, and none of it is summarised as well. */
  lemma {:induction false} SelectedOnceInOrder(codec: Codec, log: Events, n: nat, at: nat, plan: Plan)
    requires Increasing(log) && MadeBy(log, n, at, plan) && Picked(codec, log, at)
    ensures var context := SelectContext(codec, log);
      context != [] && context[0] == log[at] && Increasing(context[1..]) && forall e | e in context[1..] :: e !in plan.summarized
  {
    var invalidated := InvalidatedIds(codec, log);
    var kept := Retained(log, plan.covers);
    PickedContext(codec, log, n, at, plan);
    RetainedIncreases(log, plan.covers);
    VisibleIncreases(kept, invalidated);
    hide SelectContext, Retained, InvalidatedIds, VisibleOnly, Summarized, CheckpointText, Increasing, Picked, PlanFits;
    var context := SelectContext(codec, log);
    assert context[1..] == VisibleOnly(kept, invalidated);
    forall e | e in context[1..] ensures e !in plan.summarized {
      VisibleMember(kept, invalidated, e);
      RetainedMember(log, plan.covers, e);
      if e in plan.summarized { SummaryReaches(log[..n], plan, e); }
    }
  }

  /** Two turns that interleave do lose an event: it is above neither coverage nor summary. */
  lemma InterleavedEventIsLost(codec: Codec, log: Events, n: nat, at: nat, plan: Plan, e: Event)
    requires Increasing(log) && MadeBy(log, n, at, plan) && Picked(codec, log, at)
    requires e in log[..n] && Shows(e) && e.turn in plan.retained && e.seqNo <= plan.covers
    ensures e !in plan.summarized && e !in SelectContext(codec, log)
  {
    ShownMeans(codec, log, n, at, plan, e);
    SummarizedMember(log[..n], plan.retained, e);
  }

  /** The checkpoint an attempt has just appended is one that selection then starts from, since its fresh id is not yet invalidated. */
  lemma CreatedIsPicked(
    codec: Codec, digest: Digest, render: Render, conversation: ConversationId, log: Events, policy: Policy, w: Writes)
    requires AttemptWrites(codec, digest, render, conversation, log, policy, w)
    requires w.last.Some? && w.last.value.kind.ContextCheckpoint? && w.last.value.id !in InvalidatedIds(codec, log + Appends(w))
    ensures MadeBy(log + Appends(w), |log|, |log| + |w.repairs|, PlanOf(codec, log, policy))
    ensures Picked(codec, log + Appends(w), |log| + |w.repairs|)
  {
    var plan, e, log' := PlanOf(codec, log, policy), w.last.value, log + Appends(w);
    PlansFit(codec, log, policy);
    hide PlanOf, PlanFits, InvalidatedIds, CheckpointText, StateUpTo;
    assert log'[..|log|] == log && log'[|log| + |w.repairs|] == e;
    forall i | |log| <= i < |log| + |w.repairs| ensures log'[i].kind.CheckpointInvalidated? {
      assert log'[i] == w.repairs[i - |log|] && IsRepair(codec, render, log, w.repairs[i - |log|]);
    }
    CheckpointFields(codec, digest, render, plan, e);
    hide IsCheckpointOf, IsRepair;
  }

  /** Turns that stand together never interleave, so nothing is lost for them. */
  lemma ContiguousLosesNothing(codec: Codec, events: Events, policy: Policy)
    requires PlanOf(codec, events, policy).Plan? && Contiguous(events) && Increasing(events)
    ensures NoInterleaving(events, PlanOf(codec, events, policy))
  {
    var plan := PlanOf(codec, events, policy);
    SummarisesTheRest(codec, events, policy);
    hide PlanOf, Shows, Contiguous;
    var top :| top in plan.summarized && top.seqNo == plan.covers;
    var i :| 0 <= i < |events| && events[i] == top;
    forall e | e in events && Shows(e) && e.turn in plan.retained ensures e.seqNo > plan.covers {
      var j :| 0 <= j < |events| && events[j] == e;
      KeptStandBehind(codec, events, policy, i, j);
    }
  }

  // ------------------------------------------------------------- runs of attempts

  /** What happens to a conversation's log: other events join it, or an attempt at a checkpoint writes. */
  datatype Step = Join(more: Events) | Try(policy: Policy, writes: Writes)

  function Added(step: Step): Events {
    if step.Join? then step.more else Appends(step.writes)
  }

  /**
    Checkpoints and invalidations come from attempts only, ids of checkpoints hold
    no colon, and numbers grow.
   */
  ghost predicate Fits(codec: Codec, digest: Digest, render: Render, conversation: ConversationId, log: Events, step: Step) {
    && Increasing(log + Added(step))
    && (step.Join? ==> forall e | e in step.more :: !e.kind.ContextCheckpoint? && !e.kind.CheckpointInvalidated?)
    && (step.Try? ==>
          && AttemptWrites(codec, digest, render, conversation, log, step.policy, step.writes)
          && (step.writes.last.Some? ==> ':' !in step.writes.last.value.id))
  }

  /** The log after the first `n` steps of a run. */
  function LogAfter(steps: seq<Step>, n: nat): Events
    requires n <= |steps|
  {
    if n == 0 then [] else LogAfter(steps, n - 1) + Added(steps[n - 1])
  }

  ghost predicate Run(codec: Codec, digest: Digest, render: Render, conversation: ConversationId, steps: seq<Step>) {
    forall i | 0 <= i < |steps| :: Fits(codec, digest, render, conversation, LogAfter(steps, i), steps[i])
  }

  /** Reading a stored state back gives the state. */
  ghost predicate ReadsBack(render: Render) {
    forall state :: render.facts(render.json(state)) == state
  }

  /** The checkpoint at `at` was made from a prefix of the log, with the state that its plan asks for. */
  ghost predicate OwnAt(codec: Codec, digest: Digest, render: Render, log: Events, n: nat, at: nat, plan: Plan) {
    && MadeBy(log, n, at, plan) && ':' !in log[at].id
    && Get(log[at].payload, "state") == Some(render.json(StateUpTo(codec, digest, plan.summarized, |plan.summarized|)))
  }

  ghost predicate Own(codec: Codec, digest: Digest, render: Render, log: Events, at: nat) {
    exists n: nat, plan: Plan :: OwnAt(codec, digest, render, log, n, at, plan)
  }

  /** Every checkpoint is an attempt's, and no invalidation names one. */
  ghost predicate OwnLog(codec: Codec, digest: Digest, render: Render, log: Events) {
    && Increasing(log)
    && (forall at | 0 <= at < |log| && log[at].kind.ContextCheckpoint? :: Own(codec, digest, render, log, at))
    && (forall id | id in NamedInvalid(codec, log) :: ':' in id)
  }

  lemma {:induction false} ConversationSplits(events: Events, more: Events, conversation: ConversationId)
    requires forall e | e in more :: e.conversation == conversation
    ensures InConversation(events + more, conversation) == InConversation(events, conversation) + more
    decreases |more|
  {
    if more == [] {
      assert events + more == events;
    } else {
      var init, last := more[..|more| - 1], more[|more| - 1];
      assert more == init + [last] && (events + more)[..|events + more| - 1] == events + init;
      ConversationSplits(events, init, conversation);
    }
  }

  /** An attempt on a sound database is such a step of its conversation. */
  lemma AttemptIsStep(
    codec: Codec, digest: Digest, render: Render, conversation: ConversationId, events: Events, policy: Policy, w: Writes)
    requires AttemptWrites(codec, digest, render, conversation, InConversation(events, conversation), policy, w)
    requires Dense(events + Appends(w)) && (w.last.Some? ==> ':' !in w.last.value.id)
    ensures Fits(codec, digest, render, conversation, InConversation(events, conversation), Try(policy, w))
    ensures InConversation(events + Appends(w), conversation) == InConversation(events, conversation) + Added(Try(policy, w))
  {
    hide Dense, Increasing, InConversation, PlanOf, IsRepair, IsCheckpointOf, IsRejection;
    ConversationSplits(events, Appends(w), conversation);
    ConversationIncreases(events + Appends(w), conversation);
  }

  lemma MadeStays(log: Events, more: Events, n: nat, at: nat, plan: Plan)
    requires MadeBy(log, n, at, plan)
    ensures MadeBy(log + more, n, at, plan)
  {
    assert (log + more)[..n] == log[..n];
    hide PlanFits, CheckpointText;
  }

  lemma OwnStays(codec: Codec, digest: Digest, render: Render, log: Events, more: Events, at: nat)
    requires at < |log| && Own(codec, digest, render, log, at)
    ensures Own(codec, digest, render, log + more, at)
  {
    var n: nat, plan :| OwnAt(codec, digest, render, log, n, at, plan);
    hide MadeBy, StateUpTo;
    MadeStays(log, more, n, at, plan);
    assert OwnAt(codec, digest, render, log + more, n, at, plan);
  }

  lemma NamedGrows(codec: Codec, log: Events, more: Events)
    ensures NamedInvalid(codec, log + more) == NamedInvalid(codec, log) + NamedInvalid(codec, more)
  {
    hide ShowText;
  }

  /** In such a log repair finds nothing to do. */
  lemma NothingCorrupt(codec: Codec, digest: Digest, render: Render, log: Events, at: nat)
    requires OwnLog(codec, digest, render, log) && ReadsBack(render) && at < |log|
    ensures !Corrupt(codec, render, log, log[at])
  {
    hide NamedInvalid, ProblemsUpTo, StateUpTo, SourceOf, Increasing, PlanFits, CheckpointText;
    if log[at].kind.ContextCheckpoint? {
      assert Own(codec, digest, render, log, at);
      var n: nat, plan :| OwnAt(codec, digest, render, log, n, at, plan);
      CoverIs(log[at], plan);
      OwnCheckpointNeverCorrupt(codec, digest, render, log[..n], plan, log[at], log);
    }
  }

  lemma CoverIs(e: Event, plan: Plan)
    requires plan.Plan? && Get(e.payload, "covers_through_seq") == Some(Int(plan.covers))
    ensures CoverOf(e) == plan.covers
  {
  }

  lemma NoRepairs(codec: Codec, digest: Digest, render: Render, log: Events)
    requires OwnLog(codec, digest, render, log) && ReadsBack(render)
    ensures forall e :: !IsRepair(codec, render, log, e)
  {
    hide OwnLog, Corrupt;
    forall n: nat | n < |log| ensures !Corrupt(codec, render, log, log[n]) { NothingCorrupt(codec, digest, render, log, n); }
  }

  lemma CheckpointFields(codec: Codec, digest: Digest, render: Render, plan: Plan, e: Event)
    requires plan.Plan? && IsCheckpointOf(codec, digest, render, plan, e)
    ensures e.kind.ContextCheckpoint? && CheckpointText(e.payload) != ""
    ensures Get(e.payload, "covers_through_seq") == Some(Int(plan.covers)) && Get(e.payload, "valid") != Some(Bool(false))
    ensures Get(e.payload, "state") == Some(render.json(StateUpTo(codec, digest, plan.summarized, |plan.summarized|)))
  {
    var state := StateUpTo(codec, digest, plan.summarized, |plan.summarized|);
    SummaryIsNotBlank(state);
    hide StateUpTo, Formatted, Strip;
    assert TextAt(e.payload, "summary") == Formatted(state);
  }

  lemma RejectionNames(codec: Codec, plan: Plan, e: Event)
    requires plan.Plan? && IsRejection(plan, e)
    ensures forall id | id in NamedInvalid(codec, [e]) :: ':' in id
  {
    hide Decimal;
    var id := REJECTED + Decimal(plan.covers);
    assert id[8] == ':' by { assert REJECTED[8] == ':'; }
    assert ShowText(codec, Str(id)) == id;
  }

  lemma NoMember(events: Events)
    ensures (forall e :: e !in events) ==> events == []
  {
    if events != [] { assert events[0] in events; }
  }

  lemma TryKeepsOwn(
    codec: Codec, digest: Digest, render: Render, conversation: ConversationId, log: Events, step: Step)
    requires OwnLog(codec, digest, render, log) && ReadsBack(render)
    requires step.Try? && Fits(codec, digest, render, conversation, log, step)
    ensures OwnLog(codec, digest, render, log + Added(step))
    ensures step.writes.repairs == []
  {
    var w, plan := step.writes, PlanOf(codec, log, step.policy);
    PlansFit(codec, log, step.policy);
    hide PlanOf, IsRepair, StateUpTo, IsRejection, IsCheckpointOf, Own, Increasing, NamedInvalid;
    NoRepairs(codec, digest, render, log);
    NoMember(w.repairs);
    if w.last.None? {
      assert log + Added(step) == log;
    } else {
      assert Added(step) == [w.last.value];
      LastKeepsOwn(codec, digest, render, log, plan, w.last.value);
    }
  }

  lemma LastKeepsOwn(codec: Codec, digest: Digest, render: Render, log: Events, plan: Plan, e: Event)
    requires OwnLog(codec, digest, render, log) && Increasing(log + [e]) && plan.Plan? && PlanFits(log, plan) && ':' !in e.id
    requires IsCheckpointOf(codec, digest, render, plan, e) || IsRejection(plan, e)
    ensures OwnLog(codec, digest, render, log + [e])
  {
    hide PlanFits, IsCheckpointOf, IsRejection, Own, Increasing, NamedInvalid;
    NamedGrows(codec, log, [e]);
    forall at | 0 <= at < |log| && log[at].kind.ContextCheckpoint? ensures Own(codec, digest, render, log + [e], at) {
      OwnStays(codec, digest, render, log, [e], at);
    }
    if IsCheckpointOf(codec, digest, render, plan, e) {
      NewIsOwn(codec, digest, render, log, plan, e);
      NotNamed(codec, e);
    } else {
      RejectionNames(codec, plan, e);
      RejectionIsNone(plan, e);
    }
  }

  lemma RejectionIsNone(plan: Plan, e: Event)
    requires plan.Plan? && IsRejection(plan, e)
    ensures !e.kind.ContextCheckpoint?
  {
    hide Decimal;
  }

  lemma NotNamed(codec: Codec, e: Event)
    requires !e.kind.CheckpointInvalidated?
    ensures NamedInvalid(codec, [e]) == {}
  {
  }

  lemma NewIsOwn(codec: Codec, digest: Digest, render: Render, log: Events, plan: Plan, e: Event)
    requires PlanFits(log, plan) && ':' !in e.id && IsCheckpointOf(codec, digest, render, plan, e)
    ensures e.kind.ContextCheckpoint? && Own(codec, digest, render, log + [e], |log|)
  {
    CheckpointFields(codec, digest, render, plan, e);
    hide PlanFits, StateUpTo, IsCheckpointOf, CheckpointText;
    assert (log + [e])[..|log|] == log;
    assert OwnAt(codec, digest, render, log + [e], |log|, |log|, plan);
  }

  lemma JoinedIsOld(log: Events, more: Events)
    requires forall e | e in more :: !e.kind.ContextCheckpoint?
    ensures forall at | 0 <= at < |log + more| && (log + more)[at].kind.ContextCheckpoint? :: at < |log|
  {
    assert forall at | |log| <= at < |log + more| :: (log + more)[at] in more;
  }

  lemma JoinKeepsOwn(codec: Codec, digest: Digest, render: Render, log: Events, more: Events)
    requires OwnLog(codec, digest, render, log) && Increasing(log + more)
    requires forall e | e in more :: !e.kind.ContextCheckpoint? && !e.kind.CheckpointInvalidated?
    ensures OwnLog(codec, digest, render, log + more)
  {
    NamedGrows(codec, log, more);
    assert NamedInvalid(codec, more) == {};
    JoinedIsOld(log, more);
    hide Own, Increasing, NamedInvalid;
    forall at | 0 <= at < |log + more| && (log + more)[at].kind.ContextCheckpoint? ensures Own(codec, digest, render, log + more, at) {
      OwnStays(codec, digest, render, log, more, at);
    }
  }

  /** In every reachable log the checkpoints are those of the attempts, and all of them stand. */
  lemma {:induction false} EveryLogOwn(
    codec: Codec, digest: Digest, render: Render, conversation: ConversationId, steps: seq<Step>, n: nat)
    requires Run(codec, digest, render, conversation, steps) && ReadsBack(render) && n <= |steps|
    ensures OwnLog(codec, digest, render, LogAfter(steps, n))
  {
    hide OwnLog, Fits, ReadsBack;
    if n == 0 {
      NothingOwn(codec, digest, render);
    } else {
      EveryLogOwn(codec, digest, render, conversation, steps, n - 1);
      var log, step := LogAfter(steps, n - 1), steps[n - 1];
      assert Fits(codec, digest, render, conversation, log, step);
      if step.Try? { TryKeepsOwn(codec, digest, render, conversation, log, step); }
      else {
        JoinFits(codec, digest, render, conversation, log, step);
        JoinKeepsOwn(codec, digest, render, log, step.more);
      }
    }
  }

  lemma JoinFits(codec: Codec, digest: Digest, render: Render, conversation: ConversationId, log: Events, step: Step)
    requires step.Join? && Fits(codec, digest, render, conversation, log, step)
    ensures Increasing(log + step.more) && forall e | e in step.more :: !e.kind.ContextCheckpoint? && !e.kind.CheckpointInvalidated?
  {
    hide Increasing;
  }

  lemma NothingOwn(codec: Codec, digest: Digest, render: Render)
    ensures OwnLog(codec, digest, render, [])
  {
  }

  /** A checkpoint that step `i` of a run appended. */
  ghost predicate Creates(steps: seq<Step>, i: nat) {
    i < |steps| && steps[i].Try? && steps[i].writes.last.Some? && steps[i].writes.last.value.kind.ContextCheckpoint?
  }

  lemma {:induction false} LogExtends(steps: seq<Step>, i: nat, j: nat)
    requires i < j <= |steps|
    ensures forall e | e in Added(steps[i]) :: e in LogAfter(steps, j)
    decreases j
  {
    hide Added;
    if i < j - 1 { LogExtends(steps, i, j - 1); }
  }

  lemma OwnStands(codec: Codec, digest: Digest, render: Render, log: Events, e: Event)
    requires OwnLog(codec, digest, render, log) && e in log && e.kind.ContextCheckpoint?
    ensures Standing(e, NamedInvalid(codec, log)) && ':' !in e.id
  {
    hide NamedInvalid, Increasing, StateUpTo;
    var at :| 0 <= at < |log| && log[at] == e;
    assert Own(codec, digest, render, log, at);
    var n: nat, plan :| OwnAt(codec, digest, render, log, n, at, plan);
  }

  /**
    Checkpoints only advance: in every run, whatever is written in between, an
    unforced checkpoint covers strictly more than each one made before it.
   */
  lemma CoverageStrictlyIncreases(
    codec: Codec, digest: Digest, render: Render, conversation: ConversationId, steps: seq<Step>, i: nat, j: nat)
    requires Run(codec, digest, render, conversation, steps) && ReadsBack(render)
    requires i < j && Creates(steps, i) && Creates(steps, j) && !steps[j].policy.force
    ensures CoverOf(steps[i].writes.last.value) < CoverOf(steps[j].writes.last.value)
  {
    var log, a := LogAfter(steps, j), steps[i].writes.last.value;
    LogExtends(steps, i, j);
    EveryLogOwn(codec, digest, render, conversation, steps, j);
    assert a in Added(steps[i]);
    OwnStands(codec, digest, render, log, a);
    hide ReadsBack, OwnLog, LogAfter, Added, Standing;
    assert Fits(codec, digest, render, conversation, log, steps[j]);
    hide Run;
    CreatedCovers(codec, digest, render, conversation, log, steps[j]);
    UnforcedAdvances(codec, log, steps[j].policy);
    PriorIsGreatest(log, NamedInvalid(codec, log), a);
  }

  lemma CreatedCovers(codec: Codec, digest: Digest, render: Render, conversation: ConversationId, log: Events, step: Step)
    requires Fits(codec, digest, render, conversation, log, step)
    requires step.Try? && step.writes.last.Some? && step.writes.last.value.kind.ContextCheckpoint?
    ensures PlanOf(codec, log, step.policy).Plan?
    ensures CoverOf(step.writes.last.value) == PlanOf(codec, log, step.policy).covers
  {
    hide PlanOf, IsRepair, Increasing;
    var plan, e := PlanOf(codec, log, step.policy), step.writes.last.value;
    CheckpointFields(codec, digest, render, plan, e);
    hide IsCheckpointOf;
    CoverIs(e, plan);
  }

  lemma OwnIsPicked(codec: Codec, digest: Digest, render: Render, log: Events, at: nat)
    requires OwnLog(codec, digest, render, log) && at < |log| && log[at].kind.ContextCheckpoint?
    requires forall i | at < i < |log| :: !log[i].kind.ContextCheckpoint?
    ensures Picked(codec, log, at)
  {
    assert Own(codec, digest, render, log, at);
    var n: nat, plan :| OwnAt(codec, digest, render, log, n, at, plan);
    OwnStands(codec, digest, render, log, log[at]);
    InvalidatedAreNamed(codec, log);
    hide OwnLog, StateUpTo, NamedInvalid, InvalidatedIds, CheckpointText, PlanFits;
  }

  lemma InvalidatedAreNamed(codec: Codec, log: Events)
    ensures InvalidatedIds(codec, log) <= NamedInvalid(codec, log)
  {
    hide ShowText;
  }

  /**
    In every reachable log with a checkpoint the context starts from the last
    one, which an attempt made from a prefix of the log, and loses nothing if and
    only if no turn kept then had an event to show at or below the coverage.
   */
  lemma EveryContextLosesNothingExactly(
    codec: Codec, digest: Digest, render: Render, conversation: ConversationId, steps: seq<Step>, m: nat, at: nat)
    returns (n: nat, plan: Plan)
    requires Run(codec, digest, render, conversation, steps) && ReadsBack(render) && m <= |steps|
    requires at < |LogAfter(steps, m)| && LogAfter(steps, m)[at].kind.ContextCheckpoint?
    requires forall i | at < i < |LogAfter(steps, m)| :: !LogAfter(steps, m)[i].kind.ContextCheckpoint?
    ensures var log := LogAfter(steps, m);
      && MadeBy(log, n, at, plan) && SelectContext(codec, log) != [] && SelectContext(codec, log)[0] == log[at]
      && ((forall e | e in log && Shows(e) :: e in plan.summarized || e in SelectContext(codec, log))
          <==> NoInterleaving(log[..n], plan))
  {
    var log := LogAfter(steps, m);
    EveryLogOwn(codec, digest, render, conversation, steps, m);
    OwnIsPicked(codec, digest, render, log, at);
    hide Run, LogAfter, ReadsBack, StateUpTo, SelectContext, MadeBy, Picked, Increasing, NoInterleaving;
    assert Own(codec, digest, render, log, at);
    n, plan :| OwnAt(codec, digest, render, log, n, at, plan);
    LosesNothingExactly(codec, log, n, at, plan);
    SelectedOnceInOrder(codec, log, n, at, plan);
  }

  /** And in one without any, everything a context may show is selected. */
  lemma {:induction false} NothingToLose(codec: Codec, log: Events, e: Event)
    requires Increasing(log) && forall x | x in log :: !x.kind.ContextCheckpoint?
    requires e in log && Shows(e)
    ensures e in SelectContext(codec, log)
  {
    var invalidated := InvalidatedIds(codec, log);
    SortedBySeq(log);
    SelectedIs(codec, log);
    LastCheckpointMeans(log, invalidated, |log|);
    hide SelectContext, InvalidatedIds, LastCheckpoint, InLogOrder;
    assert forall i | 0 <= i < |log| :: !ValidCheckpoint(log[i], invalidated);
    VisibleMember(log, invalidated, e);
  }
}
