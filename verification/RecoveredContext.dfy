/**
  After recovery the context of a conversation loses no call: each call of a
  recovered turn that the context selects is answered inside that context.
 */
module RecoveredContext {
  import opened JsonValue
  import opened Tables
  import opened Sorting
  import opened EventStore
  import opened ContextEvents
  import opened Exchanges
  import opened CrashRecovery

  /** `list_events` of a conversation, in the order of the log. */
  function InConversation(events: Events, conversation: ConversationId): Events {
    if events == [] then []
    else
      var last := events[|events| - 1];
      InConversation(events[..|events| - 1], conversation) + if last.conversation == conversation then [last] else []
  }

  /** Numbers grow along the list. */
  ghost predicate Increasing(events: Events) {
    forall i, j | 0 <= i < j < |events| :: events[i].seqNo < events[j].seqNo
  }

  lemma DensePrefix(events: Events)
    requires events != [] && Dense(events)
    ensures Dense(events[..|events| - 1])
  {
    var init := events[..|events| - 1];
    hide CountIn;
    assert forall i | 0 <= i < |init| :: init[..i] == events[..i] && init[i] == events[i];
  }

  lemma LastIsGreatest(events: Events, e: Event)
    requires events != [] && Dense(events)
    requires e in events[..|events| - 1] && e.conversation == events[|events| - 1].conversation
    ensures e.seqNo < events[|events| - 1].seqNo
  {
    var i :| 0 <= i < |events| - 1 && events[i] == e;
    hide Dense;
    LaterIsGreater(events, i, |events| - 1);
  }

  lemma {:induction false} ConversationMembers(events: Events, conversation: ConversationId)
    ensures forall e :: e in InConversation(events, conversation) <==> e in events && e.conversation == conversation
  {
    if events != [] {
      var init := events[..|events| - 1];
      ConversationMembers(init, conversation);
      assert events == init + [events[|events| - 1]];
    }
  }

  /** A conversation reads in strictly increasing order. */
  lemma {:induction false} ConversationIncreases(events: Events, conversation: ConversationId)
    requires Dense(events)
    ensures Increasing(InConversation(events, conversation))
  {
    if events != [] {
      var init, last := events[..|events| - 1], events[|events| - 1];
      DensePrefix(events);
      ConversationIncreases(init, conversation);
      ConversationMembers(init, conversation);
      if last.conversation == conversation {
        forall e | e in InConversation(init, conversation) ensures e.seqNo < last.seqNo { LastIsGreatest(events, e); }
        OneMoreIncreases(InConversation(init, conversation), last);
      }
    }
  }

  lemma OneMoreIncreases(events: Events, e: Event)
    requires Increasing(events) && forall x | x in events :: x.seqNo < e.seqNo
    ensures Increasing(events + [e])
  {
  }

  lemma OwnedPrefix(turns: Turns, events: Events)
    requires events != [] && Owned(turns, events)
    ensures Owned(turns, events[..|events| - 1])
    ensures forall e | e in events[..|events| - 1] && e.turn == events[|events| - 1].turn ::
      e.conversation == events[|events| - 1].conversation
  {
    assert events == events[..|events| - 1] + [events[|events| - 1]];
    assert events[|events| - 1] in events;
  }

  lemma {:induction false} TurnIncreases(turns: Turns, events: Events, turn: TurnId)
    requires Dense(events) && Owned(turns, events)
    ensures Increasing(OfTurn(events, turn))
  {
    if events != [] {
      hide Dense, Owned;
      var init, last := events[..|events| - 1], events[|events| - 1];
      DensePrefix(events);
      OwnedPrefix(turns, events);
      TurnIncreases(turns, init, turn);
      OfTurnMembers(init, turn);
      if last.turn == turn {
        forall e | e in OfTurn(init, turn) ensures e.seqNo < last.seqNo { LastIsGreatest(events, e); }
        OneMoreIncreases(OfTurn(init, turn), last);
      }
    }
  }

  /** Sorting by number, as the queries do, leaves an increasing list alone. */
  lemma SortedBySeq(events: Events)
    requires Increasing(events)
    ensures Items(Sort(BySeq(events))) == events
    ensures InLogOrder(events) == events
  {
    KeyedBySeq(events);
    assert Sorted(KeyBySeq(events));
    assert Sorted(BySeq(events));
    SortOfSorted(KeyBySeq(events));
    SortOfSorted(BySeq(events));
    hide KeyBySeq;
  }

  lemma {:induction false} KeyedBySeq(events: Events)
    ensures |KeyBySeq(events)| == |events|
    ensures forall i | 0 <= i < |events| :: KeyBySeq(events)[i] == Keyed(events[i].seqNo, events[i].createdAt, events[i])
  {
    if events != [] {
      KeyedBySeq(events[1..]);
      assert KeyBySeq(events)[1..] == KeyBySeq(events[1..]);
    }
  }

  /** So the events recovery reads for a turn are those of the log, in log order. */
  lemma TurnEventsInOrder(turns: Turns, events: Events, turn: TurnId)
    requires Dense(events) && Owned(turns, events)
    ensures TurnEvents(events, turn) == OfTurn(events, turn)
  {
    hide Increasing, OfTurn, BySeq;
    TurnIncreases(turns, events, turn);
    SortedBySeq(OfTurn(events, turn));
  }

  // --------------------------------------------------------- keeping an order

  ghost predicate Precedes(xs: Events, a: Event, b: Event) {
    exists p, q :: 0 <= p < q < |xs| && xs[p] == a && xs[q] == b
  }

  lemma IncreasingPrecedes(xs: Events, a: Event, b: Event)
    requires Increasing(xs) && a in xs && b in xs && a.seqNo < b.seqNo
    ensures Precedes(xs, a, b)
  {
    var p :| 0 <= p < |xs| && xs[p] == a;
    var q :| 0 <= q < |xs| && xs[q] == b;
  }

  lemma PrecedesTail(xs: Events, a: Event, b: Event)
    requires xs != [] && Precedes(xs, a, b)
    ensures (xs[0] == a && b in xs[1..]) || Precedes(xs[1..], a, b)
  {
    var p, q :| 0 <= p < q < |xs| && xs[p] == a && xs[q] == b;
    assert xs[1..][q - 1] == b;
    if p > 0 { assert xs[1..][p - 1] == a; }
  }

  lemma PrecedesCons(x: Event, xs: Events, a: Event, b: Event)
    requires Precedes(xs, a, b) || (x == a && b in xs)
    ensures Precedes([x] + xs, a, b)
  {
    if x == a && b in xs {
      var q :| 0 <= q < |xs| && xs[q] == b;
      assert ([x] + xs)[0] == a && ([x] + xs)[q + 1] == b;
    } else {
      var p, q :| 0 <= p < q < |xs| && xs[p] == a && xs[q] == b;
      assert ([x] + xs)[p + 1] == a && ([x] + xs)[q + 1] == b;
    }
  }

  lemma {:induction false} RetainedMember(xs: Events, covers: int, e: Event)
    ensures e in Retained(xs, covers) <==> e in xs && e.seqNo > covers && !e.kind.ContextCheckpoint?
  {
    if xs != [] { RetainedMember(xs[1..], covers, e); }
  }

  lemma {:induction false} RetainedPrecedes(xs: Events, covers: int, a: Event, b: Event)
    requires Precedes(xs, a, b)
    requires a.seqNo > covers && b.seqNo > covers && !a.kind.ContextCheckpoint? && !b.kind.ContextCheckpoint?
    ensures Precedes(Retained(xs, covers), a, b)
  {
    PrecedesTail(xs, a, b);
    RetainedMember(xs[1..], covers, b);
    if Precedes(xs[1..], a, b) { RetainedPrecedes(xs[1..], covers, a, b); }
    hide Precedes;
    if xs[0].seqNo > covers && !xs[0].kind.ContextCheckpoint? {
      PrecedesCons(xs[0], Retained(xs[1..], covers), a, b);
    }
  }

  lemma {:induction false} VisibleMember(xs: Events, invalidated: set<string>, e: Event)
    ensures e in VisibleOnly(xs, invalidated) <==> e in xs && ModelVisible(e, invalidated)
  {
    hide ModelVisible;
    if xs != [] { VisibleMember(xs[1..], invalidated, e); }
  }

  lemma {:induction false} VisiblePrecedes(xs: Events, invalidated: set<string>, a: Event, b: Event)
    requires Precedes(xs, a, b) && ModelVisible(a, invalidated) && ModelVisible(b, invalidated)
    ensures Precedes(VisibleOnly(xs, invalidated), a, b)
  {
    hide ModelVisible;
    PrecedesTail(xs, a, b);
    VisibleMember(xs[1..], invalidated, b);
    if Precedes(xs[1..], a, b) { VisiblePrecedes(xs[1..], invalidated, a, b); }
    hide Precedes;
    if ModelVisible(xs[0], invalidated) {
      PrecedesCons(xs[0], VisibleOnly(xs[1..], invalidated), a, b);
    }
  }

  /** Cutting at a checkpoint never separates a call it keeps from a later result. */
  lemma CutKeepsLater(log: Events, invalidated: set<string>, a: Event, b: Event)
    requires Increasing(log) && a in log && b in log && a.seqNo < b.seqNo
    requires a in CutAtCheckpoint(log, invalidated)
    requires !a.kind.ContextCheckpoint? && !b.kind.ContextCheckpoint?
    ensures Precedes(CutAtCheckpoint(log, invalidated), a, b)
  {
    IncreasingPrecedes(log, a, b);
    LastCheckpointMeans(log, invalidated, |log|);
    var checkpoint := LastCheckpoint(log, invalidated, |log|);
    hide LastCheckpoint, Precedes, ValidCheckpoint;
    if checkpoint.Some? {
      var covers := AsInt(Get(log[checkpoint.value].payload, "covers_through_seq"));
      if covers.Some? {
        RetainedMember(log, covers.value, a);
        RetainedPrecedes(log, covers.value, a, b);
        PrecedesCons(log[checkpoint.value], Retained(log, covers.value), a, b);
      } else {
        TailKeepsLater(log, checkpoint.value, a, b);
      }
    }
  }

  lemma GreaterIsLater(log: Events, p: nat, q: nat)
    requires Increasing(log) && p < |log| && q < |log| && log[p].seqNo < log[q].seqNo
    ensures p < q
  {
  }

  lemma TailKeepsLater(log: Events, i: nat, a: Event, b: Event)
    requires Increasing(log) && i <= |log| && a in log[i..] && b in log && a.seqNo < b.seqNo
    ensures Precedes(log[i..], a, b)
  {
    var p :| 0 <= p < |log[i..]| && log[i..][p] == a;
    var q :| 0 <= q < |log| && log[q] == b;
    assert log[i + p] == a;
    GreaterIsLater(log, i + p, q);
    assert log[i..][q - i] == b;
  }

  /** The selection keeps, behind each call it selects, every later result. */
  lemma SelectionKeepsLater(codec: Codec, log: Events, a: Event, b: Event)
    requires Increasing(log) && a in SelectContext(codec, log) && b in log && a.seqNo < b.seqNo
    requires a.kind.ToolCall? && b.kind.ToolResult?
    ensures Precedes(SelectContext(codec, log), a, b)
  {
    SortedBySeq(log);
    var invalidated := InvalidatedIds(codec, log);
    var cut := CutAtCheckpoint(log, invalidated);
    SelectedIs(codec, log);
    hide SelectContext, InLogOrder, InvalidatedIds, CutAtCheckpoint, Precedes, Increasing;
    VisibleMember(cut, invalidated, a);
    CutMembers(log, invalidated, a);
    CutKeepsLater(log, invalidated, a, b);
    VisiblePrecedes(cut, invalidated, a, b);
  }

  lemma SelectedIs(codec: Codec, log: Events)
    requires InLogOrder(log) == log
    ensures SelectContext(codec, log) == VisibleOnly(CutAtCheckpoint(log, InvalidatedIds(codec, log)), InvalidatedIds(codec, log))
  {
    hide InLogOrder, InvalidatedIds, CutAtCheckpoint, VisibleOnly;
  }

  lemma CutMembers(log: Events, invalidated: set<string>, e: Event)
    ensures e in CutAtCheckpoint(log, invalidated) ==> e in log
  {
    var checkpoint := LastCheckpoint(log, invalidated, |log|);
    hide LastCheckpoint, ValidCheckpoint;
    if checkpoint.Some? {
      var covers := AsInt(Get(log[checkpoint.value].payload, "covers_through_seq"));
      if covers.Some? { RetainedMember(log, covers.value, e); }
    }
  }

  // ------------------------------------------------------------ soundness

  lemma {:induction false} ClosedKeepsSound(
    codec: Codec, turns: Turns, events: Events, turn: TurnId, row: Turn, calls: Events, n: nat, stamp: Stamp)
    requires SoundLog(turns, events) && n <= |calls| && turn in turns && turns[turn].conversation == row.conversation
    ensures SoundLog(turns, Closed(codec, events, turn, row, calls, n, stamp))
  {
    if n > 0 {
      hide SoundLog, Logged;
      ClosedKeepsSound(codec, turns, events, turn, row, calls, n - 1, stamp);
      ResultDraftFits(codec, turn, row, calls[n - 1]);
      hide ResultDraft;
      LoggedKeepsSound(turns, Closed(codec, events, turn, row, calls, n - 1, stamp), ResultDraft(codec, turn, row, calls[n - 1]), stamp);
    }
  }

  lemma TurnKeepsSound(codec: Codec, s: Store, job: Job, now: Time, stamp: Stamp)
    requires SoundLog(s.turns, s.events) && job.turn in s.turns && s.turns[job.turn].conversation == job.row.conversation
    ensures var s' := RecoverTurn(codec, s, job, now, stamp);
      SoundLog(s'.turns, s'.events) && s'.turns.Keys == s.turns.Keys
      && forall t | t in s.turns :: s'.turns[t].conversation == s.turns[t].conversation
  {
    var calls := OpenCalls(s.events, job.turn);
    var closed := Closed(codec, s.events, job.turn, job.row, calls, |calls|, stamp);
    ClosedTurnIs(codec, s.events, job.turn, job.row, stamp);
    hide SoundLog, OpenCalls, Closed, Logged, ClosedTurn;
    ClosedKeepsSound(codec, s.turns, s.events, job.turn, job.row, calls, |calls|, stamp);
    LoggedKeepsSound(s.turns, closed, InterruptDraft(job.turn, job.row), stamp);
    SameOwners(s.turns, RecoverTurn(codec, s, job, now, stamp).turns, Logged(closed, InterruptDraft(job.turn, job.row), stamp));
  }

  lemma SameOwners(turns: Turns, turns': Turns, events: Events)
    requires SoundLog(turns, events) && turns'.Keys == turns.Keys
    requires forall t | t in turns :: turns'[t].conversation == turns[t].conversation
    ensures SoundLog(turns', events)
  {
    hide Dense, KeysUnique;
  }

  ghost predicate JobsFit(turns: Turns, jobs: seq<Job>) {
    forall job | job in jobs :: job.turn in turns && turns[job.turn].conversation == job.row.conversation
  }

  lemma {:induction false} RunKeepsSound(codec: Codec, s: Store, jobs: seq<Job>, now: Time, stamp: Stamp)
    requires SoundLog(s.turns, s.events) && JobsFit(s.turns, jobs)
    ensures var s' := RecoverAll(codec, s, jobs, now, stamp);
      SoundLog(s'.turns, s'.events) && s'.turns.Keys == s.turns.Keys
      && forall t | t in s.turns :: s'.turns[t].conversation == s.turns[t].conversation
  {
    if jobs != [] {
      hide SoundLog, RecoverTurn;
      var init, last := jobs[..|jobs| - 1], jobs[|jobs| - 1];
      assert jobs == init + [last] && last in jobs;
      RunKeepsSound(codec, s, init, now, stamp);
      TurnKeepsSound(codec, RecoverAll(codec, s, init, now, stamp), last, now, stamp);
    }
  }

  // ------------------------------------------------------------- no call lost

  /** A call id names one call event of a log. */
  ghost predicate CallOnce(log: Events, e: Event) {
    forall x | x in log && x.kind.ToolCall? && CallIdOf(x) == CallIdOf(e) :: x == e
  }

  lemma IdsAgree(e: Event)
    requires CallIdOf(e) != ""
    ensures e.kind.ToolCall? ==> ToolCallId(e.payload) == CallIdOf(e)
    ensures e.kind.ToolResult? ==> ToolResultId(e.payload) == CallIdOf(e)
  {
  }

  lemma PrecedesIsPaired(selected: Events, a: Event, b: Event)
    requires Precedes(selected, a, b) && a.kind.ToolCall? && b.kind.ToolResult?
    requires CallIdOf(a) != "" && CallIdOf(b) == CallIdOf(a)
    ensures Paired(selected, CallIdOf(a))
  {
    IdsAgree(a);
    IdsAgree(b);
    hide CallIdOf, ToolCallId, ToolResultId;
    var p, q :| 0 <= p < q < |selected| && selected[p] == a && selected[q] == b;
    assert CallAt(selected, p, CallIdOf(a)) && ResultAt(selected, q, CallIdOf(a));
  }

  lemma AnswerOf(turns: Turns, events: Events, turn: TurnId, log: Events, e: Event) returns (r: Event)
    requires SoundLog(turns, events) && OpenCalls(events, turn) == []
    requires turn in turns && log == InConversation(events, turns[turn].conversation)
    requires e in log && e.turn == turn && e.kind.ToolCall? && CallIdOf(e) != "" && CallOnce(log, e)
    ensures r in log && r.kind.ToolResult? && CallIdOf(r) == CallIdOf(e) && e.seqNo < r.seqNo
  {
    var evs := OfTurn(events, turn);
    OfTurnMembers(events, turn);
    ConversationMembers(events, turns[turn].conversation);
    TurnIncreases(turns, events, turn);
    hide OfTurn, OpenCalls, InConversation, CallIdOf, Dense, KeysUnique;
    var i :| 0 <= i < |evs| && evs[i] == e;
    ClosedMeansAnswered(events, turn, i);
    var p, q :| 0 <= p < q < |evs| && evs[p].kind.ToolCall? && CallIdOf(evs[p]) == CallIdOf(e)
      && evs[q].kind.ToolResult? && CallIdOf(evs[q]) == CallIdOf(e);
    assert evs[p] in evs && evs[q] in evs;
    assert evs[p] in events && evs[q] in events;
    assert evs[p] in log && evs[p] == e;
    r := evs[q];
  }

  /**
    After recovery every call of a recovered turn that the context selects has
    its result in the context, so rebuilding the transcript drops none of them.
   */
  lemma RecoveredCallsArePaired(
    codec: Codec, s: Store, jobs: seq<Job>, now: Time, stamp: Stamp, job: Job, log: Events, e: Event)
    requires SoundLog(s.turns, s.events) && HonestKeys(s.events) && JobsFit(s.turns, jobs) && job in jobs
    requires log == InConversation(RecoverAll(codec, s, jobs, now, stamp).events, job.row.conversation)
    requires e in SelectContext(codec, log) && e.turn == job.turn && e.kind.ToolCall? && CallIdOf(e) != "" && CallOnce(log, e)
    ensures Paired(SelectContext(codec, log), CallIdOf(e))
  {
    var s' := RecoverAll(codec, s, jobs, now, stamp);
    RunKeepsSound(codec, s, jobs, now, stamp);
    assert s'.turns[job.turn].conversation == job.row.conversation;
    hide *;
    RunClosesAll(codec, s, jobs, now, stamp, job);
    SoundIsDense(s'.turns, s'.events);
    ConversationIncreases(s'.events, job.row.conversation);
    SelectedInLog(codec, log, e);
    var r := AnswerOf(s'.turns, s'.events, job.turn, log, e);
    SelectionKeepsLater(codec, log, e, r);
    PrecedesIsPaired(SelectContext(codec, log), e, r);
  }

  lemma SoundIsDense(turns: Turns, events: Events)
    requires SoundLog(turns, events)
    ensures Dense(events) && Owned(turns, events)
  {
    hide Dense, Owned, KeysUnique;
  }

  lemma SelectedInLog(codec: Codec, log: Events, e: Event)
    requires Increasing(log) && e in SelectContext(codec, log)
    ensures e in log
  {
    SortedBySeq(log);
    SelectedIs(codec, log);
    hide SelectContext, InLogOrder, InvalidatedIds, CutAtCheckpoint;
    VisibleMember(CutAtCheckpoint(log, InvalidatedIds(codec, log)), InvalidatedIds(codec, log), e);
    CutMembers(log, InvalidatedIds(codec, log), e);
  }

  /** A call that names its id under another key is not closed by recovery: the context can see it, recovery cannot. */
  lemma OtherKeyIsMissed(events: Events, e: Event, id: string)
    requires e.kind.ToolCall? && e.payload == Obj(map["id" := Str(id)]) && id != ""
    ensures ToolCallId(e.payload) == id && OpenCalls(events + [e], e.turn) == OpenCalls(events, e.turn)
  {
    UnnamedCall(e, id);
    hide CallIdOf, StillOpen, ScanOf, OfTurn;
    OtherEventKeepsScan(events, e, e.turn);
  }

  lemma UnnamedCall(e: Event, id: string)
    requires e.payload == Obj(map["id" := Str(id)])
    ensures ToolCallId(e.payload) == id && CallIdOf(e) == ""
  {
  }
}
