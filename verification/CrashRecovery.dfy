/**
  Recovery after a crash: closing the open tool calls of every turn whose task
  is gone, marking the turn interrupted, and why it may itself crash at any
  commit and be run again.
 */
module CrashRecovery {
  import opened JsonValue
  import opened Tables
  import opened Sorting
  import opened TaskQueue
  import opened EventStore
  import opened ContextEvents

  const LOST_RESULT_TEXT := "工具调用因 Agent 服务中断，未完成执行。"
  const TURN_APPROVAL_LOST_TEXT := "Agent 服务重启，等待中的下载确认已失效"
  const MAX_RECOVERIES := 3

  // --------------------------------------------------------- open tool calls

  /** The events of a turn, in the order of the log. */
  function OfTurn(events: Events, turn: TurnId): Events {
    if events == [] then []
    else
      var last := events[|events| - 1];
      OfTurn(events[..|events| - 1], turn) + if last.turn == turn then [last] else []
  }

  function BySeq(events: Events): seq<Keyed<Event>> {
    seq(|events|, i requires 0 <= i < |events| => Keyed(events[i].seqNo, 0, events[i]))
  }

  /** `list_turn_events`. */
  function TurnEvents(events: Events, turn: TurnId): Events {
    Items(Sort(BySeq(OfTurn(events, turn))))
  }

  /** `payload.get("tool_call_id")` where it is a text. */
  function CallIdOf(e: Event): string {
    TextAt(e.payload, "tool_call_id")
  }

  /** The calls seen so far, each id once, and the ids that had a result behind their call. */
  datatype Scan = Scan(calls: Events, completed: set<string>)

  function KnownIds(calls: Events): set<string> {
    set e | e in calls :: CallIdOf(e)
  }

  function ScanStep(s: Scan, e: Event): Scan {
    if CallIdOf(e) == "" then s
    else if e.kind.ToolCall? && CallIdOf(e) !in KnownIds(s.calls) then s.(calls := s.calls + [e])
    else if e.kind.ToolResult? && CallIdOf(e) in KnownIds(s.calls) then s.(completed := s.completed + {CallIdOf(e)})
    else s
  }

  function ScanOf(events: Events): Scan {
    if events == [] then Scan([], {}) else ScanStep(ScanOf(events[..|events| - 1]), events[|events| - 1])
  }

  function StillOpen(calls: Events, completed: set<string>): Events {
    if calls == [] then []
    else (if CallIdOf(calls[0]) in completed then [] else [calls[0]]) + StillOpen(calls[1..], completed)
  }

  /** The calls of a turn that no result follows, in order. */
  function OpenCalls(events: Events, turn: TurnId): Events {
    var s := ScanOf(OfTurn(events, turn));
    StillOpen(s.calls, s.completed)
  }

  // --------------------------------------------------- recovery as a function

  function ResultPayload(codec: Codec, call: Event): Json {
    Obj(map["tool_call_id" := Str(CallIdOf(call)), "name" := Str(TextOr(codec, call.payload, "name", "")), "ok" := Bool(false),
            "model_output" := Str(LOST_RESULT_TEXT), "structured_output" := Null, "duration_ms" := Null,
            "error_type" := Str("service_interrupted"), "interrupted" := Bool(true)])
  }

  function ResultDraft(codec: Codec, turn: TurnId, row: Turn, call: Event): Draft {
    Draft(row.conversation, turn, row.task, ToolResult, true, Some(RecoveredResult(turn, CallIdOf(call))), ResultPayload(codec, call))
  }

  function LostText(row: Turn): string {
    if row.status.AwaitingApproval? then TURN_APPROVAL_LOST_TEXT else EXECUTION_LOST_TEXT
  }

  function StatusText(s: Status): string {
    if s.AwaitingApproval? then "awaiting_approval" else "running"
  }

  function InterruptDraft(turn: TurnId, row: Turn): Draft {
    Draft(row.conversation, turn, row.task, TurnInterrupted, false, Some(RecoveredInterruption(turn)),
          Obj(map["message" := Str(LostText(row)), "previous_status" := Str(StatusText(row.status))]))
  }

  /** The log after the first `n` of some calls were closed. */
  function Closed(codec: Codec, events: Events, turn: TurnId, row: Turn, calls: Events, n: nat, stamp: Stamp): Events
    requires n <= |calls|
  {
    if n == 0 then events
    else Logged(Closed(codec, events, turn, row, calls, n - 1, stamp), ResultDraft(codec, turn, row, calls[n - 1]), stamp)
  }

  function ClosedTurn(codec: Codec, events: Events, turn: TurnId, row: Turn, stamp: Stamp): Events {
    var calls := OpenCalls(events, turn);
    Logged(Closed(codec, events, turn, row, calls, |calls|, stamp), InterruptDraft(turn, row), stamp)
  }

  datatype Store = Store(turns: Turns, events: Events)

  /** A turn to recover, with its row as it was selected. */
  datatype Job = Job(turn: TurnId, row: Turn)

  function InterruptedTurn(current: Turn, row: Turn, now: Time): Turn {
    current.(status := Interrupted, finishedAt := Some(now), errorMessage := LostText(row))
  }

  function WithInterrupted(turns: Turns, job: Job, now: Time): Turns {
    if job.turn in turns then turns[job.turn := InterruptedTurn(turns[job.turn], job.row, now)] else turns
  }

  function RecoverTurn(codec: Codec, s: Store, job: Job, now: Time, stamp: Stamp): Store {
    Store(WithInterrupted(s.turns, job, now), ClosedTurn(codec, s.events, job.turn, job.row, stamp))
  }

  function RecoverAll(codec: Codec, s: Store, jobs: seq<Job>, now: Time, stamp: Stamp): Store {
    if jobs == [] then s
    else RecoverTurn(codec, RecoverAll(codec, s, jobs[..|jobs| - 1], now, stamp), jobs[|jobs| - 1], now, stamp)
  }

  // --------------------------------------------------------- the turns to do

  /** A turn that says it runs while its task does not. */
  predicate Stale(tasks: Tasks, row: Turn) {
    Holding(row.status) && (row.task.None? || row.task.value !in tasks || !Active(tasks[row.task.value].status))
  }

  predicate JobBefore(a: Job, b: Job) {
    a.row.createdAt < b.row.createdAt || (a.row.createdAt == b.row.createdAt && a.turn < b.turn)
  }

  predicate IsStaleJob(tasks: Tasks, turns: Turns, job: Job) {
    job.turn in turns && job.row == turns[job.turn] && Stale(tasks, job.row)
  }

  /** `jobs` holds exactly the stale turns, oldest first. */
  ghost predicate StaleJobs(tasks: Tasks, turns: Turns, jobs: seq<Job>) {
    && (forall job :: job in jobs <==> IsStaleJob(tasks, turns, job))
    && (forall i, j | 0 <= i < j < |jobs| :: JobBefore(jobs[i], jobs[j]))
  }

  /** May the task of this turn be tried again? */
  predicate Recoverable(tasks: Tasks, row: Turn) {
    && row.task.Some?
    && (row.task.value in tasks ==>
          !tasks[row.task.value].cancelRequested && tasks[row.task.value].recoveryAttempt < MAX_RECOVERIES)
  }

  /** The turns reported back for another attempt. */
  function RecoverableOf(tasks: Tasks, jobs: seq<Job>): seq<TurnId> {
    if jobs == [] then []
    else
      var last := jobs[|jobs| - 1];
      RecoverableOf(tasks, jobs[..|jobs| - 1]) + if Recoverable(tasks, last.row) then [last.turn] else []
  }

  // ------------------------------------------------------------ crash points

  /** Where a run stopped: turns finished, calls of the next one closed, and whether its interruption was logged before its row was written. */
  datatype Crash = Crash(finished: nat, closed: nat, flagged: bool)

  ghost predicate CanCrash(codec: Codec, s: Store, jobs: seq<Job>, now: Time, stamp: Stamp, c: Crash) {
    && c.finished <= |jobs|
    && (c.finished == |jobs| ==> c.closed == 0 && !c.flagged)
    && (c.finished < |jobs| ==>
          var calls := OpenCalls(RecoverAll(codec, s, jobs[..c.finished], now, stamp).events, jobs[c.finished].turn);
          c.closed <= |calls| && (c.flagged ==> c.closed == |calls|))
  }

  ghost function PartlyClosed(
    codec: Codec, events: Events, turn: TurnId, row: Turn, closed: nat, flagged: bool, stamp: Stamp): Events
    requires closed <= |OpenCalls(events, turn)|
  {
    var before := Closed(codec, events, turn, row, OpenCalls(events, turn), closed, stamp);
    if flagged then Logged(before, InterruptDraft(turn, row), stamp) else before
  }

  /** The store a run leaves that stops at `c`. */
  ghost function CrashedAt(codec: Codec, s: Store, jobs: seq<Job>, now: Time, stamp: Stamp, c: Crash): Store
    requires CanCrash(codec, s, jobs, now, stamp, c)
  {
    var before := RecoverAll(codec, s, jobs[..c.finished], now, stamp);
    if c.finished == |jobs| then before
    else
      var job := jobs[c.finished];
      before.(events := PartlyClosed(codec, before.events, job.turn, job.row, c.closed, c.flagged, stamp))
  }

  // ------------------------------------------------------------- transaction

  /** `SELECT ... ORDER BY t.created_at, t.id` over the stale turns. */
  method SelectStale(tasks: Tasks, turns: Turns) returns (jobs: seq<Job>)
    ensures StaleJobs(tasks, turns, jobs)
  {
    var rest := set t | t in turns && Stale(tasks, turns[t]);
    jobs := [];
    while rest != {}
      invariant rest <= turns.Keys
      invariant forall job :: (job in jobs || (job.turn in rest && job.row == turns[job.turn])) <==> IsStaleJob(tasks, turns, job)
      invariant forall job :: job in jobs ==> job.turn !in rest
      invariant forall i, j | 0 <= i < j < |jobs| :: JobBefore(jobs[i], jobs[j])
      invariant forall i, t | 0 <= i < |jobs| && t in rest :: JobBefore(jobs[i], Job(t, turns[t]))
      decreases rest
    {
      OldestExists(turns, rest);
      var t :| OldestOf(turns, rest, t);
      rest := rest - {t};
      jobs := jobs + [Job(t, turns[t])];
    }
  }

  predicate OldestOf(turns: Turns, ids: set<TurnId>, t: TurnId)
    requires ids <= turns.Keys
  {
    t in ids && forall other | other in ids && other != t :: JobBefore(Job(t, turns[t]), Job(other, turns[other]))
  }

  lemma JobOrder(a: Job, b: Job, c: Job)
    ensures a.turn != b.turn ==> JobBefore(a, b) || JobBefore(b, a)
    ensures JobBefore(a, b) && JobBefore(b, c) ==> JobBefore(a, c)
  {
  }

  lemma OldestExists(turns: Turns, ids: set<TurnId>)
    requires ids != {} && ids <= turns.Keys
    ensures exists t :: OldestOf(turns, ids, t)
  {
    var some :| some in ids;
    if ids == {some} {
      assert OldestOf(turns, ids, some);
    } else {
      OldestExists(turns, ids - {some});
      var t :| OldestOf(turns, ids - {some}, t);
      hide JobBefore;
      var a, b := Job(some, turns[some]), Job(t, turns[t]);
      JobOrder(a, b, b);
      var least := if JobBefore(a, b) then some else t;
      forall other | other in ids && other != least ensures JobBefore(Job(least, turns[least]), Job(other, turns[other])) {
        JobOrder(a, b, Job(other, turns[other]));
      }
      assert OldestOf(turns, ids, least);
    }
  }

  /** The scan over the events of one turn. */
  method ScanTurn(events: Events) returns (calls: Events, completed: set<string>)
    ensures Scan(calls, completed) == ScanOf(events)
  {
    calls, completed := [], {};
    assert events[..0] == [];
    for i := 0 to |events|
      invariant Scan(calls, completed) == ScanOf(events[..i])
    {
      var event := events[i];
      assert events[..i + 1][..i] == events[..i];
      var id := CallIdOf(event);
      if id == "" { continue; }
      if event.kind.ToolCall? {
        if id !in KnownIds(calls) { calls := calls + [event]; }
      } else if event.kind.ToolResult? {
        if id in KnownIds(calls) { completed := completed + {id}; }
      }
    }
    assert events[..|events|] == events;
  }

  /** The calls without a result, from the scan. */
  method SelectOpen(calls: Events, completed: set<string>) returns (open: Events)
    ensures open == StillOpen(calls, completed)
  {
    open := [];
    for i := 0 to |calls|
      invariant open + StillOpen(calls[i..], completed) == StillOpen(calls, completed)
    {
      assert calls[i..][0] == calls[i] && calls[i..][1..] == calls[i + 1..];
      if CallIdOf(calls[i]) !in completed { open := open + [calls[i]]; }
    }
  }

  /** The loop body of the second phase, for one turn, up to the status update. */
  method CloseTurn(codec: Codec, db: Database, job: Job, quota: nat, stamp: Stamp)
    returns (ok: bool, ghost closed: nat, ghost flagged: bool)
    requires job.turn in db.turns && db.turns[job.turn].conversation == job.row.conversation
    requires job.row.task == db.turns[job.turn].task
    modifies db`events
    ensures closed <= |OpenCalls(old(db.events), job.turn)| && (flagged ==> closed == |OpenCalls(old(db.events), job.turn)|)
    ensures db.events == PartlyClosed(codec, old(db.events), job.turn, job.row, closed, flagged, stamp)
    ensures ok ==> flagged
  {
    ghost var before := db.events;
    var evs := OfTurn(db.events, job.turn);
    var calls, completed := ScanTurn(evs);
    var open := SelectOpen(calls, completed);
    assert open == OpenCalls(before, job.turn);
    hide OpenCalls, ScanOf, StillOpen, OfTurn, Logged, ResultDraft, InterruptDraft, Closed, PartlyClosed;
    closed, flagged := 0, false;
    ClosedUnfold(codec, before, job.turn, job.row, open, stamp);
    InterruptDraftFits(job.turn, job.row);
    for i := 0 to |open|
      invariant closed == i && db.turns == old(db.turns)
      invariant db.events == Closed(codec, before, job.turn, job.row, open, i, stamp)
    {
      ResultDraftFits(codec, job.turn, job.row, open[i]);
      ok := LogOnce(db, ResultDraft(codec, job.turn, job.row, open[i]), quota, stamp);
      if !ok { return false, i, false; }
      closed := i + 1;
    }
    ok := LogOnce(db, InterruptDraft(job.turn, job.row), quota, stamp);
    flagged := ok;
  }

  lemma ClosedUnfold(codec: Codec, events: Events, turn: TurnId, row: Turn, calls: Events, stamp: Stamp)
    ensures Closed(codec, events, turn, row, calls, 0, stamp) == events
    ensures forall n | 0 <= n < |calls| ::
      Closed(codec, events, turn, row, calls, n + 1, stamp)
      == Logged(Closed(codec, events, turn, row, calls, n, stamp), ResultDraft(codec, turn, row, calls[n]), stamp)
    ensures calls == OpenCalls(events, turn) ==>
      && (forall n | 0 <= n <= |calls| ::
            PartlyClosed(codec, events, turn, row, n, false, stamp) == Closed(codec, events, turn, row, calls, n, stamp))
      && PartlyClosed(codec, events, turn, row, |calls|, true, stamp)
         == Logged(Closed(codec, events, turn, row, calls, |calls|, stamp), InterruptDraft(turn, row), stamp)
  {
    hide Logged, ResultDraft, InterruptDraft, OpenCalls;
  }

  lemma InterruptDraftFits(turn: TurnId, row: Turn)
    ensures var d := InterruptDraft(turn, row);
      d.key.Some? && d.turn == turn && d.conversation == row.conversation && d.task == row.task
  {
  }

  lemma ResultDraftFits(codec: Codec, turn: TurnId, row: Turn, call: Event)
    ensures var d := ResultDraft(codec, turn, row, call);
      d.key.Some? && d.turn == turn && d.conversation == row.conversation && d.task == row.task
  {
  }

  /**
    The second phase of `recover_interrupted`.  Every append is a commit of its
    own; when the event quota stops one, the run ends like a crash at that point.
   */
  method RecoverStaleTurns(codec: Codec, db: Database, now: Time, quota: nat, stamp: Stamp)
    returns (ok: bool, recovered: seq<TurnId>, ghost jobs: seq<Job>, ghost crash: Crash)
    modifies db`turns, db`events
    ensures StaleJobs(db.tasks, old(db.turns), jobs)
    ensures ok ==>
      && Store(db.turns, db.events) == RecoverAll(codec, Store(old(db.turns), old(db.events)), jobs, now, stamp)
      && recovered == RecoverableOf(db.tasks, jobs)
    ensures !ok ==>
      && CanCrash(codec, Store(old(db.turns), old(db.events)), jobs, now, stamp, crash)
      && Store(db.turns, db.events) == CrashedAt(codec, Store(old(db.turns), old(db.events)), jobs, now, stamp, crash)
  {
    ghost var start := Store(db.turns, db.events);
    var list := SelectStale(db.tasks, db.turns);
    jobs, recovered, crash := list, [], Crash(0, 0, false);
    hide OpenCalls, PartlyClosed, RecoverTurn, Recoverable, StaleJobs, InterruptedTurn, ClosedTurn;
    for k := 0 to |list|
      invariant StaleJobs(db.tasks, start.turns, list)
      invariant Store(db.turns, db.events) == RecoverAll(codec, start, list[..k], now, stamp)
      invariant recovered == RecoverableOf(db.tasks, list[..k])
    {
      var job := list[k];
      JobRowIsCurrent(codec, db.tasks, start, list, k, now, stamp);
      ghost var before := Store(db.turns, db.events);
      var done, closed, flagged := CloseTurn(codec, db, job, quota, stamp);
      if !done {
        crash := Crash(k, closed, flagged);
        return false, recovered, jobs, crash;
      }
      FlaggedIsClosed(codec, before.events, job, closed, stamp);
      db.turns := db.turns[job.turn := InterruptedTurn(db.turns[job.turn], job.row, now)];
      assert list[..k + 1][..k] == list[..k];
      RecoverTurnIs(codec, before, job, now, stamp);
      if Recoverable(db.tasks, job.row) { recovered := recovered + [job.turn]; }
    }
    assert list[..|list|] == list;
    ok := true;
  }

  lemma FlaggedIsClosed(codec: Codec, events: Events, job: Job, closed: nat, stamp: Stamp)
    requires closed == |OpenCalls(events, job.turn)|
    ensures PartlyClosed(codec, events, job.turn, job.row, closed, true, stamp) == ClosedTurn(codec, events, job.turn, job.row, stamp)
  {
    hide OpenCalls, Closed, Logged;
  }

  lemma RecoverTurnIs(codec: Codec, s: Store, job: Job, now: Time, stamp: Stamp)
    requires job.turn in s.turns
    ensures RecoverTurn(codec, s, job, now, stamp)
      == Store(s.turns[job.turn := InterruptedTurn(s.turns[job.turn], job.row, now)], ClosedTurn(codec, s.events, job.turn, job.row, stamp))
  {
    hide ClosedTurn, InterruptedTurn;
  }

  /** The row of the next job is still the one that was selected. */
  lemma JobRowIsCurrent(codec: Codec, tasks: Tasks, s: Store, jobs: seq<Job>, k: nat, now: Time, stamp: Stamp)
    requires StaleJobs(tasks, s.turns, jobs) && k < |jobs|
    ensures var turns := RecoverAll(codec, s, jobs[..k], now, stamp).turns;
      jobs[k].turn in turns && turns[jobs[k].turn] == jobs[k].row
  {
    hide RecoverAll, JobBefore;
    JobsLeft(codec, tasks, s, jobs, k, now, stamp);
    assert jobs[k..][0] == jobs[k];
    assert jobs[k] in jobs[k..];
  }

  // ------------------------------------------------ what one append changes

  lemma OfTurnAppend(events: Events, e: Event, turn: TurnId)
    ensures OfTurn(events + [e], turn) == OfTurn(events, turn) + if e.turn == turn then [e] else []
  {
    assert (events + [e])[..|events|] == events;
  }

  lemma {:induction false} OfTurnMembers(events: Events, turn: TurnId)
    ensures forall e :: e in OfTurn(events, turn) <==> e in events && e.turn == turn
  {
    if events != [] {
      OfTurnMembers(events[..|events| - 1], turn);
      assert events == events[..|events| - 1] + [events[|events| - 1]];
    }
  }

  lemma ScanAppend(events: Events, e: Event)
    ensures ScanOf(events + [e]) == ScanStep(ScanOf(events), e)
  {
    assert (events + [e])[..|events|] == events;
  }

  /** An event of another turn, or one without a call id, leaves the scan of a turn alone. */
  lemma OtherEventKeepsScan(events: Events, e: Event, turn: TurnId)
    requires e.turn != turn || CallIdOf(e) == ""
    ensures ScanOf(OfTurn(events + [e], turn)) == ScanOf(OfTurn(events, turn))
  {
    OfTurnAppend(events, e, turn);
    hide ScanOf, OfTurn, CallIdOf;
    if e.turn == turn { ScanAppend(OfTurn(events, turn), e); }
    else { assert OfTurn(events, turn) + [] == OfTurn(events, turn); }
  }

  ghost predicate DistinctCalls(calls: Events) {
    && (forall i, j | 0 <= i < j < |calls| :: CallIdOf(calls[i]) != CallIdOf(calls[j]))
    && (forall e | e in calls :: CallIdOf(e) != "")
  }

  lemma {:induction false} ScanDistinct(events: Events)
    ensures DistinctCalls(ScanOf(events).calls)
    ensures ScanOf(events).completed <= KnownIds(ScanOf(events).calls)
  {
    if events != [] {
      ScanDistinct(events[..|events| - 1]);
      StepDistinct(ScanOf(events[..|events| - 1]), events[|events| - 1]);
      hide DistinctCalls, KnownIds, ScanStep;
    }
  }

  lemma StepDistinct(s: Scan, e: Event)
    requires DistinctCalls(s.calls) && s.completed <= KnownIds(s.calls)
    ensures DistinctCalls(ScanStep(s, e).calls) && ScanStep(s, e).completed <= KnownIds(ScanStep(s, e).calls)
  {
    hide CallIdOf;
    var s' := ScanStep(s, e);
    if s'.calls != s.calls {
      forall i | 0 <= i < |s.calls| ensures CallIdOf(s.calls[i]) != CallIdOf(e) {
        assert s.calls[i] in s.calls;
      }
      assert KnownIds(s.calls) <= KnownIds(s'.calls);
    }
  }

  lemma {:induction false} OpenMembers(calls: Events, completed: set<string>)
    ensures forall e | e in StillOpen(calls, completed) :: e in calls && CallIdOf(e) !in completed
  {
    if calls != [] { OpenMembers(calls[1..], completed); }
  }

  lemma {:induction false} OpenWithout(calls: Events, completed: set<string>, id: string)
    requires forall e | e in calls :: CallIdOf(e) != id
    ensures StillOpen(calls, completed + {id}) == StillOpen(calls, completed)
  {
    if calls != [] {
      assert calls[0] in calls;
      OpenWithout(calls[1..], completed, id);
    }
  }

  /** A result for the first open call leaves the others open. */
  lemma {:induction false} OpenDropsFirst(calls: Events, completed: set<string>)
    requires DistinctCalls(calls) && StillOpen(calls, completed) != []
    ensures var open := StillOpen(calls, completed); StillOpen(calls, completed + {CallIdOf(open[0])}) == open[1..]
  {
    hide CallIdOf;
    if CallIdOf(calls[0]) in completed {
      assert DistinctCalls(calls[1..]);
      OpenDropsFirst(calls[1..], completed);
      assert [] + StillOpen(calls[1..], completed) == StillOpen(calls[1..], completed);
    } else {
      var id := CallIdOf(calls[0]);
      forall e | e in calls[1..] ensures CallIdOf(e) != id {
        var k :| 0 <= k < |calls[1..]| && calls[1..][k] == e;
        assert calls[k + 1] == e;
      }
      OpenWithout(calls[1..], completed, id);
      assert ([calls[0]] + StillOpen(calls[1..], completed))[1..] == StillOpen(calls[1..], completed);
    }
  }

  lemma ResultCloses(s: Scan, e: Event)
    requires DistinctCalls(s.calls) && StillOpen(s.calls, s.completed) != []
    requires e.kind.ToolResult? && CallIdOf(e) == CallIdOf(StillOpen(s.calls, s.completed)[0])
    ensures ScanStep(s, e) == s.(completed := s.completed + {CallIdOf(e)})
    ensures StillOpen(s.calls, ScanStep(s, e).completed) == StillOpen(s.calls, s.completed)[1..]
  {
    OpenMembers(s.calls, s.completed);
    var first := StillOpen(s.calls, s.completed)[0];
    assert first in StillOpen(s.calls, s.completed);
    assert CallIdOf(first) in KnownIds(s.calls) && CallIdOf(first) != "";
    OpenDropsFirst(s.calls, s.completed);
  }

  // ----------------------------------------------------- keys tell the truth

  /** A result written by recovery stands behind the call it closes. */
  ghost predicate HonestKeys(events: Events) {
    forall conversation: ConversationId, turn: TurnId, call: string
        | FindKey(events, conversation, RecoveredResult(turn, call)).Some? ::
      call in ScanOf(OfTurn(events, turn)).completed
  }

  lemma CompletedStays(events: Events, e: Event, turn: TurnId)
    ensures ScanOf(OfTurn(events, turn)).completed <= ScanOf(OfTurn(events + [e], turn)).completed
  {
    OfTurnAppend(events, e, turn);
    hide OfTurn, ScanOf, CallIdOf, KnownIds;
    if e.turn == turn { ScanAppend(OfTurn(events, turn), e); }
    else { assert OfTurn(events, turn) + [] == OfTurn(events, turn); }
  }

  lemma HonestOneMore(events: Events, e: Event)
    requires HonestKeys(events)
    requires e.key.Some? && e.key.value.RecoveredResult? ==>
      e.key.value.call in ScanOf(OfTurn(events + [e], e.key.value.turn)).completed
    ensures HonestKeys(events + [e])
  {
    hide FindKey, ScanOf, OfTurn;
    forall conversation: ConversationId, turn: TurnId, call: string
        | FindKey(events + [e], conversation, RecoveredResult(turn, call)).Some?
      ensures call in ScanOf(OfTurn(events + [e], turn)).completed
    {
      FindKeyOneMore(events, e, conversation, RecoveredResult(turn, call));
      CompletedStays(events, e, turn);
    }
  }

  /** No other write touches these keys, so every log that was written from nothing tells the truth. */
  lemma {:induction false} WritesKeepHonest(turns: Turns, writes: seq<Write>)
    requires forall w | w in writes :: w.draft.key.Some? ==> !w.draft.key.value.RecoveredResult?
    ensures HonestKeys(LogOf(turns, writes))
  {
    if writes != [] {
      hide HonestKeys, FindKey, CountIn, MaxSeq;
      var w, before := writes[|writes| - 1], LogOf(turns, writes[..|writes| - 1]);
      assert w in writes;
      WritesKeepHonest(turns, writes[..|writes| - 1]);
      var after := Written(turns, before, w);
      if after != before {
        assert after == before + [after[|after| - 1]];
        HonestOneMore(before, after[|after| - 1]);
      }
    }
  }

  // --------------------------------------------------- closing call by call

  lemma ResultDraftId(codec: Codec, turn: TurnId, row: Turn, call: Event, events: Events, stamp: Stamp)
    ensures var e := Placed(events, ResultDraft(codec, turn, row, call), stamp.id(|events|), stamp.at(|events|));
      e.kind.ToolResult? && e.turn == turn && CallIdOf(e) == CallIdOf(call) && e.key == Some(RecoveredResult(turn, CallIdOf(call)))
  {
    hide MaxSeq;
  }

  /** Closing the first open call: its key was free, and afterwards the other calls are the open ones. */
  lemma CloseFirst(codec: Codec, events: Events, turn: TurnId, row: Turn, stamp: Stamp)
    requires HonestKeys(events) && OpenCalls(events, turn) != []
    ensures var calls := OpenCalls(events, turn);
      var d := ResultDraft(codec, turn, row, calls[0]);
      && Logged(events, d, stamp) == events + [Placed(events, d, stamp.id(|events|), stamp.at(|events|))]
      && HonestKeys(Logged(events, d, stamp)) && OpenCalls(Logged(events, d, stamp), turn) == calls[1..]
  {
    var s := ScanOf(OfTurn(events, turn));
    var call := OpenCalls(events, turn)[0];
    var d := ResultDraft(codec, turn, row, call);
    var e := Placed(events, d, stamp.id(|events|), stamp.at(|events|));
    ScanDistinct(OfTurn(events, turn));
    OpenMembers(s.calls, s.completed);
    assert call in StillOpen(s.calls, s.completed);
    ResultDraftId(codec, turn, row, call, events, stamp);
    hide Placed, CallIdOf, DistinctCalls, StillOpen, ScanStep, FindKey;
    assert FindKey(events, d.conversation, d.key.value).None?;
    OfTurnAppend(events, e, turn);
    ScanAppend(OfTurn(events, turn), e);
    ResultCloses(s, e);
    hide OfTurn, ScanOf;
    HonestOneMore(events, e);
  }

  /** The state in which `n` of the open calls are closed. */
  ghost predicate ClosingAt(codec: Codec, events: Events, turn: TurnId, row: Turn, n: nat, stamp: Stamp) {
    && n <= |OpenCalls(events, turn)|
    && HonestKeys(Closed(codec, events, turn, row, OpenCalls(events, turn), n, stamp))
    && OpenCalls(Closed(codec, events, turn, row, OpenCalls(events, turn), n, stamp), turn) == OpenCalls(events, turn)[n..]
  }

  lemma {:induction false} Closing(codec: Codec, events: Events, turn: TurnId, row: Turn, n: nat, stamp: Stamp)
    requires HonestKeys(events) && n <= |OpenCalls(events, turn)|
    ensures ClosingAt(codec, events, turn, row, n, stamp)
  {
    hide HonestKeys, OpenCalls, Logged, ResultDraft;
    if n > 0 {
      Closing(codec, events, turn, row, n - 1, stamp);
      var calls := OpenCalls(events, turn);
      CloseFirst(codec, Closed(codec, events, turn, row, calls, n - 1, stamp), turn, row, stamp);
      assert calls[n - 1..][0] == calls[n - 1] && calls[n - 1..][1..] == calls[n..];
    }
  }

  lemma InterruptKeeps(events: Events, turn: TurnId, row: Turn, stamp: Stamp)
    requires HonestKeys(events)
    ensures HonestKeys(Logged(events, InterruptDraft(turn, row), stamp))
    ensures OpenCalls(Logged(events, InterruptDraft(turn, row), stamp), turn) == OpenCalls(events, turn)
    ensures FindKey(Logged(events, InterruptDraft(turn, row), stamp), row.conversation, RecoveredInterruption(turn)).Some?
  {
    var d := InterruptDraft(turn, row);
    var e := Placed(events, d, stamp.id(|events|), stamp.at(|events|));
    assert CallIdOf(e) == "" && e.key == Some(RecoveredInterruption(turn)) && e.conversation == row.conversation by { hide MaxSeq; }
    hide Placed, CallIdOf, FindKey, ScanOf, OfTurn;
    OtherEventKeepsScan(events, e, turn);
    HonestOneMore(events, e);
    FindKeyOneMore(events, e, row.conversation, RecoveredInterruption(turn));
  }

  /** Recovering a turn leaves none of its calls open. */
  lemma TurnIsClosed(codec: Codec, events: Events, turn: TurnId, row: Turn, stamp: Stamp)
    requires HonestKeys(events)
    ensures HonestKeys(ClosedTurn(codec, events, turn, row, stamp))
    ensures OpenCalls(ClosedTurn(codec, events, turn, row, stamp), turn) == []
  {
    hide HonestKeys, OpenCalls, Logged;
    var n := |OpenCalls(events, turn)|;
    Closing(codec, events, turn, row, n, stamp);
    InterruptKeeps(Closed(codec, events, turn, row, OpenCalls(events, turn), n, stamp), turn, row, stamp);
  }

  // ----------------------------------------- equal up to identities and times

  function Bare(e: Event): Event {
    e.(id := "", createdAt := 0)
  }

  /** The same log, up to event ids and times. */
  ghost predicate Alike(a: Events, b: Events) {
    |a| == |b| && forall i | 0 <= i < |a| :: Bare(a[i]) == Bare(b[i])
  }

  lemma {:induction false} AlikeMax(a: Events, b: Events, conversation: ConversationId)
    requires Alike(a, b)
    ensures MaxSeq(a, conversation) == MaxSeq(b, conversation)
  {
    if a != [] {
      AlikeMax(a[..|a| - 1], b[..|b| - 1], conversation);
      assert Bare(a[|a| - 1]) == Bare(b[|b| - 1]);
    }
  }

  lemma {:induction false} AlikeFind(a: Events, b: Events, conversation: ConversationId, key: EventKey)
    requires Alike(a, b)
    ensures FindKey(a, conversation, key).Some? <==> FindKey(b, conversation, key).Some?
  {
    if a != [] {
      assert Bare(a[0]) == Bare(b[0]);
      AlikeFind(a[1..], b[1..], conversation, key);
    }
  }

  lemma AlikeLogged(a: Events, b: Events, d: Draft, stampA: Stamp, stampB: Stamp)
    requires Alike(a, b)
    ensures Alike(Logged(a, d, stampA), Logged(b, d, stampB))
  {
    if d.key.Some? { AlikeFind(a, b, d.conversation, d.key.value); }
    AlikeMax(a, b, d.conversation);
    hide FindKey, MaxSeq;
  }

  lemma {:induction false} AlikeOfTurn(a: Events, b: Events, turn: TurnId)
    requires Alike(a, b)
    ensures Alike(OfTurn(a, turn), OfTurn(b, turn))
  {
    if a != [] {
      AlikeOfTurn(a[..|a| - 1], b[..|b| - 1], turn);
      assert Bare(a[|a| - 1]) == Bare(b[|b| - 1]);
    }
  }

  lemma AlikeIds(a: Events, b: Events)
    requires Alike(a, b)
    ensures KnownIds(a) == KnownIds(b)
  {
    hide CallIdOf;
    forall i | 0 <= i < |a| ensures CallIdOf(a[i]) == CallIdOf(b[i]) { SameCallId(a[i], b[i]); }
    forall e | e in a ensures CallIdOf(e) in KnownIds(b) {
      var i :| 0 <= i < |a| && a[i] == e;
      assert b[i] in b;
    }
    forall e | e in b ensures CallIdOf(e) in KnownIds(a) {
      var i :| 0 <= i < |b| && b[i] == e;
      assert a[i] in a;
    }
  }

  lemma SameCallId(a: Event, b: Event)
    requires Bare(a) == Bare(b)
    ensures CallIdOf(a) == CallIdOf(b) && a.kind == b.kind && a.payload == b.payload
  {
    assert a.payload == Bare(a).payload && b.payload == Bare(b).payload;
    assert a.kind == Bare(a).kind && b.kind == Bare(b).kind;
  }

  ghost predicate AlikeScans(a: Scan, b: Scan) {
    Alike(a.calls, b.calls) && a.completed == b.completed
  }

  lemma AlikeStep(a: Scan, b: Scan, x: Event, y: Event)
    requires AlikeScans(a, b) && Bare(x) == Bare(y)
    ensures AlikeScans(ScanStep(a, x), ScanStep(b, y))
  {
    AlikeIds(a.calls, b.calls);
    SameCallId(x, y);
    hide CallIdOf, KnownIds;
  }

  lemma {:induction false} AlikeScanOf(a: Events, b: Events)
    requires Alike(a, b)
    ensures AlikeScans(ScanOf(a), ScanOf(b))
  {
    if a != [] {
      AlikeScanOf(a[..|a| - 1], b[..|b| - 1]);
      assert Bare(a[|a| - 1]) == Bare(b[|b| - 1]);
      AlikeStep(ScanOf(a[..|a| - 1]), ScanOf(b[..|b| - 1]), a[|a| - 1], b[|b| - 1]);
      hide ScanStep, AlikeScans, Bare;
    }
  }

  lemma {:induction false} AlikeOpen(a: Events, b: Events, completed: set<string>)
    requires Alike(a, b)
    ensures Alike(StillOpen(a, completed), StillOpen(b, completed))
  {
    if a != [] {
      SameCallId(a[0], b[0]);
      AlikeOpen(a[1..], b[1..], completed);
      hide CallIdOf;
    }
  }

  lemma AlikeOpenCalls(a: Events, b: Events, turn: TurnId)
    requires Alike(a, b)
    ensures Alike(OpenCalls(a, turn), OpenCalls(b, turn))
  {
    hide Alike, OfTurn, ScanOf, StillOpen;
    AlikeOfTurn(a, b, turn);
    AlikeScanOf(OfTurn(a, turn), OfTurn(b, turn));
    var s := ScanOf(OfTurn(a, turn));
    AlikeOpen(s.calls, ScanOf(OfTurn(b, turn)).calls, s.completed);
  }

  lemma {:induction false} AlikeClosed(
    codec: Codec, a: Events, b: Events, turn: TurnId, row: Turn, callsA: Events, callsB: Events, n: nat, stampA: Stamp, stampB: Stamp)
    requires Alike(a, b) && Alike(callsA, callsB) && n <= |callsA|
    ensures n <= |callsB|
    ensures Alike(Closed(codec, a, turn, row, callsA, n, stampA), Closed(codec, b, turn, row, callsB, n, stampB))
  {
    if n > 0 {
      AlikeClosed(codec, a, b, turn, row, callsA, callsB, n - 1, stampA, stampB);
      SameDraft(codec, turn, row, callsA[n - 1], callsB[n - 1]);
      hide ResultDraft, Logged, Bare;
      AlikeLogged(Closed(codec, a, turn, row, callsA, n - 1, stampA), Closed(codec, b, turn, row, callsB, n - 1, stampB),
                  ResultDraft(codec, turn, row, callsA[n - 1]), stampA, stampB);
    }
  }

  lemma SameDraft(codec: Codec, turn: TurnId, row: Turn, a: Event, b: Event)
    requires Bare(a) == Bare(b)
    ensures ResultDraft(codec, turn, row, a) == ResultDraft(codec, turn, row, b)
  {
    SameCallId(a, b);
  }

  lemma AlikeClosedTurn(codec: Codec, a: Events, b: Events, turn: TurnId, row: Turn, stampA: Stamp, stampB: Stamp)
    requires Alike(a, b)
    ensures Alike(ClosedTurn(codec, a, turn, row, stampA), ClosedTurn(codec, b, turn, row, stampB))
  {
    AlikeOpenCalls(a, b, turn);
    var callsA, callsB := OpenCalls(a, turn), OpenCalls(b, turn);
    hide OpenCalls, InterruptDraft, Logged, Closed, Bare;
    AlikeClosed(codec, a, b, turn, row, callsA, callsB, |callsA|, stampA, stampB);
    AlikeLogged(Closed(codec, a, turn, row, callsA, |callsA|, stampA), Closed(codec, b, turn, row, callsB, |callsB|, stampB),
                InterruptDraft(turn, row), stampA, stampB);
  }

  lemma AlikeSelf(a: Events)
    ensures Alike(a, a)
  {
  }

  // ------------------------------------------------------------- one crash

  lemma {:induction false} RestOfClosed(codec: Codec, events: Events, turn: TurnId, row: Turn, calls: Events, m: nat, n: nat, stamp: Stamp)
    requires m <= n <= |calls|
    ensures Closed(codec, Closed(codec, events, turn, row, calls, m, stamp), turn, row, calls[m..], n - m, stamp)
         == Closed(codec, events, turn, row, calls, n, stamp)
    decreases n
  {
    if m < n {
      RestOfClosed(codec, events, turn, row, calls, m, n - 1, stamp);
      assert calls[m..][n - 1 - m] == calls[n - 1];
      hide Logged, ResultDraft;
    }
  }

  lemma ClosedTurnMeans(codec: Codec, events: Events, turn: TurnId, row: Turn, calls: Events, stamp: Stamp)
    requires calls == OpenCalls(events, turn)
    ensures ClosedTurn(codec, events, turn, row, stamp)
         == Logged(Closed(codec, events, turn, row, calls, |calls|, stamp), InterruptDraft(turn, row), stamp)
  {
    hide *;
    ClosedTurnIs(codec, events, turn, row, stamp);
  }

  lemma ClosedTurnIs(codec: Codec, events: Events, turn: TurnId, row: Turn, stamp: Stamp)
    ensures var calls := OpenCalls(events, turn);
      ClosedTurn(codec, events, turn, row, stamp)
      == Logged(Closed(codec, events, turn, row, calls, |calls|, stamp), InterruptDraft(turn, row), stamp)
  {
    hide OpenCalls, Closed, Logged, InterruptDraft;
  }

  lemma ClosingMeans(codec: Codec, events: Events, turn: TurnId, row: Turn, n: nat, stamp: Stamp)
    requires HonestKeys(events) && n <= |OpenCalls(events, turn)|
    ensures var calls := OpenCalls(events, turn); var closed := Closed(codec, events, turn, row, calls, n, stamp);
      HonestKeys(closed) && OpenCalls(closed, turn) == calls[n..]
  {
    Closing(codec, events, turn, row, n, stamp);
    hide HonestKeys, OpenCalls, Closed;
  }

  /** After the last commit but the row's, another run finds nothing to write. */
  lemma FlaggedFinishes(codec: Codec, events: Events, turn: TurnId, row: Turn, stamp: Stamp, stamp': Stamp)
    requires HonestKeys(events)
    ensures var done := ClosedTurn(codec, events, turn, row, stamp);
      HonestKeys(done) && ClosedTurn(codec, done, turn, row, stamp') == done
  {
    hide *;
    var calls := OpenCalls(events, turn);
    var closed := Closed(codec, events, turn, row, calls, |calls|, stamp);
    var done := ClosedTurn(codec, events, turn, row, stamp);
    ClosingMeans(codec, events, turn, row, |calls|, stamp);
    ClosedTurnMeans(codec, events, turn, row, calls, stamp);
    InterruptKeeps(closed, turn, row, stamp);
    assert calls[|calls|..] == [];
    ClosedTurnMeans(codec, done, turn, row, [], stamp');
    ClosedNothing(codec, done, turn, row, stamp');
    AlreadyLogged(done, turn, row, stamp');
  }

  /** After some of the calls were closed, another run closes the others. */
  lemma OpenFinishes(codec: Codec, events: Events, turn: TurnId, row: Turn, closed: nat, stamp: Stamp, stamp': Stamp)
    requires HonestKeys(events) && closed <= |OpenCalls(events, turn)|
    ensures var part := Closed(codec, events, turn, row, OpenCalls(events, turn), closed, stamp);
      && HonestKeys(part)
      && Alike(ClosedTurn(codec, part, turn, row, stamp'), ClosedTurn(codec, events, turn, row, stamp))
  {
    hide *;
    var calls := OpenCalls(events, turn);
    var part := Closed(codec, events, turn, row, calls, closed, stamp);
    var left := calls[closed..];
    ClosingMeans(codec, events, turn, row, closed, stamp);
    ClosedTurnMeans(codec, events, turn, row, calls, stamp);
    ClosedTurnMeans(codec, part, turn, row, left, stamp');
    RestOfClosed(codec, events, turn, row, calls, closed, |calls|, stamp);
    AlikeSelf(part);
    AlikeSelf(left);
    AlikeClosed(codec, part, part, turn, row, left, left, |left|, stamp', stamp);
    AlikeLogged(Closed(codec, part, turn, row, left, |left|, stamp'),
                Closed(codec, events, turn, row, calls, |calls|, stamp), InterruptDraft(turn, row), stamp', stamp);
  }

  /** A turn that was only partly recovered ends up as if nothing had happened. */
  lemma PartFinishes(
    codec: Codec, events: Events, turn: TurnId, row: Turn, closed: nat, flagged: bool, stamp: Stamp, stamp': Stamp)
    requires HonestKeys(events) && closed <= |OpenCalls(events, turn)|
    requires flagged ==> closed == |OpenCalls(events, turn)|
    ensures var part := PartlyClosed(codec, events, turn, row, closed, flagged, stamp);
      && HonestKeys(part)
      && Alike(ClosedTurn(codec, part, turn, row, stamp'), ClosedTurn(codec, events, turn, row, stamp))
  {
    hide HonestKeys, OpenCalls, Logged, Closed, InterruptDraft, Alike;
    if flagged {
      FlaggedFinishes(codec, events, turn, row, stamp, stamp');
      AlikeSelf(ClosedTurn(codec, events, turn, row, stamp));
    } else {
      OpenFinishes(codec, events, turn, row, closed, stamp, stamp');
    }
  }

  lemma ClosedNothing(codec: Codec, events: Events, turn: TurnId, row: Turn, stamp: Stamp)
    ensures Closed(codec, events, turn, row, [], 0, stamp) == events
  {
  }

  lemma AlreadyLogged(events: Events, turn: TurnId, row: Turn, stamp: Stamp)
    requires FindKey(events, row.conversation, RecoveredInterruption(turn)).Some?
    ensures Logged(events, InterruptDraft(turn, row), stamp) == events
  {
    hide FindKey;
  }

  // ------------------------------------------------------------ a whole run

  lemma {:induction false} RecoverAllAppend(codec: Codec, s: Store, a: seq<Job>, b: seq<Job>, now: Time, stamp: Stamp)
    ensures RecoverAll(codec, s, a + b, now, stamp) == RecoverAll(codec, RecoverAll(codec, s, a, now, stamp), b, now, stamp)
    decreases |b|
  {
    if b == [] {
      assert a + b == a;
    } else {
      RecoverAllAppend(codec, s, a, b[..|b| - 1], now, stamp);
      assert (a + b)[..|a + b| - 1] == a + b[..|b| - 1];
      hide RecoverTurn;
    }
  }

  lemma {:induction false} RunKeepsHonest(codec: Codec, s: Store, jobs: seq<Job>, now: Time, stamp: Stamp)
    requires HonestKeys(s.events)
    ensures HonestKeys(RecoverAll(codec, s, jobs, now, stamp).events)
  {
    if jobs != [] {
      hide HonestKeys, OpenCalls, ClosedTurn;
      var job := jobs[|jobs| - 1];
      RunKeepsHonest(codec, s, jobs[..|jobs| - 1], now, stamp);
      TurnIsClosed(codec, RecoverAll(codec, s, jobs[..|jobs| - 1], now, stamp).events, job.turn, job.row, stamp);
    }
  }

  function BareTurn(t: Turn): Turn {
    t.(finishedAt := None)
  }

  /** The same turns and log, up to ids and times. */
  ghost predicate AlikeStores(a: Store, b: Store) {
    && a.turns.Keys == b.turns.Keys
    && (forall t | t in a.turns :: BareTurn(a.turns[t]) == BareTurn(b.turns[t]))
    && Alike(a.events, b.events)
  }

  lemma AlikeRecoverTurn(codec: Codec, a: Store, b: Store, job: Job, nowA: Time, nowB: Time, stampA: Stamp, stampB: Stamp)
    requires AlikeStores(a, b)
    ensures AlikeStores(RecoverTurn(codec, a, job, nowA, stampA), RecoverTurn(codec, b, job, nowB, stampB))
  {
    AlikeClosedTurn(codec, a.events, b.events, job.turn, job.row, stampA, stampB);
    hide Alike, ClosedTurn, LostText;
  }

  lemma {:induction false} AlikeRuns(codec: Codec, a: Store, b: Store, jobs: seq<Job>, nowA: Time, nowB: Time, stampA: Stamp, stampB: Stamp)
    requires AlikeStores(a, b)
    ensures AlikeStores(RecoverAll(codec, a, jobs, nowA, stampA), RecoverAll(codec, b, jobs, nowB, stampB))
  {
    if jobs != [] {
      AlikeRuns(codec, a, b, jobs[..|jobs| - 1], nowA, nowB, stampA, stampB);
      hide AlikeStores, RecoverTurn;
      AlikeRecoverTurn(codec, RecoverAll(codec, a, jobs[..|jobs| - 1], nowA, stampA), RecoverAll(codec, b, jobs[..|jobs| - 1], nowB, stampB),
                       jobs[|jobs| - 1], nowA, nowB, stampA, stampB);
    }
  }

  /** Which turns a run has touched: those of its jobs are interrupted, the others are as they were. */
  lemma {:induction false} RunTurns(codec: Codec, s: Store, jobs: seq<Job>, now: Time, stamp: Stamp)
    ensures var s' := RecoverAll(codec, s, jobs, now, stamp);
      && s'.turns.Keys == s.turns.Keys
      && forall t | t in s.turns ::
           if exists job :: job in jobs && job.turn == t then s'.turns[t].status.Interrupted? else s'.turns[t] == s.turns[t]
  {
    if jobs != [] {
      var init, last := jobs[..|jobs| - 1], jobs[|jobs| - 1];
      RunTurns(codec, s, init, now, stamp);
      TurnStep(codec, RecoverAll(codec, s, init, now, stamp), last, now, stamp);
      hide RecoverTurn;
      assert forall job :: job in jobs <==> job in init || job == last;
    }
  }

  lemma TurnStep(codec: Codec, s: Store, job: Job, now: Time, stamp: Stamp)
    ensures var s' := RecoverTurn(codec, s, job, now, stamp);
      && s'.turns.Keys == s.turns.Keys
      && forall t | t in s.turns :: if t == job.turn then s'.turns[t].status.Interrupted? else s'.turns[t] == s.turns[t]
  {
    hide ClosedTurn, LostText;
  }

  /** The jobs left after the first `k` are done are exactly the others, in the same order. */
  lemma JobsLeft(codec: Codec, tasks: Tasks, s: Store, jobs: seq<Job>, k: nat, now: Time, stamp: Stamp)
    requires StaleJobs(tasks, s.turns, jobs) && k <= |jobs|
    ensures StaleJobs(tasks, RecoverAll(codec, s, jobs[..k], now, stamp).turns, jobs[k..])
  {
    RunTurns(codec, s, jobs[..k], now, stamp);
    var after := RecoverAll(codec, s, jobs[..k], now, stamp).turns;
    hide RecoverAll, StaleJobs, IsStaleJob, JobBefore;
    forall job ensures job in jobs[k..] <==> IsStaleJob(tasks, after, job) {
      StillStale(tasks, s.turns, after, jobs, k, job);
    }
    LeftInOrder(tasks, s.turns, jobs, k);
    assert StaleJobs(tasks, after, jobs[k..]) by { JobsAreStale(tasks, after, jobs[k..]); }
  }

  lemma JobsAreStale(tasks: Tasks, turns: Turns, jobs: seq<Job>)
    requires forall job :: job in jobs <==> IsStaleJob(tasks, turns, job)
    requires forall i, j | 0 <= i < j < |jobs| :: JobBefore(jobs[i], jobs[j])
    ensures StaleJobs(tasks, turns, jobs)
  {
    hide IsStaleJob, JobBefore;
  }

  lemma LeftInOrder(tasks: Tasks, turns: Turns, jobs: seq<Job>, k: nat)
    requires StaleJobs(tasks, turns, jobs) && k <= |jobs|
    ensures forall i, j | 0 <= i < j < |jobs[k..]| :: JobBefore(jobs[k..][i], jobs[k..][j])
  {
    hide IsStaleJob, JobBefore;
    assert forall i | 0 <= i < |jobs[k..]| :: jobs[k..][i] == jobs[k + i];
  }

  lemma StillStale(tasks: Tasks, turns: Turns, after: Turns, jobs: seq<Job>, k: nat, job: Job)
    requires StaleJobs(tasks, turns, jobs) && k <= |jobs| && after.Keys == turns.Keys
    requires forall t | t in turns ::
      if exists done :: done in jobs[..k] && done.turn == t then after[t].status.Interrupted? else after[t] == turns[t]
    ensures job in jobs[k..] <==> IsStaleJob(tasks, after, job)
  {
    if job in jobs[k..] {
      LeftIsUntouched(tasks, turns, jobs, k, job);
    }
    if IsStaleJob(tasks, after, job) {
      assert job.turn in turns;
      assert after[job.turn] == turns[job.turn];
      assert IsStaleJob(tasks, turns, job);
      assert job in jobs && jobs == jobs[..k] + jobs[k..];
    }
  }

  lemma LeftIsUntouched(tasks: Tasks, turns: Turns, jobs: seq<Job>, k: nat, job: Job)
    requires StaleJobs(tasks, turns, jobs) && k <= |jobs| && job in jobs[k..]
    ensures IsStaleJob(tasks, turns, job) && !exists done :: done in jobs[..k] && done.turn == job.turn
  {
    var j :| 0 <= j < |jobs[k..]| && jobs[k..][j] == job;
    assert jobs[k + j] == job && job in jobs;
    forall done | done in jobs[..k] ensures done.turn != job.turn {
      var i :| 0 <= i < k && jobs[..k][i] == done;
      assert jobs[i] == done && done in jobs;
      assert JobBefore(jobs[i], jobs[k + j]);
      assert IsStaleJob(tasks, turns, done) && IsStaleJob(tasks, turns, job);
    }
  }

  /** The stale turns have only one order. */
  lemma {:induction false} OneOrder(a: seq<Job>, b: seq<Job>)
    requires forall job :: job in a <==> job in b
    requires forall i, j | 0 <= i < j < |a| :: JobBefore(a[i], a[j])
    requires forall i, j | 0 <= i < j < |b| :: JobBefore(b[i], b[j])
    ensures a == b
  {
    assert b == [] || b[0] in a;
    if a != [] {
      assert a[0] in a;
      assert b != [];
      FirstIsSame(a, b);
      TailsShare(a, b);
      OneOrder(a[1..], b[1..]);
      assert a == [a[0]] + a[1..] && b == [b[0]] + b[1..];
    }
  }

  lemma FirstIsSame(a: seq<Job>, b: seq<Job>)
    requires a != [] && b != [] && a[0] in b && b[0] in a
    requires forall i, j | 0 <= i < j < |a| :: JobBefore(a[i], a[j])
    requires forall i, j | 0 <= i < j < |b| :: JobBefore(b[i], b[j])
    ensures a[0] == b[0]
  {
    var i :| 0 <= i < |a| && a[i] == b[0];
    var j :| 0 <= j < |b| && b[j] == a[0];
    assert i > 0 ==> JobBefore(a[0], a[i]);
    assert j > 0 ==> JobBefore(b[0], b[j]);
  }

  lemma TailsShare(a: seq<Job>, b: seq<Job>)
    requires a != [] && b != [] && a[0] == b[0]
    requires forall job :: job in a <==> job in b
    requires forall i, j | 0 <= i < j < |a| :: JobBefore(a[i], a[j])
    requires forall i, j | 0 <= i < j < |b| :: JobBefore(b[i], b[j])
    ensures forall job :: job in a[1..] <==> job in b[1..]
  {
    forall job ensures job in a[1..] <==> job in b[1..] {
      TailMember(a, job);
      TailMember(b, job);
    }
  }

  lemma TailMember(a: seq<Job>, job: Job)
    requires a != [] && forall i, j | 0 <= i < j < |a| :: JobBefore(a[i], a[j])
    ensures job in a[1..] <==> job in a && job != a[0]
  {
    assert a == [a[0]] + a[1..];
    if job in a[1..] {
      var i :| 0 <= i < |a[1..]| && a[1..][i] == job;
      assert JobBefore(a[0], a[i + 1]);
    }
  }

  // -------------------------------------------------------------- restarting

  lemma CrashedTurns(codec: Codec, s: Store, jobs: seq<Job>, now: Time, stamp: Stamp, c: Crash)
    requires CanCrash(codec, s, jobs, now, stamp, c)
    ensures CrashedAt(codec, s, jobs, now, stamp, c).turns == RecoverAll(codec, s, jobs[..c.finished], now, stamp).turns
  {
    hide RecoverAll, PartlyClosed, OpenCalls;
  }

  /** A run that stopped inside one turn, continued with the jobs left, is like a run that did not stop. */
  lemma CrashedThenRest(codec: Codec, s: Store, jobs: seq<Job>, now: Time, stamp: Stamp, c: Crash, now': Time, stamp': Stamp)
    requires HonestKeys(s.events) && CanCrash(codec, s, jobs, now, stamp, c)
    ensures HonestKeys(CrashedAt(codec, s, jobs, now, stamp, c).events)
    ensures AlikeStores(
      RecoverAll(codec, CrashedAt(codec, s, jobs, now, stamp, c), jobs[c.finished..], now', stamp'),
      RecoverAll(codec, RecoverAll(codec, s, jobs[..c.finished], now, stamp), jobs[c.finished..], now, stamp))
  {
    hide HonestKeys, RecoverAll, PartlyClosed, OpenCalls, AlikeStores, ClosedTurn;
    var before := RecoverAll(codec, s, jobs[..c.finished], now, stamp);
    var crashed := CrashedAt(codec, s, jobs, now, stamp, c);
    RunKeepsHonest(codec, s, jobs[..c.finished], now, stamp);
    if c.finished == |jobs| {
      AlikeStoresSelf(before);
      AlikeRuns(codec, before, before, jobs[c.finished..], now', now, stamp', stamp);
    } else {
      var job := jobs[c.finished];
      PartFinishes(codec, before.events, job.turn, job.row, c.closed, c.flagged, stamp, stamp');
      FinishOneThenRest(codec, before, crashed, jobs[c.finished..], now, stamp, now', stamp');
    }
  }

  lemma FinishOneThenRest(codec: Codec, before: Store, crashed: Store, left: seq<Job>, now: Time, stamp: Stamp, now': Time, stamp': Stamp)
    requires left != [] && crashed.turns == before.turns
    requires Alike(ClosedTurn(codec, crashed.events, left[0].turn, left[0].row, stamp'),
                   ClosedTurn(codec, before.events, left[0].turn, left[0].row, stamp))
    ensures AlikeStores(RecoverAll(codec, crashed, left, now', stamp'), RecoverAll(codec, before, left, now, stamp))
  {
    hide *;
    var job := left[0];
    assert left == [job] + left[1..];
    RecoverAllAppend(codec, crashed, [job], left[1..], now', stamp');
    RecoverAllAppend(codec, before, [job], left[1..], now, stamp);
    RecoverOne(codec, crashed, job, now', stamp');
    RecoverOne(codec, before, job, now, stamp);
    OneTurnAlike(codec, before, crashed.events, job, now, now', stamp, stamp');
    AlikeRuns(codec, RecoverTurn(codec, crashed, job, now', stamp'), RecoverTurn(codec, before, job, now, stamp), left[1..], now', now, stamp', stamp);
  }

  lemma AlikeStoresSelf(s: Store)
    ensures AlikeStores(s, s)
  {
  }

  lemma RecoverOne(codec: Codec, s: Store, job: Job, now: Time, stamp: Stamp)
    ensures RecoverAll(codec, s, [job], now, stamp) == RecoverTurn(codec, s, job, now, stamp)
  {
    hide RecoverTurn;
    assert [job][..0] == [];
  }

  lemma OneTurnAlike(codec: Codec, s: Store, part: Events, job: Job, now: Time, now': Time, stamp: Stamp, stamp': Stamp)
    requires Alike(ClosedTurn(codec, part, job.turn, job.row, stamp'), ClosedTurn(codec, s.events, job.turn, job.row, stamp))
    ensures AlikeStores(RecoverTurn(codec, s.(events := part), job, now', stamp'), RecoverTurn(codec, s, job, now, stamp))
  {
    hide ClosedTurn, Alike, LostText;
  }

  /**
    Recovery is restartable: stop it after any of its commits, select the stale
    turns again and run it again, and the turns and the log end up as after one
    uninterrupted run, up to event ids and times.
   */
  lemma Restartable(
    codec: Codec, tasks: Tasks, s: Store, jobs: seq<Job>, now: Time, stamp: Stamp, c: Crash,
    jobs': seq<Job>, now': Time, stamp': Stamp)
    requires HonestKeys(s.events) && StaleJobs(tasks, s.turns, jobs)
    requires CanCrash(codec, s, jobs, now, stamp, c)
    requires StaleJobs(tasks, CrashedAt(codec, s, jobs, now, stamp, c).turns, jobs')
    ensures AlikeStores(
      RecoverAll(codec, CrashedAt(codec, s, jobs, now, stamp, c), jobs', now', stamp'), RecoverAll(codec, s, jobs, now, stamp))
    ensures HonestKeys(CrashedAt(codec, s, jobs, now, stamp, c).events)
  {
    hide *;
    CrashInBounds(codec, s, jobs, now, stamp, c);
    CrashedTurns(codec, s, jobs, now, stamp, c);
    JobsLeft(codec, tasks, s, jobs, c.finished, now, stamp);
    SameJobs(tasks, CrashedAt(codec, s, jobs, now, stamp, c).turns, jobs', jobs[c.finished..]);
    CrashedThenRest(codec, s, jobs, now, stamp, c, now', stamp');
    RecoverAllAppend(codec, s, jobs[..c.finished], jobs[c.finished..], now, stamp);
    assert jobs == jobs[..c.finished] + jobs[c.finished..];
  }

  lemma CrashInBounds(codec: Codec, s: Store, jobs: seq<Job>, now: Time, stamp: Stamp, c: Crash)
    requires CanCrash(codec, s, jobs, now, stamp, c)
    ensures c.finished <= |jobs|
  {
    hide RecoverAll, OpenCalls;
  }

  lemma SameJobs(tasks: Tasks, turns: Turns, a: seq<Job>, b: seq<Job>)
    requires StaleJobs(tasks, turns, a) && StaleJobs(tasks, turns, b)
    ensures a == b
  {
    hide IsStaleJob, JobBefore;
    OneOrder(a, b);
  }

  /** One attempt at recovery: what it selected, its clock and identities, and where it stopped. */
  datatype Attempt = Attempt(jobs: seq<Job>, now: Time, stamp: Stamp, crash: Crash)

  ghost predicate IsAttempt(codec: Codec, tasks: Tasks, s: Store, a: Attempt) {
    StaleJobs(tasks, s.turns, a.jobs) && CanCrash(codec, s, a.jobs, a.now, a.stamp, a.crash)
  }

  ghost function AfterAttempt(codec: Codec, tasks: Tasks, s: Store, a: Attempt): Store
    requires IsAttempt(codec, tasks, s, a)
  {
    CrashedAt(codec, s, a.jobs, a.now, a.stamp, a.crash)
  }

  /** Each attempt starts from what the one before it left. */
  ghost predicate Attempts(codec: Codec, tasks: Tasks, states: seq<Store>, attempts: seq<Attempt>) {
    && |states| == |attempts| + 1
    && forall i | 0 <= i < |attempts| ::
         IsAttempt(codec, tasks, states[i], attempts[i]) && states[i + 1] == AfterAttempt(codec, tasks, states[i], attempts[i])
  }

  lemma AttemptStep(codec: Codec, tasks: Tasks, s: Store, a: Attempt, jobs: seq<Job>, now: Time, stamp: Stamp, jobs': seq<Job>)
    requires HonestKeys(s.events) && IsAttempt(codec, tasks, s, a)
    requires StaleJobs(tasks, s.turns, jobs) && StaleJobs(tasks, AfterAttempt(codec, tasks, s, a).turns, jobs')
    ensures HonestKeys(AfterAttempt(codec, tasks, s, a).events)
    ensures AlikeStores(RecoverAll(codec, AfterAttempt(codec, tasks, s, a), jobs', now, stamp), RecoverAll(codec, s, jobs, now, stamp))
  {
    hide HonestKeys, StaleJobs, AlikeStores, RecoverAll, CrashedAt, CanCrash;
    SameJobs(tasks, s.turns, jobs, a.jobs);
    Restartable(codec, tasks, s, jobs, a.now, a.stamp, a.crash, jobs', now, stamp);
    AlikeStoresSelf(s);
    AlikeRuns(codec, s, s, jobs, a.now, now, a.stamp, stamp);
    AlikeStoresJoin(RecoverAll(codec, AfterAttempt(codec, tasks, s, a), jobs', now, stamp),
                    RecoverAll(codec, s, jobs, a.now, a.stamp), RecoverAll(codec, s, jobs, now, stamp));
  }

  lemma AlikeStoresJoin(a: Store, b: Store, c: Store)
    requires AlikeStores(a, b) && AlikeStores(b, c)
    ensures AlikeStores(a, c)
  {
    hide Bare, BareTurn;
  }

  /** However many attempts crash, and wherever, the first one that gets through leaves what a single undisturbed run would have left. */
  lemma {:induction false} CrashesLeaveNoTrace(
    codec: Codec, tasks: Tasks, states: seq<Store>, attempts: seq<Attempt>,
    first: seq<Job>, last: seq<Job>, now: Time, stamp: Stamp)
    requires Attempts(codec, tasks, states, attempts) && HonestKeys(states[0].events)
    requires StaleJobs(tasks, states[0].turns, first) && StaleJobs(tasks, states[|attempts|].turns, last)
    ensures HonestKeys(states[|attempts|].events)
    ensures AlikeStores(RecoverAll(codec, states[|attempts|], last, now, stamp), RecoverAll(codec, states[0], first, now, stamp))
    decreases |attempts|
  {
    hide HonestKeys, StaleJobs, AlikeStores, RecoverAll, CrashedAt, CanCrash;
    if attempts == [] {
      SameJobs(tasks, states[0].turns, first, last);
      AlikeStoresSelf(RecoverAll(codec, states[0], first, now, stamp));
    } else {
      var n := |attempts| - 1;
      assert IsAttempt(codec, tasks, states[n], attempts[n]) && states[n + 1] == AfterAttempt(codec, tasks, states[n], attempts[n]);
      CrashesLeaveNoTrace(codec, tasks, states[..n + 1], attempts[..n], first, attempts[n].jobs, now, stamp);
      AttemptStep(codec, tasks, states[n], attempts[n], attempts[n].jobs, now, stamp, last);
      AlikeStoresJoin(RecoverAll(codec, states[n + 1], last, now, stamp), RecoverAll(codec, states[n], attempts[n].jobs, now, stamp),
                      RecoverAll(codec, states[0], first, now, stamp));
    }
  }

  // ------------------------------------------------------ what is lost anyway

  /** A run that was not interrupted reports every recoverable turn; after a crash the finished ones are never reported. */
  lemma {:induction false} ReportSplits(tasks: Tasks, jobs: seq<Job>, k: nat)
    requires k <= |jobs|
    ensures RecoverableOf(tasks, jobs) == RecoverableOf(tasks, jobs[..k]) + RecoverableOf(tasks, jobs[k..])
    decreases |jobs|
  {
    if k == |jobs| {
      assert jobs[..k] == jobs && jobs[k..] == [];
    } else {
      var init := jobs[..|jobs| - 1];
      ReportSplits(tasks, init, k);
      assert init[..k] == jobs[..k] && jobs[k..][..|jobs[k..]| - 1] == init[k..];
      hide Recoverable;
    }
  }

  /**
    The log survives a crash, the report does not: the second run reports all
    recoverable turns if and only if none of the turns finished before the crash
    was recoverable.
   */
  lemma ReportSurvivesExactly(
    codec: Codec, tasks: Tasks, s: Store, jobs: seq<Job>, now: Time, stamp: Stamp, c: Crash, jobs': seq<Job>)
    requires StaleJobs(tasks, s.turns, jobs) && CanCrash(codec, s, jobs, now, stamp, c)
    requires StaleJobs(tasks, CrashedAt(codec, s, jobs, now, stamp, c).turns, jobs')
    ensures c.finished <= |jobs|
    ensures RecoverableOf(tasks, jobs') == RecoverableOf(tasks, jobs) <==> RecoverableOf(tasks, jobs[..c.finished]) == []
  {
    hide *;
    CrashInBounds(codec, s, jobs, now, stamp, c);
    CrashedTurns(codec, s, jobs, now, stamp, c);
    JobsLeft(codec, tasks, s, jobs, c.finished, now, stamp);
    SameJobs(tasks, CrashedAt(codec, s, jobs, now, stamp, c).turns, jobs', jobs[c.finished..]);
    ReportSplits(tasks, jobs, c.finished);
    var a, b := RecoverableOf(tasks, jobs[..c.finished]), RecoverableOf(tasks, jobs[c.finished..]);
    if a == [] { assert a + b == b; }
    if a + b == b { assert |a| == 0; }
  }

  // ------------------------------------------------------ every call answered

  ghost predicate ResultAfterFirst(events: Events, id: string) {
    exists i, j :: 0 <= i < j < |events| && events[i].kind.ToolCall? && CallIdOf(events[i]) == id
      && events[j].kind.ToolResult? && CallIdOf(events[j]) == id
  }

  lemma {:induction false} CompletedMeans(events: Events, id: string)
    ensures id in ScanOf(events).completed ==> ResultAfterFirst(events, id)
    ensures id in KnownIds(ScanOf(events).calls) ==> exists i :: 0 <= i < |events| && events[i].kind.ToolCall? && CallIdOf(events[i]) == id
  {
    if events != [] {
      var init, last := events[..|events| - 1], events[|events| - 1];
      CompletedMeans(init, id);
      hide CallIdOf, ScanOf;
      if id in KnownIds(ScanOf(init).calls) {
        var i :| 0 <= i < |init| && init[i].kind.ToolCall? && CallIdOf(init[i]) == id;
        assert events[i] == init[i];
      }
      if ResultAfterFirst(init, id) {
        var i, j :| 0 <= i < j < |init| && init[i].kind.ToolCall? && CallIdOf(init[i]) == id
          && init[j].kind.ToolResult? && CallIdOf(init[j]) == id;
        assert events[i] == init[i] && events[j] == init[j];
      }
      ScanUnfold(events);
    }
  }

  lemma ScanUnfold(events: Events)
    requires events != []
    ensures ScanOf(events) == ScanStep(ScanOf(events[..|events| - 1]), events[|events| - 1])
  {
    hide ScanStep;
  }

  lemma {:induction false} CallsAreKnown(events: Events, i: nat)
    requires i < |events| && events[i].kind.ToolCall? && CallIdOf(events[i]) != ""
    ensures CallIdOf(events[i]) in KnownIds(ScanOf(events).calls)
  {
    var init, last := events[..|events| - 1], events[|events| - 1];
    ScanUnfold(events);
    if i < |init| {
      CallsAreKnown(init, i);
    }
    hide CallIdOf, ScanOf;
  }

  lemma {:induction false} NothingOpen(calls: Events, completed: set<string>)
    requires StillOpen(calls, completed) == []
    ensures KnownIds(calls) <= completed
  {
    hide CallIdOf;
    if calls != [] {
      NothingOpen(calls[1..], completed);
      assert forall e | e in calls :: e == calls[0] || e in calls[1..];
    }
  }

  /** When a turn has no open call, each of its call ids has a result behind a call of that id. */
  lemma ClosedMeansAnswered(events: Events, turn: TurnId, i: nat)
    requires OpenCalls(events, turn) == []
    requires i < |OfTurn(events, turn)| && OfTurn(events, turn)[i].kind.ToolCall? && CallIdOf(OfTurn(events, turn)[i]) != ""
    ensures ResultAfterFirst(OfTurn(events, turn), CallIdOf(OfTurn(events, turn)[i]))
  {
    var evs := OfTurn(events, turn);
    var s := ScanOf(evs);
    CallsAreKnown(evs, i);
    NothingOpen(s.calls, s.completed);
    CompletedMeans(evs, CallIdOf(evs[i]));
    hide ScanOf, OfTurn, CallIdOf, ResultAfterFirst;
  }

  lemma ClosingKeepsClosed(codec: Codec, events: Events, turn: TurnId, row: Turn, other: TurnId, stamp: Stamp)
    requires HonestKeys(events) && OpenCalls(events, other) == []
    ensures OpenCalls(ClosedTurn(codec, events, turn, row, stamp), other) == []
  {
    if other == turn {
      TurnIsClosed(codec, events, turn, row, stamp);
    } else {
      hide OpenCalls, Logged;
      var calls := OpenCalls(events, turn);
      OtherTurnsScan(codec, events, turn, row, calls, |calls|, other, stamp);
      LoggedOther(Closed(codec, events, turn, row, calls, |calls|, stamp), InterruptDraft(turn, row), other, stamp);
    }
  }

  lemma LoggedOther(events: Events, d: Draft, other: TurnId, stamp: Stamp)
    requires d.turn != other
    ensures OpenCalls(Logged(events, d, stamp), other) == OpenCalls(events, other)
  {
    hide FindKey, ScanOf, OfTurn, StillOpen, MaxSeq;
    var e := Placed(events, d, stamp.id(|events|), stamp.at(|events|));
    OtherEventKeepsScan(events, e, other);
  }

  lemma {:induction false} OtherTurnsScan(
    codec: Codec, events: Events, turn: TurnId, row: Turn, calls: Events, n: nat, other: TurnId, stamp: Stamp)
    requires n <= |calls| && turn != other
    ensures OpenCalls(Closed(codec, events, turn, row, calls, n, stamp), other) == OpenCalls(events, other)
  {
    if n > 0 {
      hide OpenCalls, Logged;
      OtherTurnsScan(codec, events, turn, row, calls, n - 1, other, stamp);
      LoggedOther(Closed(codec, events, turn, row, calls, n - 1, stamp), ResultDraft(codec, turn, row, calls[n - 1]), other, stamp);
    }
  }

  /** After a run none of the recovered turns has an open call. */
  lemma {:induction false} RunClosesAll(codec: Codec, s: Store, jobs: seq<Job>, now: Time, stamp: Stamp, job: Job)
    requires HonestKeys(s.events) && job in jobs
    ensures OpenCalls(RecoverAll(codec, s, jobs, now, stamp).events, job.turn) == []
  {
    var init, last := jobs[..|jobs| - 1], jobs[|jobs| - 1];
    assert jobs == init + [last];
    hide HonestKeys, OpenCalls, ClosedTurn;
    var before := RecoverAll(codec, s, init, now, stamp).events;
    RunKeepsHonest(codec, s, init, now, stamp);
    if job == last {
      TurnIsClosed(codec, before, job.turn, job.row, stamp);
    } else {
      RunClosesAll(codec, s, init, now, stamp, job);
      ClosingKeepsClosed(codec, before, last.turn, last.row, job.turn, stamp);
    }
  }
}
