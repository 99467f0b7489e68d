/**
  What crash recovery comes to, told from the log and the tables: which results
  and which terminal event it writes, how the turn and its task stand after the
  log was reconciled, and what the model reads about a call that was lost.
 */
module RecoveryOutcome {
  import opened JsonValue
  import opened Tables
  import opened TaskQueue
  import opened EventStore
  import opened ContextEvents
  import opened ProviderMessages
  import opened Exchanges
  import opened OpenAiTranscript
  import opened CrashRecovery
  import opened RecoveredContext
  import opened RecoveryRestart
  import Reconcile
  import TranscriptContents

  const LOST_CALL := "工具调用因 Agent 服务中断，未完成执行。"

  // --------------------------------------------------------- what is written

  /** A result that tells the model its call was interrupted. */
  ghost predicate TellsLost(e: Event, turn: TurnId, task: Option<TaskId>, id: string) {
    && e.kind.ToolResult? && e.turn == turn && e.task == task && e.visible
    && Get(e.payload, "tool_call_id") == Some(Str(id)) && Get(e.payload, "model_output") == Some(Str(LOST_CALL))
    && Get(e.payload, "ok") == Some(Bool(false)) && Get(e.payload, "interrupted") == Some(Bool(true))
    && Get(e.payload, "error_type") == Some(Str("service_interrupted"))
  }

  /** The terminal event of a turn that recovery ended. */
  ghost predicate EndsTurn(e: Event, turn: TurnId, task: Option<TaskId>) {
    e.kind.TurnInterrupted? && e.turn == turn && e.task == task && !e.visible
  }

  /** Why a turn was lost: it waited for a consent, or it was running. */
  function WhyLost(row: Turn): string {
    if row.status == AwaitingApproval then "Agent 服务重启，等待中的下载确认已失效" else "Agent 服务重启，任务执行已中断"
  }

  ghost predicate SaysWhy(e: Event, row: Turn) {
    && Get(e.payload, "message") == Some(Str(WhyLost(row)))
    && Get(e.payload, "previous_status") == Some(Str(if row.status == AwaitingApproval then "awaiting_approval" else "running"))
  }

  /** The result goes by the name of its call. */
  ghost predicate NamesTool(codec: Codec, e: Event, call: Event) {
    Get(e.payload, "name") == Some(Str(
      match Get(call.payload, "name")
      case Some(Str(name)) => name
      case Some(v) => if Truthy(v) then codec.show(v) else ""
      case None => ""))
  }

  lemma ResultTellsLost(codec: Codec, events: Events, turn: TurnId, row: Turn, call: Event, stamp: Stamp)
    ensures var e := Placed(events, ResultDraft(codec, turn, row, call), stamp.id(|events|), stamp.at(|events|));
      TellsLost(e, turn, row.task, CallIdOf(call)) && NamesTool(codec, e, call)
  {
    var e := Placed(events, ResultDraft(codec, turn, row, call), stamp.id(|events|), stamp.at(|events|));
    hide MaxSeq, CallIdOf;
    assert e.payload == ResultPayload(codec, call);
  }

  lemma InterruptEndsTurn(events: Events, turn: TurnId, row: Turn, stamp: Stamp)
    ensures var e := Placed(events, InterruptDraft(turn, row), stamp.id(|events|), stamp.at(|events|));
      EndsTurn(e, turn, row.task) && SaysWhy(e, row) && e.key == Some(RecoveredInterruption(turn))
  {
    hide MaxSeq;
  }

  /** The log with the first `n` open calls of a turn closed: one result more for each, in their order. */
  lemma {:induction false} ClosedAdds(codec: Codec, events: Events, turn: TurnId, row: Turn, n: nat, stamp: Stamp) returns (more: Events)
    requires HonestKeys(events) && n <= |OpenCalls(events, turn)|
    ensures Closed(codec, events, turn, row, OpenCalls(events, turn), n, stamp) == events + more && |more| == n
    ensures forall k | 0 <= k < n ::
      TellsLost(more[k], turn, row.task, CallIdOf(OpenCalls(events, turn)[k])) && NamesTool(codec, more[k], OpenCalls(events, turn)[k])
      && more[k].key == Some(RecoveredResult(turn, CallIdOf(OpenCalls(events, turn)[k])))
  {
    hide HonestKeys, OpenCalls, Logged, ResultDraft, Placed, TellsLost, NamesTool, CallIdOf;
    var calls := OpenCalls(events, turn);
    if n == 0 {
      more := [];
    } else {
      more := ClosedAdds(codec, events, turn, row, n - 1, stamp);
      var before := Closed(codec, events, turn, row, calls, n - 1, stamp);
      ClosingMeans(codec, events, turn, row, n - 1, stamp);
      assert calls[n - 1..][0] == calls[n - 1];
      CloseFirst(codec, before, turn, row, stamp);
      var e := Placed(before, ResultDraft(codec, turn, row, calls[n - 1]), stamp.id(|before|), stamp.at(|before|));
      ResultTellsLost(codec, before, turn, row, calls[n - 1], stamp);
      ResultDraftId(codec, turn, row, calls[n - 1], before, stamp);
      more := more + [e];
    }
  }

  ghost predicate KeysOf(more: Events, turn: TurnId) {
    forall e | e in more :: e.turn == turn && e.key.Some?
      && (e.key.value == RecoveredInterruption(turn) || (e.key.value.RecoveredResult? && e.key.value.turn == turn))
  }

  /**
    Recovering a turn adds one result for each call that was open, in the order
    of the calls, and then the event that ends the turn, unless an earlier
    attempt wrote that already.  Nothing else is added or changed.
   */
  lemma TurnAdditions(codec: Codec, events: Events, turn: TurnId, row: Turn, stamp: Stamp) returns (more: Events)
    requires HonestKeys(events)
    ensures ClosedTurn(codec, events, turn, row, stamp) == events + more && KeysOf(more, turn)
    ensures var calls := OpenCalls(events, turn);
      && |calls| <= |more|
      && (forall k | 0 <= k < |calls| :: TellsLost(more[k], turn, row.task, CallIdOf(calls[k])) && NamesTool(codec, more[k], calls[k]))
      && (FindKey(events, row.conversation, RecoveredInterruption(turn)).None? ==>
            |more| == |calls| + 1 && EndsTurn(more[|calls|], turn, row.task) && SaysWhy(more[|calls|], row))
      && (FindKey(events, row.conversation, RecoveredInterruption(turn)).Some? ==> |more| == |calls|)
  {
    var calls := OpenCalls(events, turn);
    ClosedTurnIs(codec, events, turn, row, stamp);
    hide HonestKeys, OpenCalls, ClosedTurn, TellsLost, NamesTool, CallIdOf, EndsTurn, SaysWhy;
    var results := ClosedAdds(codec, events, turn, row, |calls|, stamp);
    var closed := events + results;
    FindKeyAppend(events, results, row.conversation, RecoveredInterruption(turn));
    NotThere(results, row.conversation, RecoveredInterruption(turn));
    InterruptEndsTurn(closed, turn, row, stamp);
    InterruptDraftFits(turn, row);
    InterruptKey(turn, row);
    ResultsHaveKeys(results, calls, turn, row);
    hide FindKey, Placed, InterruptDraft, Closed, KeysOf;
    if FindKey(closed, row.conversation, RecoveredInterruption(turn)).Some? {
      more := results;
    } else {
      var e := Placed(closed, InterruptDraft(turn, row), stamp.id(|closed|), stamp.at(|closed|));
      more := results + [e];
      EndKeepsKeys(results, e, turn, row.task);
      assert closed + [e] == events + more;
    }
  }

  lemma EndKeepsKeys(results: Events, e: Event, turn: TurnId, task: Option<TaskId>)
    requires KeysOf(results, turn) && EndsTurn(e, turn, task) && e.key == Some(RecoveredInterruption(turn))
    ensures KeysOf(results + [e], turn)
  {
  }

  lemma InterruptKey(turn: TurnId, row: Turn)
    ensures InterruptDraft(turn, row).key == Some(RecoveredInterruption(turn))
  {
  }

  lemma ResultsHaveKeys(results: Events, calls: Events, turn: TurnId, row: Turn)
    requires |results| == |calls|
    requires forall k | 0 <= k < |calls| :: TellsLost(results[k], turn, row.task, CallIdOf(calls[k]))
    requires forall k | 0 <= k < |calls| :: results[k].key == Some(RecoveredResult(turn, CallIdOf(calls[k])))
    ensures KeysOf(results, turn)
  {
    hide CallIdOf;
    forall e | e in results ensures e.turn == turn && e.key.Some? && e.key.value.RecoveredResult? && e.key.value.turn == turn {
      var k :| 0 <= k < |results| && results[k] == e;
    }
  }

  lemma {:induction false} NotThere(events: Events, conversation: ConversationId, key: EventKey)
    requires forall k | 0 <= k < |events| :: events[k].key != Some(key)
    ensures FindKey(events, conversation, key).None?
  {
    if events != [] { NotThere(events[1..], conversation, key); }
  }

  // ------------------------------------------------------- which calls are open

  /** A call is open when no result with its id stands behind its first event in the turn. */
  lemma OpenExactly(events: Events, turn: TurnId, i: nat)
    requires var evs := OfTurn(events, turn);
      i < |evs| && evs[i].kind.ToolCall? && CallIdOf(evs[i]) != ""
      && forall k | 0 <= k < i && evs[k].kind.ToolCall? :: CallIdOf(evs[k]) != CallIdOf(evs[i])
    ensures var evs := OfTurn(events, turn);
      (exists c :: c in OpenCalls(events, turn) && CallIdOf(c) == CallIdOf(evs[i])) <==>
      forall j | i < j < |evs| && evs[j].kind.ToolResult? :: CallIdOf(evs[j]) != CallIdOf(evs[i])
  {
    var evs := OfTurn(events, turn);
    var s, id := ScanOf(evs), CallIdOf(evs[i]);
    ScanKnows(evs, i, |evs|);
    hide OfTurn, ScanOf, CallIdOf;
    StillOpenIs(s.calls, s.completed, id);
  }

  lemma {:induction false} StillOpenIs(calls: Events, completed: set<string>, id: string)
    ensures (exists c :: c in StillOpen(calls, completed) && CallIdOf(c) == id) <==> id in KnownIds(calls) && id !in completed
  {
    hide CallIdOf;
    if calls != [] {
      StillOpenIs(calls[1..], completed, id);
      assert calls == [calls[0]] + calls[1..];
      var rest := StillOpen(calls[1..], completed);
      if CallIdOf(calls[0]) == id && id !in completed {
        assert calls[0] in StillOpen(calls, completed);
      }
      if c :| c in rest && CallIdOf(c) == id { assert c in StillOpen(calls, completed); }
    }
  }

  /** Past the first event of a call its id is known, and completed once a result with it came. */
  ghost predicate KnownPast(evs: Events, i: nat, n: nat)
    requires i < n <= |evs|
  {
    var s := ScanOf(evs[..n]);
    && CallIdOf(evs[i]) in KnownIds(s.calls)
    && (CallIdOf(evs[i]) in s.completed <==> exists j :: i < j < n && evs[j].kind.ToolResult? && CallIdOf(evs[j]) == CallIdOf(evs[i]))
  }

  lemma {:induction false} ScanKnows(evs: Events, i: nat, n: nat)
    requires i < n <= |evs| && evs[i].kind.ToolCall? && CallIdOf(evs[i]) != ""
    requires forall k | 0 <= k < i && evs[k].kind.ToolCall? :: CallIdOf(evs[k]) != CallIdOf(evs[i])
    ensures KnownPast(evs, i, n)
    ensures n == |evs| ==> evs[..n] == evs
    decreases n
  {
    hide CallIdOf, KnownPast;
    assert evs[..n][..n - 1] == evs[..n - 1] && evs[..n][n - 1] == evs[n - 1];
    ScanUnfold(evs[..n]);
    if n == i + 1 {
      NotYet(evs, i, i);
      FirstKnown(evs, i);
    } else {
      ScanKnows(evs, i, n - 1);
      OneMoreKnown(evs, i, n);
    }
  }

  lemma {:induction false} NotYet(evs: Events, i: nat, n: nat)
    requires i < |evs| && n <= i
    requires forall k | 0 <= k < i && evs[k].kind.ToolCall? :: CallIdOf(evs[k]) != CallIdOf(evs[i])
    ensures CallIdOf(evs[i]) !in KnownIds(ScanOf(evs[..n]).calls) && CallIdOf(evs[i]) !in ScanOf(evs[..n]).completed
  {
    hide CallIdOf, ScanOf;
    if n > 0 {
      NotYet(evs, i, n - 1);
      assert evs[..n][..n - 1] == evs[..n - 1] && evs[..n][n - 1] == evs[n - 1];
      ScanUnfold(evs[..n]);
    } else {
      NothingScanned(evs);
    }
  }

  lemma NothingScanned(evs: Events)
    ensures ScanOf(evs[..0]) == Scan([], {})
  {
    assert evs[..0] == [];
  }

  lemma FirstKnown(evs: Events, i: nat)
    requires i < |evs| && evs[i].kind.ToolCall? && CallIdOf(evs[i]) != ""
    requires CallIdOf(evs[i]) !in KnownIds(ScanOf(evs[..i]).calls) && CallIdOf(evs[i]) !in ScanOf(evs[..i]).completed
    requires ScanOf(evs[..i + 1]) == ScanStep(ScanOf(evs[..i]), evs[i])
    ensures KnownPast(evs, i, i + 1)
  {
    hide CallIdOf, ScanOf;
  }

  lemma OneMoreKnown(evs: Events, i: nat, n: nat)
    requires i + 1 < n <= |evs| && CallIdOf(evs[i]) != "" && KnownPast(evs, i, n - 1)
    requires ScanOf(evs[..n]) == ScanStep(ScanOf(evs[..n - 1]), evs[n - 1])
    ensures KnownPast(evs, i, n)
  {
    hide CallIdOf, ScanOf;
    var e := evs[n - 1];
    if e.kind.ToolResult? && CallIdOf(e) == CallIdOf(evs[i]) { assert i < n - 1 < n; }
  }

  // ------------------------------------------------------- how a turn ends

  ghost predicate LastIsInterrupted(events: Events, turn: TurnId, task: Option<TaskId>) {
    var last := Reconcile.LastTerminal(events, turn);
    last.Some? && last.value.kind.TurnInterrupted? && last.value.task == task
  }

  lemma {:induction false} QuietKeepsLast(events: Events, more: Events, turn: TurnId, task: Option<TaskId>)
    requires LastIsInterrupted(events, turn, task) && forall e | e in more :: e.turn != turn
    ensures LastIsInterrupted(events + more, turn, task)
    decreases |more|
  {
    if more == [] {
      assert events + more == events;
    } else {
      var init, last := more[..|more| - 1], more[|more| - 1];
      assert events + more == (events + init) + [last] && more == init + [last];
      QuietKeepsLast(events, init, turn, task);
      assert ((events + init) + [last])[..|events + init|] == events + init;
      hide LastIsInterrupted;
      LastSkips(events + init, last, turn, task);
    }
  }

  lemma LastSkips(events: Events, e: Event, turn: TurnId, task: Option<TaskId>)
    requires LastIsInterrupted(events, turn, task) && e.turn != turn
    ensures LastIsInterrupted(events + [e], turn, task)
  {
    assert (events + [e])[..|events|] == events;
  }

  lemma LastAdded(events: Events, e: Event, turn: TurnId, task: Option<TaskId>)
    requires EndsTurn(e, turn, task)
    ensures LastIsInterrupted(events + [e], turn, task)
  {
    assert (events + [e])[|events|] == e;
  }

  ghost predicate KeyFree(events: Events, job: Job) {
    FindKey(events, job.row.conversation, RecoveredInterruption(job.turn)).None?
  }

  ghost predicate DistinctTurns(jobs: seq<Job>) {
    forall i, j | 0 <= i < j < |jobs| :: jobs[i].turn != jobs[j].turn
  }

  lemma OthersKeepKeyFree(events: Events, more: Events, turn: TurnId, job: Job)
    requires KeysOf(more, turn) && turn != job.turn && KeyFree(events, job)
    ensures KeyFree(events + more, job)
  {
    forall k | 0 <= k < |more| ensures more[k].key != Some(RecoveredInterruption(job.turn)) { assert more[k] in more; }
    NotThere(more, job.row.conversation, RecoveredInterruption(job.turn));
    FindKeyAppend(events, more, job.row.conversation, RecoveredInterruption(job.turn));
    hide FindKey;
  }

  lemma {:induction false} KeyStaysFree(codec: Codec, s: Store, jobs: seq<Job>, now: Time, stamp: Stamp, job: Job)
    requires HonestKeys(s.events) && KeyFree(s.events, job) && forall done | done in jobs :: done.turn != job.turn
    ensures KeyFree(RecoverAll(codec, s, jobs, now, stamp).events, job)
  {
    hide HonestKeys, KeyFree, ClosedTurn, OpenCalls;
    if jobs != [] {
      var init, last := jobs[..|jobs| - 1], jobs[|jobs| - 1];
      assert jobs == init + [last] && last in jobs;
      KeyStaysFree(codec, s, init, now, stamp, job);
      RunKeepsHonest(codec, s, init, now, stamp);
      var before := RecoverAll(codec, s, init, now, stamp).events;
      var more := TurnAdditions(codec, before, last.turn, last.row, stamp);
      OthersKeepKeyFree(before, more, last.turn, job);
    }
  }

  /** When no attempt was made before, the last terminal event of each recovered turn says it was interrupted. */
  lemma {:induction false} EndsInterrupted(codec: Codec, s: Store, jobs: seq<Job>, now: Time, stamp: Stamp, job: Job)
    requires HonestKeys(s.events) && KeyFree(s.events, job) && job in jobs && DistinctTurns(jobs)
    ensures LastIsInterrupted(RecoverAll(codec, s, jobs, now, stamp).events, job.turn, job.row.task)
  {
    hide HonestKeys, KeyFree, ClosedTurn, OpenCalls, LastIsInterrupted, EndsTurn;
    var init, last := jobs[..|jobs| - 1], jobs[|jobs| - 1];
    assert jobs == init + [last];
    var before := RecoverAll(codec, s, init, now, stamp).events;
    RunKeepsHonest(codec, s, init, now, stamp);
    var more := TurnAdditions(codec, before, last.turn, last.row, stamp);
    if job == last {
      OthersAreDifferent(jobs);
      KeyStaysFree(codec, s, init, now, stamp, job);
      KeyFreeMeans(before, job);
      var n := |more| - 1;
      assert more == more[..n] + [more[n]];
      assert before + more == (before + more[..n]) + [more[n]];
      LastAdded(before + more[..n], more[n], job.turn, job.row.task);
    } else {
      EndsInterrupted(codec, s, init, now, stamp, job);
      DistinctFromLast(jobs, job);
      QuietKeepsLast(before, more, job.turn, job.row.task);
    }
  }

  lemma KeyFreeMeans(events: Events, job: Job)
    requires KeyFree(events, job)
    ensures FindKey(events, job.row.conversation, RecoveredInterruption(job.turn)).None?
  {
  }

  lemma OthersAreDifferent(jobs: seq<Job>)
    requires jobs != [] && DistinctTurns(jobs)
    ensures DistinctTurns(jobs[..|jobs| - 1])
    ensures forall done | done in jobs[..|jobs| - 1] :: done.turn != jobs[|jobs| - 1].turn
  {
    forall done | done in jobs[..|jobs| - 1] ensures done.turn != jobs[|jobs| - 1].turn {
      var i :| 0 <= i < |jobs| - 1 && jobs[..|jobs| - 1][i] == done;
      assert jobs[i] == done;
    }
  }

  lemma DistinctFromLast(jobs: seq<Job>, job: Job)
    requires jobs != [] && DistinctTurns(jobs) && job in jobs[..|jobs| - 1]
    ensures jobs[|jobs| - 1].turn != job.turn
  {
    OthersAreDifferent(jobs);
  }

  lemma StaleAreDistinct(tasks: Tasks, turns: Turns, jobs: seq<Job>)
    requires StaleJobs(tasks, turns, jobs)
    ensures DistinctTurns(jobs) && JobsFit(turns, jobs)
    ensures forall job | job in jobs :: job.turn in turns && turns[job.turn] == job.row
  {
    forall i, j | 0 <= i < j < |jobs| ensures jobs[i].turn != jobs[j].turn {
      assert jobs[i] in jobs && jobs[j] in jobs && JobBefore(jobs[i], jobs[j]);
      assert IsStaleJob(tasks, turns, jobs[i]) && IsStaleJob(tasks, turns, jobs[j]);
    }
    forall job | job in jobs ensures job.turn in turns && turns[job.turn] == job.row { assert IsStaleJob(tasks, turns, job); }
  }

  /** `e` ends `turn`, and no other terminal event of the turn has a number as high. */
  ghost predicate Decides(events: Events, turn: TurnId, e: Event) {
    && e in events && e.turn == turn
    && (e.kind.TurnCompleted? || e.kind.TurnFailed? || e.kind.TurnCanceled? || e.kind.TurnInterrupted?)
    && forall x | x in events && x.turn == turn && x != e
           && (x.kind.TurnCompleted? || x.kind.TurnFailed? || x.kind.TurnCanceled? || x.kind.TurnInterrupted?) ::
         x.seqNo < e.seqNo
  }

  lemma LastDecides(turns: Turns, events: Events, turn: TurnId)
    requires Dense(events) && Owned(turns, events) && Reconcile.LastTerminal(events, turn).Some?
    ensures Decides(events, turn, Reconcile.LastTerminal(events, turn).value)
  {
    Reconcile.LastTerminalMeans(events, turn);
    hide Reconcile.LastTerminal, Dense;
    var last := Reconcile.LastTerminal(events, turn).value;
    var i :| 0 <= i < |events| && events[i] == last && events[i].turn == turn && Reconcile.TerminalEvent(events[i])
      && forall k | i < k < |events| && Reconcile.TerminalEvent(events[k]) :: events[k].turn != turn;
    forall x | x in events && x.turn == turn && x != last && Reconcile.TerminalEvent(x) ensures x.seqNo < last.seqNo {
      var j :| 0 <= j < |events| && events[j] == x;
      assert events[i] in events && events[j] in events;
      LaterIsGreater(events, j, i);
    }
  }

  lemma DecidesIsLast(turns: Turns, events: Events, turn: TurnId, e: Event)
    requires Dense(events) && Owned(turns, events) && Decides(events, turn, e)
    ensures Reconcile.LastTerminal(events, turn) == Some(e)
  {
    Reconcile.LastTerminalMeans(events, turn);
    assert Reconcile.TerminalEvent(e);
    LastDecides(turns, events, turn);
    hide Reconcile.LastTerminal, Dense;
  }

  // ------------------------------------------------------ how the tables end

  /** The status a turn is left with by the kind of its deciding event. */
  ghost predicate TurnShows(turn: Turn, kind: EventKind) {
    && (kind.TurnCompleted? ==> turn.status.Succeeded?)
    && (kind.TurnFailed? ==> turn.status.Failed?)
    && (kind.TurnCanceled? ==> turn.status.Canceled?)
    && (kind.TurnInterrupted? ==> turn.status.Interrupted?)
  }

  /** And its task, which has failed when the turn was interrupted. */
  ghost predicate TaskShows(before: Task, after: Task, kind: EventKind) {
    && (kind.TurnCompleted? ==> after.status.Succeeded?)
    && (kind.TurnFailed? ==> after.status.Failed?)
    && (kind.TurnCanceled? ==> after.status.Canceled?)
    && (kind.TurnInterrupted? ==> after.status.Failed? || (after.status.Interrupted? && after == before))
  }

  /**
    Reconciliation by the table: completed means succeeded, failed failed,
    canceled canceled and interrupted interrupted, decided by the highest-numbered
    terminal event; a task whose turn was interrupted has failed, unless it says
    interrupted already.
   */
  lemma ReconciledByKind(
    turns: Turns, tasks: Tasks, events: Events, payload: Event -> Json, stamp: Stamp, turn: TurnId, e: Event)
    requires SoundLog(turns, events) && Reconcile.TasksMatch(turns, events) && Reconcile.TasksUnique(turns)
    requires turn in turns && Decides(events, turn, e)
    ensures var d := Reconcile.Reconciliation(turns, tasks, events, payload, stamp);
      && turn in d.turns && TurnShows(d.turns[turn], e.kind) && d.tasks.Keys == tasks.Keys
      && (turns[turn].task.Some? && turns[turn].task.value in tasks ==>
            TaskShows(tasks[turns[turn].task.value], d.tasks[turns[turn].task.value], e.kind))
  {
    hide *;
    var rows := Reconcile.Rows(turns, events);
    Reconcile.RowsFit(turns, events);
    SoundIsDense(turns, events);
    DecidesIsLast(turns, events, turn, e);
    DecidesMeans(events, turn, e);
    Reconcile.FirstRowIsLast(turns, events, turn);
    Reconcile.RowsMatchMeans(turns, rows);
    Reconcile.TurnsSettle(turns, tasks, events, rows, |rows|, payload, stamp);
    Reconcile.TasksSettle(turns, tasks, events, rows, |rows|, payload, stamp);
    Reconcile.ReconciliationIs(turns, tasks, events, payload, stamp);
    Reconcile.RowsMean(turns, events);
    TerminalIs(e);
    RowsTask(turns, rows, e);
    SettledShows(turns, tasks, turn, e);
    DeskShows(turns, tasks, rows, turn, e, Reconcile.RepairUpTo(turns, tasks, events, rows, |rows|, payload, stamp));
  }

  lemma DecidesMeans(events: Events, turn: TurnId, e: Event)
    requires Decides(events, turn, e)
    ensures e in events && e.turn == turn
    ensures e.kind.TurnCompleted? || e.kind.TurnFailed? || e.kind.TurnCanceled? || e.kind.TurnInterrupted?
  {
  }

  lemma TerminalIs(e: Event)
    ensures Reconcile.TerminalEvent(e) <==>
      e.kind.TurnCompleted? || e.kind.TurnFailed? || e.kind.TurnCanceled? || e.kind.TurnInterrupted?
  {
  }

  lemma SettledShows(turns: Turns, tasks: Tasks, turn: TurnId, e: Event)
    requires turn in turns && e.turn == turn && e.task == turns[turn].task
    requires e.kind.TurnCompleted? || e.kind.TurnFailed? || e.kind.TurnCanceled? || e.kind.TurnInterrupted?
    ensures TurnShows(Reconcile.SettledTurn(turns, tasks, turn, Some(e)), e.kind)
    ensures turns[turn].task.Some? && turns[turn].task.value in tasks ==>
      TaskShows(tasks[turns[turn].task.value], Reconcile.SettledTask(turns, tasks, turns[turn].task.value, turn, Some(e)), e.kind)
  {
  }

  lemma DeskShows(turns: Turns, tasks: Tasks, rows: Events, turn: TurnId, e: Event, d: Reconcile.Desk)
    requires turn in turns && Reconcile.FirstRow(rows, turn, |rows|) == Some(e)
    requires Reconcile.TurnsSettled(turns, tasks, rows, |rows|, d) && Reconcile.TasksSettled(turns, tasks, rows, |rows|, d)
    requires TurnShows(Reconcile.SettledTurn(turns, tasks, turn, Some(e)), e.kind)
    requires turns[turn].task.Some? && turns[turn].task.value in tasks ==>
      TaskShows(tasks[turns[turn].task.value], Reconcile.SettledTask(turns, tasks, turns[turn].task.value, turn, Some(e)), e.kind)
    ensures turn in d.turns && TurnShows(d.turns[turn], e.kind) && d.tasks.Keys == tasks.Keys
    ensures turns[turn].task.Some? && turns[turn].task.value in tasks ==>
      TaskShows(tasks[turns[turn].task.value], d.tasks[turns[turn].task.value], e.kind)
  {
    hide Reconcile.FirstRow, TurnShows, TaskShows, Reconcile.SettledTurn, Reconcile.SettledTask;
  }

  lemma RowsTask(turns: Turns, rows: Events, e: Event)
    requires Reconcile.RowsMatch(turns, rows) && e in rows && e.turn in turns
    ensures e.task == turns[e.turn].task
  {
  }

  lemma {:induction false} RunKeepsTasksOfTurns(codec: Codec, s: Store, jobs: seq<Job>, now: Time, stamp: Stamp)
    ensures var s' := RecoverAll(codec, s, jobs, now, stamp);
      s'.turns.Keys == s.turns.Keys && forall t | t in s.turns :: s'.turns[t].task == s.turns[t].task
  {
    if jobs != [] {
      RunKeepsTasksOfTurns(codec, s, jobs[..|jobs| - 1], now, stamp);
      hide ClosedTurn, LostText;
    }
  }

  lemma {:induction false} RunKeepsMatch(codec: Codec, s: Store, jobs: seq<Job>, now: Time, stamp: Stamp, turns: Turns)
    requires HonestKeys(s.events) && Reconcile.TasksMatch(turns, s.events)
    requires forall job | job in jobs :: job.turn in turns ==> turns[job.turn].task == job.row.task
    ensures Reconcile.TasksMatch(turns, RecoverAll(codec, s, jobs, now, stamp).events)
  {
    hide HonestKeys, ClosedTurn, OpenCalls, Reconcile.TasksMatch;
    if jobs != [] {
      var init, last := jobs[..|jobs| - 1], jobs[|jobs| - 1];
      assert jobs == init + [last] && last in jobs;
      RunKeepsMatch(codec, s, init, now, stamp, turns);
      RunKeepsHonest(codec, s, init, now, stamp);
      var before := RecoverAll(codec, s, init, now, stamp).events;
      var more := TurnAdditions(codec, before, last.turn, last.row, stamp);
      MatchMore(turns, before, more, |OpenCalls(before, last.turn)|, last);
    }
  }

  lemma MatchMore(turns: Turns, events: Events, more: Events, n: nat, job: Job)
    requires Reconcile.TasksMatch(turns, events) && n <= |more| <= n + 1
    requires forall k | 0 <= k < n :: more[k].kind.ToolResult?
    requires |more| == n + 1 ==> EndsTurn(more[n], job.turn, job.row.task)
    requires job.turn in turns ==> turns[job.turn].task == job.row.task
    ensures Reconcile.TasksMatch(turns, events + more)
  {
    forall e | e in events + more && Reconcile.TerminalEvent(e) && e.turn in turns ensures e.task == turns[e.turn].task {
      if e !in events {
        var k :| 0 <= k < |more| && more[k] == e;
      }
    }
  }

  lemma SameMatch(turns: Turns, turns': Turns, events: Events)
    requires Reconcile.TasksMatch(turns, events) && Reconcile.TasksUnique(turns)
    requires turns'.Keys == turns.Keys && forall t | t in turns :: turns'[t].task == turns[t].task
    ensures Reconcile.TasksMatch(turns', events) && Reconcile.TasksUnique(turns')
  {
  }

  /**
    A turn that recovery ends stays ended as interrupted: its deciding event says
    so, and after the next reconciliation the turn is interrupted and its task
    has failed.
   */
  lemma RecoveredTurnsStayInterrupted(
    codec: Codec, s: Snapshot, jobs: seq<Job>, now: Time, stamp: Stamp, job: Job, payload: Event -> Json, stamp': Stamp)
    returns (e: Event)
    requires SoundLog(s.store.turns, s.store.events) && HonestKeys(s.store.events)
    requires Reconcile.TasksMatch(s.store.turns, s.store.events) && Reconcile.TasksUnique(s.store.turns)
    requires StaleJobs(AfterRecovery(s.tasks, now), s.store.turns, jobs) && job in jobs && KeyFree(s.store.events, job)
    ensures var after := Recovered(codec, s, jobs, now, stamp);
      && Decides(after.store.events, job.turn, e) && e.kind.TurnInterrupted?
      && job.turn in after.store.turns && after.store.turns[job.turn].status.Interrupted?
    ensures var after := Recovered(codec, s, jobs, now, stamp);
      var d := Reconcile.Reconciliation(after.store.turns, after.tasks, after.store.events, payload, stamp');
      && job.turn in d.turns && d.turns[job.turn].status.Interrupted?
      && (job.row.task.Some? && job.row.task.value in s.tasks ==>
            && job.row.task.value in d.tasks
            && (d.tasks[job.row.task.value].status.Failed?
                || (d.tasks[job.row.task.value].status.Interrupted? && s.tasks[job.row.task.value].status.Interrupted?)))
  {
    hide *;
    var after := Recovered(codec, s, jobs, now, stamp);
    RecoveredIs(codec, s, jobs, now, stamp);
    StaleAreDistinct(AfterRecovery(s.tasks, now), s.store.turns, jobs);
    EndsInterrupted(codec, s.store, jobs, now, stamp, job);
    e := LastOf(after.store.events, job.turn, job.row.task);
    RecoveredContext.RunKeepsSound(codec, s.store, jobs, now, stamp);
    SoundIsDense(after.store.turns, after.store.events);
    LastDecides(after.store.turns, after.store.events, job.turn);
    RunTurns(codec, s.store, jobs, now, stamp);
    RunKeepsTasksOfTurns(codec, s.store, jobs, now, stamp);
    RunKeepsMatch(codec, s.store, jobs, now, stamp, s.store.turns);
    SameMatch(s.store.turns, after.store.turns, after.store.events);
    ReconciledByKind(after.store.turns, after.tasks, after.store.events, payload, stamp', job.turn, e);
    RecoveredShows(s, after, job, e, Reconcile.Reconciliation(after.store.turns, after.tasks, after.store.events, payload, stamp'), now);
  }

  /** The row of a recovered turn: ended now, interrupted, with the reason, and otherwise as it was. */
  lemma RecoveredRowIs(codec: Codec, s: Snapshot, jobs: seq<Job>, now: Time, stamp: Stamp, job: Job)
    requires StaleJobs(AfterRecovery(s.tasks, now), s.store.turns, jobs) && job in jobs
    ensures var after := Recovered(codec, s, jobs, now, stamp).store.turns;
      && job.turn in s.store.turns && job.turn in after
      && EndedRow(s.store.turns[job.turn], s.store.turns[job.turn], now, after[job.turn])
  {
    RecoveredIs(codec, s, jobs, now, stamp);
    StaleAreDistinct(AfterRecovery(s.tasks, now), s.store.turns, jobs);
    assert IsStaleJob(AfterRecovery(s.tasks, now), s.store.turns, job);
    hide RecoverAll, AfterRecovery, StaleJobs, Recovered, EndedRow;
    RowAfterRun(codec, s.store, jobs, now, stamp, job);
  }

  /** The row of a turn that ended in a crash. */
  ghost predicate EndedRow(before: Turn, row: Turn, now: Time, after: Turn) {
    after == before.(status := Status.Interrupted, finishedAt := Some(now), errorMessage := WhyLost(row))
  }

  lemma EndedRowIs(before: Turn, row: Turn, now: Time)
    ensures EndedRow(before, row, now, InterruptedTurn(before, row, now))
  {
  }

  /** The row of a turn after a run: ended when its job was among those done, and otherwise as it was. */
  ghost predicate RowSettled(turns: Turns, jobs: seq<Job>, now: Time, job: Job, after: Turns) {
    && job.turn in turns && job.turn in after
    && (job in jobs ==> EndedRow(turns[job.turn], job.row, now, after[job.turn]))
    && ((forall k | 0 <= k < |jobs| :: jobs[k].turn != job.turn) ==> after[job.turn] == turns[job.turn])
  }

  lemma {:induction false} RowAfterRun(codec: Codec, s: Store, jobs: seq<Job>, now: Time, stamp: Stamp, job: Job)
    requires DistinctTurns(jobs) && job.turn in s.turns
    ensures RowSettled(s.turns, jobs, now, job, RecoverAll(codec, s, jobs, now, stamp).turns)
  {
    hide EndedRow, ClosedTurn, WithInterrupted;
    if jobs != [] {
      var init := jobs[..|jobs| - 1];
      RowAfterRun(codec, s, init, now, stamp, job);
      RowNext(s.turns, jobs, now, job, RecoverAll(codec, s, init, now, stamp).turns);
    }
  }

  lemma RowNext(turns: Turns, jobs: seq<Job>, now: Time, job: Job, before: Turns)
    requires jobs != [] && DistinctTurns(jobs) && RowSettled(turns, jobs[..|jobs| - 1], now, job, before)
    ensures RowSettled(turns, jobs, now, job, WithInterrupted(before, jobs[|jobs| - 1], now))
  {
    var init, last := jobs[..|jobs| - 1], jobs[|jobs| - 1];
    assert jobs == init + [last];
    EndedRowIs(turns[job.turn], last.row, now);
    hide EndedRow, InterruptedTurn;
    if job in jobs && job != last {
      var i :| 0 <= i < |init| && jobs[i] == job;
      assert job in init && jobs[i].turn != jobs[|jobs| - 1].turn;
    }
  }

  /** A recovered turn is reported for another attempt exactly when it has a task that nobody stopped and that was recovered less than three times. */
  lemma {:induction false} ReportedExactly(tasks: Tasks, jobs: seq<Job>, turn: TurnId)
    ensures turn in RecoverableOf(tasks, jobs) <==>
      exists job :: job in jobs && job.turn == turn && MayTryAgain(tasks, job.row)
  {
    if jobs != [] {
      ReportedExactly(tasks, jobs[..|jobs| - 1], turn);
      assert jobs == jobs[..|jobs| - 1] + [jobs[|jobs| - 1]];
      assert Recoverable(tasks, jobs[|jobs| - 1].row) <==> MayTryAgain(tasks, jobs[|jobs| - 1].row);
      hide Recoverable, MayTryAgain;
    }
  }

  predicate MayTryAgain(tasks: Tasks, row: Turn) {
    match row.task
    case None => false
    case Some(k) => k !in tasks || (!tasks[k].cancelRequested && tasks[k].recoveryAttempt < 3)
  }

  lemma RecoveredIs(codec: Codec, s: Snapshot, jobs: seq<Job>, now: Time, stamp: Stamp)
    ensures Recovered(codec, s, jobs, now, stamp) == Snapshot(AfterRecovery(s.tasks, now), RecoverAll(codec, s.store, jobs, now, stamp))
  {
    hide RecoverAll, AfterRecovery;
  }

  lemma LastOf(events: Events, turn: TurnId, task: Option<TaskId>) returns (e: Event)
    requires LastIsInterrupted(events, turn, task)
    ensures Reconcile.LastTerminal(events, turn) == Some(e) && e.kind.TurnInterrupted? && e.task == task
  {
    hide Reconcile.LastTerminal;
    e := Reconcile.LastTerminal(events, turn).value;
  }

  lemma RecoveredShows(s: Snapshot, after: Snapshot, job: Job, e: Event, d: Reconcile.Desk, now: Time)
    requires after.tasks == AfterRecovery(s.tasks, now) && e.kind.TurnInterrupted?
    requires job.turn in d.turns && TurnShows(d.turns[job.turn], e.kind) && d.tasks.Keys == after.tasks.Keys
    requires job.row.task.Some? && job.row.task.value in after.tasks ==>
      TaskShows(after.tasks[job.row.task.value], d.tasks[job.row.task.value], e.kind)
    ensures d.turns[job.turn].status.Interrupted?
    ensures job.row.task.Some? && job.row.task.value in s.tasks ==>
      && job.row.task.value in d.tasks
      && (d.tasks[job.row.task.value].status.Failed?
          || (d.tasks[job.row.task.value].status.Interrupted? && s.tasks[job.row.task.value].status.Interrupted?))
  {
  }

  /** Afterwards every turn that says it runs has a task that is still active, and turns that were not stale are as they were. */
  lemma NothingStaleIsLeft(codec: Codec, s: Snapshot, jobs: seq<Job>, now: Time, stamp: Stamp, turn: TurnId)
    requires StaleJobs(AfterRecovery(s.tasks, now), s.store.turns, jobs) && turn in s.store.turns
    ensures var after := Recovered(codec, s, jobs, now, stamp);
      && turn in after.store.turns
      && (after.store.turns[turn].status.Running? || after.store.turns[turn].status.AwaitingApproval? ==>
            && after.store.turns[turn] == s.store.turns[turn] && s.store.turns[turn].task.Some?
            && s.store.turns[turn].task.value in after.tasks
            && var status := after.tasks[s.store.turns[turn].task.value].status;
               status.Queued? || status.Running? || status.AwaitingApproval? || status.Paused?)
      && (!(s.store.turns[turn].status.Running? || s.store.turns[turn].status.AwaitingApproval?) ==>
            after.store.turns[turn] == s.store.turns[turn])
  {
    RunTurns(codec, s.store, jobs, now, stamp);
    var row := s.store.turns[turn];
    hide RecoverAll, AfterRecovery, StaleJobs;
    StaleIs(AfterRecovery(s.tasks, now), s.store.turns, jobs, turn);
  }

  lemma StaleIs(tasks: Tasks, turns: Turns, jobs: seq<Job>, turn: TurnId)
    requires StaleJobs(tasks, turns, jobs) && turn in turns
    ensures (exists job :: job in jobs && job.turn == turn) <==> Stale(tasks, turns[turn])
  {
    if Stale(tasks, turns[turn]) { assert IsStaleJob(tasks, turns, Job(turn, turns[turn])); }
    if job :| job in jobs && job.turn == turn { assert IsStaleJob(tasks, turns, job); }
  }

  lemma {:induction false} AlikeLast(a: Events, b: Events, turn: TurnId, task: Option<TaskId>)
    requires Alike(a, b) && LastIsInterrupted(a, turn, task)
    ensures LastIsInterrupted(b, turn, task)
  {
    if a != [] {
      var x, y := a[|a| - 1], b[|b| - 1];
      assert Bare(x) == Bare(y);
      SameButNames(x, y);
      if !(x.turn == turn && Reconcile.TerminalEvent(x)) {
        AlikeLast(a[..|a| - 1], b[..|b| - 1], turn, task);
      }
    }
  }

  lemma SameButNames(a: Event, b: Event)
    requires Bare(a) == Bare(b)
    ensures a.turn == b.turn && a.kind == b.kind && a.task == b.task
  {
    assert a.turn == Bare(a).turn && b.turn == Bare(b).turn && a.kind == Bare(a).kind && b.kind == Bare(b).kind;
    assert a.task == Bare(a).task && b.task == Bare(b).task;
  }

  /** However often recovery crashed on the way, the turn ends as interrupted. */
  lemma CrashesEndInterrupted(
    codec: Codec, states: seq<Snapshot>, passes: seq<Pass>, from: Time, to: Time,
    first: seq<Job>, last: seq<Job>, stamp: Stamp, stamp': Stamp, job: Job)
    requires Passes(codec, states, passes, from, to) && from <= to && HonestKeys(states[0].store.events)
    requires StaleJobs(AfterRecovery(states[0].tasks, from), states[0].store.turns, first)
    requires StaleJobs(AfterRecovery(states[|passes|].tasks, to), states[|passes|].store.turns, last)
    requires Steady(states[0].tasks, from, to) && job in first && KeyFree(states[0].store.events, job)
    ensures LastIsInterrupted(Recovered(codec, states[|passes|], last, to, stamp').store.events, job.turn, job.row.task)
  {
    hide IsPass, AfterPass, HonestKeys, StaleJobs, Steady, AfterRecovery, RecoverAll, KeyFree, LastIsInterrupted, AlikeTasks;
    RestartAgrees(codec, states, passes, from, to, first, last, stamp, stamp');
    StaleAreDistinct(AfterRecovery(states[0].tasks, from), states[0].store.turns, first);
    EndsInterrupted(codec, states[0].store, first, from, stamp, job);
    var a, b := Recovered(codec, states[0], first, from, stamp).store.events,
                Recovered(codec, states[|passes|], last, to, stamp').store.events;
    AlikeBack(b, a);
    AlikeLast(a, b, job.turn, job.row.task);
  }

  lemma AlikeBack(a: Events, b: Events)
    requires Alike(a, b)
    ensures Alike(b, a)
  {
    hide Bare;
  }

  // --------------------------------------------- what the model reads of it

  /** Every result that recovery added says the call was lost. */
  lemma {:induction false} AddedResultsTellLost(codec: Codec, s: Store, jobs: seq<Job>, now: Time, stamp: Stamp, e: Event)
    requires HonestKeys(s.events) && e in RecoverAll(codec, s, jobs, now, stamp).events && e !in s.events && e.kind.ToolResult?
    ensures Get(e.payload, "model_output") == Some(Str(LOST_CALL))
  {
    hide HonestKeys, ClosedTurn, OpenCalls, EndsTurn;
    var init, last := jobs[..|jobs| - 1], jobs[|jobs| - 1];
    var before := RecoverAll(codec, s, init, now, stamp).events;
    RunKeepsHonest(codec, s, init, now, stamp);
    if e in before {
      AddedResultsTellLost(codec, s, init, now, stamp, e);
    } else {
      var more := TurnAdditions(codec, before, last.turn, last.row, stamp);
      AddedIsLost(more, |OpenCalls(before, last.turn)|, last, e, OpenCalls(before, last.turn));
    }
  }

  lemma AddedIsLost(more: Events, n: nat, job: Job, e: Event, calls: Events)
    requires e in more && e.kind.ToolResult? && n == |calls| && n <= |more| <= n + 1
    requires forall k | 0 <= k < n :: TellsLost(more[k], job.turn, job.row.task, CallIdOf(calls[k]))
    requires |more| == n + 1 ==> EndsTurn(more[n], job.turn, job.row.task)
    ensures Get(e.payload, "model_output") == Some(Str(LOST_CALL))
  {
    hide CallIdOf, Get;
    var k :| 0 <= k < |more| && more[k] == e;
  }

  lemma {:induction false} FirstNamedExists(events: Events, j: nat, id: string) returns (f: nat)
    requires j < |events| && TranscriptContents.NamesResult(events[j], id)
    ensures TranscriptContents.FirstNamed(events, f, id)
  {
    hide TranscriptContents.NamesResult;
    if k :| 0 <= k < j && TranscriptContents.NamesResult(events[k], id) { f := FirstNamedExists(events, k, id); }
    else { f := j; }
  }

  lemma NamedByCallId(r: Event, id: string)
    requires r.kind.ToolResult? && CallIdOf(r) == id && id != ""
    ensures TranscriptContents.NamesResult(r, id)
  {
  }

  lemma CallCanShow(selected: Events, i: nat)
    requires i < |selected| && selected[i].kind.ToolCall? && CallIdOf(selected[i]) != "" && TextAt(selected[i].payload, "name") != ""
    requires Paired(selected, CallIdOf(selected[i]))
    ensures ShowableAt(selected, i) && CallIdAt(selected, i) == CallIdOf(selected[i])
  {
    IdsAgree(selected[i]);
    PairedSetMeaning(selected);
    hide CallIdOf, ToolCallId, PairedSet, Paired;
  }

  /**
    A named call that was lost in the crash, with no result of its id in the log
    before, is answered in the rebuilt transcript by exactly the text that says
    so.
   */
  lemma LostCallIsTold(
    codec: Codec, s: Store, jobs: seq<Job>, now: Time, stamp: Stamp, job: Job, log: Events, e: Event)
    requires SoundLog(s.turns, s.events) && HonestKeys(s.events) && JobsFit(s.turns, jobs) && job in jobs
    requires log == InConversation(RecoverAll(codec, s, jobs, now, stamp).events, job.row.conversation)
    requires e in SelectContext(codec, log) && e.turn == job.turn && e.kind.ToolCall? && CallIdOf(e) != "" && CallOnce(log, e)
    requires TextAt(e.payload, "name") != ""
    requires forall x | x in s.events :: !TranscriptContents.NamesResult(x, CallIdOf(e))
    ensures var chat := Chat(codec, SelectContext(codec, log));
      && ToolMsg(CallIdOf(e), LOST_CALL) in chat
      && forall m | m in chat && m.ToolMsg? && m.callId == CallIdOf(e) :: m.output == LOST_CALL
  {
    hide *;
    var selected, id := SelectContext(codec, log), CallIdOf(e);
    RecoveredCallsArePaired(codec, s, jobs, now, stamp, job, log, e);
    var i :| 0 <= i < |selected| && selected[i] == e;
    CallCanShow(selected, i);
    var j := ResultOfPaired(selected, id);
    var f := FirstNamedExists(selected, j, id);
    RecoveredContext.RunKeepsSound(codec, s, jobs, now, stamp);
    var s' := RecoverAll(codec, s, jobs, now, stamp);
    SoundIsDense(s'.turns, s'.events);
    ConversationIncreases(s'.events, job.row.conversation);
    FirstIsNamed(selected, f, id);
    SelectedInLog(codec, log, selected[f]);
    ConversationMembers(s'.events, job.row.conversation);
    NamedIsResult(selected[f], id);
    AddedResultsTellLost(codec, s, jobs, now, stamp, selected[f]);
    var text := TranscriptContents.ChatTellsResult(codec, selected, i, f, id);
    LostIsTold(codec, selected[f].payload, text);
  }

  lemma FirstIsNamed(selected: Events, f: nat, id: string)
    requires TranscriptContents.FirstNamed(selected, f, id)
    ensures f < |selected| && TranscriptContents.NamesResult(selected[f], id) && selected[f] in selected
  {
    hide TranscriptContents.NamesResult;
  }

  lemma NamedIsResult(e: Event, id: string)
    requires TranscriptContents.NamesResult(e, id)
    ensures e.kind.ToolResult?
  {
  }

  lemma LostIsTold(codec: Codec, payload: Json, text: string)
    requires TranscriptContents.Tells(codec, payload, text) && Get(payload, "model_output") == Some(Str(LOST_CALL))
    ensures text == LOST_CALL
  {
    assert ValueAt(payload, "model_output") == Str(LOST_CALL);
  }

  lemma ResultOfPaired(selected: Events, id: string) returns (j: nat)
    requires Paired(selected, id)
    ensures j < |selected| && TranscriptContents.NamesResult(selected[j], id)
  {
    var p, q :| 0 <= p < q < |selected| && CallAt(selected, p, id) && ResultAt(selected, q, id);
    TranscriptContents.NamesIsResult(selected, q, id);
    j := q;
  }
}
