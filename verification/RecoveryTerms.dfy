/**
  What it takes to recover a task and what a recovery makes, told from the rows,
  the log and the stored context.
 */
module RecoveryTerms {
  import opened JsonValue
  import opened Tables
  import opened TaskQueue
  import opened EventStore
  import opened ContextEvents
  import opened CrashRecovery
  import opened RecoveryChain

  // -------------------------------------------------------------- eligibility

  /** The row is in the user's project and conversation of `t`. */
  ghost predicate Beside(t: Task, other: Task) {
    other.user == t.user && other.project == t.project && other.conversation == t.conversation
  }

  ghost predicate OwnTurn(turns: Turns, turn: TurnId, id: TaskId, t: Task) {
    && turn in turns && turns[turn].task == Some(id) && turns[turn].user == t.user && turns[turn].project == t.project
    && t.conversation == Some(turns[turn].conversation)
  }

  ghost predicate Continues(tasks: Tasks, id: TaskId, c: TaskId)
    requires id in tasks
  {
    c in tasks && tasks[c].recoverySource == Some(id) && Beside(tasks[id], tasks[c])
  }

  /** The task that a chain of recoveries began with. */
  function Origin(id: TaskId, t: Task): TaskId {
    match t.recoveryRoot
    case Some(root) => root
    case None => id
  }

  /** Another task of the same origin is at work, waits for it, or is done. */
  ghost predicate Busy(tasks: Tasks, id: TaskId, k: TaskId)
    requires id in tasks
  {
    && k in tasks && k != id && Beside(tasks[id], tasks[k]) && tasks[k].recoveryRoot == Some(Origin(id, tasks[id]))
    && tasks[k].status in {Queued, Running, AwaitingApproval, Paused, Succeeded}
  }

  /** Failed or interrupted with its turn, not stopped by the user, not continued yet, and nobody of its origin is at work or done. */
  ghost predicate Recoverable(tasks: Tasks, turns: Turns, id: TaskId)
    requires id in tasks
  {
    var t := tasks[id];
    && t.status in {Failed, Status.Interrupted} && !t.cancelRequested
    && (exists turn :: OwnTurn(turns, turn, id, t) && turns[turn].status == Status.Interrupted)
    && (forall c :: !Continues(tasks, id, c)) && (forall k :: !Busy(tasks, id, k))
  }

  ghost predicate OneTurn(turns: Turns, id: TaskId) {
    forall a, b | a in turns && b in turns && turns[a].task == Some(id) && turns[b].task == Some(id) :: a == b
  }

  /** The oldest continuation: first by creation time, then by id. */
  ghost predicate Oldest(tasks: Tasks, id: TaskId, c: TaskId)
    requires id in tasks
  {
    Continues(tasks, id, c) && forall d | Continues(tasks, id, d) && d != c ::
      tasks[c].createdAt < tasks[d].createdAt || (tasks[c].createdAt == tasks[d].createdAt && c < d)
  }

  /** The user's own tasks alone are recovered, and of these exactly the recoverable ones. */
  lemma RecoverableExactly(tasks: Tasks, turns: Turns, id: TaskId, user: string, r: Recovery)
    requires RecoveryState(tasks, turns, id, user, r) && OneTurn(turns, id)
    ensures r.canRecover <==> id in tasks && tasks[id].user == user && Recoverable(tasks, turns, id)
    ensures r.child.Some? <==>
      && id in tasks && tasks[id].user == user
      && (exists turn :: OwnTurn(turns, turn, id, tasks[id])) && exists c :: Continues(tasks, id, c)
    ensures r.child.Some? ==> Oldest(tasks, id, r.child.value)
  {
    if id in tasks {
      forall turn ensures TurnOf(turns, turn, id, tasks[id]) <==> OwnTurn(turns, turn, id, tasks[id]) { }
      forall c ensures ChildOfSource(tasks, c, id) <==> Continues(tasks, id, c) { }
      forall k ensures ActiveBranch(tasks, id, k) <==> Busy(tasks, id, k) { }
      forall turn | OwnTurn(turns, turn, id, tasks[id])
        ensures turn in turns && (Eligible(tasks, turns, id, turn) <==> Fit(tasks, turns, id, turn))
      {
      }
      hide *;
      Settled(tasks, turns, id, user, r);
    } else {
      hide TurnOf, ChildOfSource, ActiveBranch, Eligible;
    }
  }

  ghost predicate Fit(tasks: Tasks, turns: Turns, id: TaskId, turn: TurnId)
    requires id in tasks && turn in turns
  {
    tasks[id].status in {Failed, Status.Interrupted} && !tasks[id].cancelRequested && turns[turn].status == Status.Interrupted
  }

  lemma Settled(tasks: Tasks, turns: Turns, id: TaskId, user: string, r: Recovery)
    requires RecoveryState(tasks, turns, id, user, r) && id in tasks && OneTurn(turns, id)
    requires forall turn :: TurnOf(turns, turn, id, tasks[id]) <==> OwnTurn(turns, turn, id, tasks[id])
    requires forall c :: ChildOfSource(tasks, c, id) <==> Continues(tasks, id, c)
    requires forall k :: ActiveBranch(tasks, id, k) <==> Busy(tasks, id, k)
    requires forall turn | OwnTurn(turns, turn, id, tasks[id]) ::
      turn in turns && (Eligible(tasks, turns, id, turn) <==> Fit(tasks, turns, id, turn))
    ensures r.canRecover <==> tasks[id].user == user && Recoverable(tasks, turns, id)
    ensures r.child.Some? <==>
      && tasks[id].user == user && (exists turn :: OwnTurn(turns, turn, id, tasks[id])) && exists c :: Continues(tasks, id, c)
    ensures r.child.Some? ==> Oldest(tasks, id, r.child.value)
  {
    forall a, b | OwnTurn(turns, a, id, tasks[id]) && OwnTurn(turns, b, id, tasks[id]) ensures a == b { }
    hide TurnOf, OwnTurn, ChildOfSource, Continues, ActiveBranch, Eligible, Busy;
  }

  // ------------------------------------------------------------ the new task

  /** One more than every attempt recorded for the origin, and no more than that. */
  ghost predicate NextAttempt(tasks: Tasks, user: string, root: TaskId, n: nat) {
    && n > 0
    && (forall k | k in tasks && tasks[k].user == user && tasks[k].recoveryRoot == Some(root) :: tasks[k].recoveryAttempt < n)
    && (n == 1 || exists k :: k in tasks && tasks[k].user == user && tasks[k].recoveryRoot == Some(root) && tasks[k].recoveryAttempt == n - 1)
  }

  /** A task that continues `source`: queued, unclaimed and unflagged, under the lock of its project. */
  ghost predicate FreshContinuation(tasks: Tasks, source: TaskId, c: Task, at: Time)
    requires source in tasks
  {
    var t := tasks[source];
    && Beside(t, c) && c.createdAt == at
    && c.status == Queued && !c.cancelRequested && !c.pauseRequested
    && c.claimOwner == None && c.claimToken == None && c.lease == None && c.attempt == 0 && c.startedAt == None && c.finishedAt == None
    && c.parent == None && c.writeLockKey == "main:" + t.user + ":" + t.project
    && c.recoverySource == Some(source) && c.recoveryRoot == Some(Origin(source, t))
    && NextAttempt(tasks, t.user, Origin(source, t), c.recoveryAttempt)
  }

  /**
    A recovery of a task that was continued before answers with the oldest
    continuation.  Otherwise it makes a new task, unless the log is full,
    exactly when the task is recoverable; the new task continues it, and no
    other row changes.
   */
  lemma RecoveryAnswers(tasks: Tasks, turns: Turns, source: TaskId, user: string, newId: TaskId, at: Time, answer: Answer, tasks': Tasks)
    requires Enqueued(tasks, turns, source, user, newId, at, answer, tasks') && OneTurn(turns, source)
    ensures answer.NewChild? || answer.LogFull? <==> source in tasks && tasks[source].user == user && Recoverable(tasks, turns, source)
    ensures answer.Continued? ==> source in tasks && Oldest(tasks, source, answer.child)
    ensures answer.NewChild? ==>
      && source in tasks && answer.child == newId && newId in tasks' && tasks' == tasks[newId := tasks'[newId]]
      && FreshContinuation(tasks, source, tasks'[newId], at)
    ensures !answer.NewChild? ==> tasks' == tasks
  {
    var r :| RecoveryState(tasks, turns, source, user, r) &&
      match answer
      case Continued(child) => r.child == Some(child) && tasks' == tasks
      case NotRecoverable => r.child.None? && !r.canRecover && tasks' == tasks
      case LogFull => r.child.None? && r.canRecover && tasks' == tasks
      case NewChild(child) =>
        && r.child.None? && r.canRecover && source in tasks && child == newId
        && exists n: nat :: IsLastAttempt(tasks, user, RootOf(tasks, source), n)
             && tasks' == tasks[newId := Continuation(source, tasks[source], RootOf(tasks, source), n + 1, at)];
    RecoverableExactly(tasks, turns, source, user, r);
    ChildBlocks(tasks, turns, source, user, r);
    hide RecoveryState, Recoverable, Oldest, OneTurn, FreshContinuation, Continuation, IsLastAttempt;
    if answer.NewChild? {
      var n: nat :| IsLastAttempt(tasks, user, RootOf(tasks, source), n)
        && tasks' == tasks[newId := Continuation(source, tasks[source], RootOf(tasks, source), n + 1, at)];
      ContinuationIsFresh(tasks, source, n, at);
    }
  }

  lemma ChildBlocks(tasks: Tasks, turns: Turns, id: TaskId, user: string, r: Recovery)
    requires RecoveryState(tasks, turns, id, user, r)
    ensures r.canRecover ==> r.child.None? && tasks[id].user == user
  {
    hide TurnOf, ChildOfSource, ActiveBranch, Eligible;
  }

  lemma ContinuationIsFresh(tasks: Tasks, source: TaskId, n: nat, at: Time)
    requires source in tasks && IsLastAttempt(tasks, tasks[source].user, RootOf(tasks, source), n)
    ensures FreshContinuation(tasks, source, Continuation(source, tasks[source], RootOf(tasks, source), n + 1, at), at)
  {
  }

  // -------------------------------------------------------------- what is said

  /** The request and the note that open the turn of a recovery. */
  ghost predicate Opens(more: Events, turn: TurnId, row: Turn, interrupted: TurnId, source: TaskId, attempt: nat) {
    && |more| == 2
    && (forall e | e in more :: e.turn == turn && e.conversation == row.conversation && e.task == row.task && e.visible
                                && Get(e.payload, "source") == Some(Str("explicit_service_recovery")))
    && more[0].kind == UserMessage
    && Get(more[0].payload, "content") == Some(Str("用户确认恢复中断任务（第 " + Decimal(attempt) + " 次）"))
    && more[1].kind == RecoveryNote
    && Get(more[1].payload, "content") == Some(Str("Agent 服务已重启。请根据已保存的完整上下文继续任务。"
                                                   + "中断前未完成的工具调用已记录为失败；不要假设它已成功。"
                                                   + "只读工具可以重新调用，有副作用的相同工具调用必须重新获得用户确认。"))
    && Get(more[1].payload, "interrupted_turn_id") == Some(Int(interrupted))
    && Get(more[1].payload, "original_task_id") == Some(Int(source))
    && Get(more[1].payload, "recovery_attempt") == Some(Int(attempt))
  }

  /** A new turn's log opens with the user's request to recover and the note what became of the old turn. */
  lemma RecoveryIsTold(
    events: Events, turn: TurnId, row: Turn, interrupted: TurnId, source: TaskId, attempt: nat, stamp: Stamp, after: Events)
    requires after == Logged(Logged(events, PromptDraft(turn, row, PromptText(attempt)), stamp),
                             ResumeDraft(turn, row, interrupted, source, attempt), stamp)
    requires FindKey(events, row.conversation, TurnPrompt(turn)).None? && FindKey(events, row.conversation, RecoveryResume(turn)).None?
    ensures events <= after && Opens(after[|events|..], turn, row, interrupted, source, attempt)
  {
    var d, d' := PromptDraft(turn, row, PromptText(attempt)), ResumeDraft(turn, row, interrupted, source, attempt);
    DraftKeys(turn, row, interrupted, source, attempt);
    hide PromptDraft, ResumeDraft, PromptText, Opens, FindKey, Placed, Logged;
    var e := Placed(events, d, stamp.id(|events|), stamp.at(|events|));
    LoggedIs(events, d, stamp);
    FindKeyAppend(events, [e], row.conversation, RecoveryResume(turn));
    OtherKey(e, row.conversation, RecoveryResume(turn), events, d, stamp);
    var e' := Placed(events + [e], d', stamp.id(|events| + 1), stamp.at(|events| + 1));
    LoggedIs(events + [e], d', stamp);
    DraftsOpen(events, turn, row, interrupted, source, attempt, e, e', stamp);
    assert after == events + [e] + [e'];
    assert after[|events|..] == [e, e'];
  }

  lemma LoggedIs(events: Events, d: Draft, stamp: Stamp)
    requires d.key.Some? && FindKey(events, d.conversation, d.key.value).None?
    ensures Logged(events, d, stamp) == events + [Placed(events, d, stamp.id(|events|), stamp.at(|events|))]
  {
    hide FindKey, Placed;
  }

  lemma OtherKey(e: Event, conversation: ConversationId, key: EventKey, events: Events, d: Draft, stamp: Stamp)
    requires e == Placed(events, d, stamp.id(|events|), stamp.at(|events|)) && d.key != Some(key)
    ensures FindKey([e], conversation, key).None?
  {
    hide MaxSeq;
    assert [e][1..] == [];
  }

  lemma DraftKeys(turn: TurnId, row: Turn, interrupted: TurnId, source: TaskId, attempt: nat)
    ensures var d := PromptDraft(turn, row, PromptText(attempt)); d.key == Some(TurnPrompt(turn)) && d.conversation == row.conversation
    ensures var d := ResumeDraft(turn, row, interrupted, source, attempt);
      d.key == Some(RecoveryResume(turn)) && d.conversation == row.conversation
  {
  }

  lemma DraftsOpen(
    events: Events, turn: TurnId, row: Turn, interrupted: TurnId, source: TaskId, attempt: nat, e: Event, e': Event, stamp: Stamp)
    requires e == Placed(events, PromptDraft(turn, row, PromptText(attempt)), stamp.id(|events|), stamp.at(|events|))
    requires e' == Placed(events + [e], ResumeDraft(turn, row, interrupted, source, attempt), stamp.id(|events| + 1), stamp.at(|events| + 1))
    ensures Opens([e, e'], turn, row, interrupted, source, attempt)
  {
    hide MaxSeq, Decimal;
  }

  // ---------------------------------------------------------- what is stored

  /** What the context of the new task says of a guarded call. */
  ghost predicate Tells(value: Json, r: Replay) {
    && Get(value, "tool_call_id") == Some(Str(r.id)) && Get(value, "input") == Some(r.input)
    && Get(value, "name") == (if r.name.Some? then r.name else Some(Null))
  }

  /** The stored context: the user's choices of the old task, what is recovered, the guarded calls, and nothing else. */
  lemma ContextIsStored(context: Json, selection: Json, lockKey: string, interrupted: TurnId, replays: seq<Replay>, stored: Json)
    requires stored == RecoveryContext(context, selection, lockKey, interrupted, replays)
    ensures forall key | key in {"run_mode", "permission_profile", "attachments", "feedback_options"} :: Get(stored, key) == Get(context, key)
    ensures Get(stored, "model_selection") == Some(selection) && Get(stored, "write_lock_key") == Some(Str(lockKey))
    ensures Get(stored, "recovery_mode") == Some(Bool(true)) && Get(stored, "interrupted_turn_id") == Some(Int(interrupted))
    ensures Get(stored, "recovery_replays").Some? && Get(stored, "recovery_replays").value.Arr?
    ensures var items := Get(stored, "recovery_replays").value.items;
      |items| == |replays| && forall i | 0 <= i < |items| :: Tells(items[i], replays[i])
    ensures forall key | Get(stored, key).Some? ::
      key in {"run_mode", "permission_profile", "attachments", "feedback_options", "model_selection", "write_lock_key", "recovery_mode",
              "interrupted_turn_id", "recovery_replays"}
  {
  }

  // ------------------------------------------------------------ replay guard

  /** An event of the turn that names the call. */
  ghost predicate Names(e: Event, turn: TurnId, kind: EventKind, id: string) {
    e.turn == turn && e.kind == kind && Get(e.payload, "tool_call_id") == Some(Str(id))
  }

  ghost predicate Lost(e: Event, turn: TurnId, id: string) {
    Names(e, turn, ToolResult, id) && Get(e.payload, "interrupted") == Some(Bool(true))
  }

  /** The call as it was last made in the turn. */
  ghost predicate LastMade(events: Events, turn: TurnId, id: string, i: nat) {
    && i < |events| && Names(events[i], turn, ToolCall, id)
    && forall j | i < j < |events| :: !Names(events[j], turn, ToolCall, id)
  }

  ghost predicate Made(events: Events, turn: TurnId, id: string) {
    id != "" && exists e :: e in events && Names(e, turn, ToolCall, id)
  }

  ghost predicate WasLost(events: Events, turn: TurnId, id: string) {
    id != "" && exists e :: e in events && Lost(e, turn, id)
  }

  /** The guard in progress: the calls of the turn as last made, and those that were lost. */
  ghost predicate GuardSays(events: Events, turn: TurnId, g: Guard) {
    && (forall id :: id in g.interrupted <==> WasLost(events, turn, id))
    && (forall id :: id in g.calls <==> Made(events, turn, id))
    && (forall id, i: nat | id in g.calls && LastMade(events, turn, id, i) :: g.calls[id] == events[i].payload)
  }

  lemma StepIs(g: Guard, e: Event, turn: TurnId, id: string)
    ensures var g' := GuardStep(g, e, turn);
      && (id in g'.interrupted <==> id in g.interrupted || (id != "" && Lost(e, turn, id)))
      && (id in g'.calls <==> id in g.calls || (id != "" && Names(e, turn, ToolCall, id)))
      && (id in g'.calls ==>
            g'.calls[id] == if id != "" && Names(e, turn, ToolCall, id) then e.payload else if id in g.calls then g.calls[id] else Null)
  {
  }

  lemma {:induction false} GuardMeans(events: Events, turn: TurnId)
    ensures GuardSays(events, turn, GuardOf(events, turn))
  {
    if events != [] {
      hide *;
      GuardMeans(events[..|events| - 1], turn);
      GuardGoesOn(events, turn);
    }
  }

  lemma MoreMade(events: Events, e: Event, turn: TurnId, id: string)
    ensures Made(events + [e], turn, id) <==> Made(events, turn, id) || (id != "" && Names(e, turn, ToolCall, id))
    ensures WasLost(events + [e], turn, id) <==> WasLost(events, turn, id) || (id != "" && Lost(e, turn, id))
    ensures forall i: nat | LastMade(events + [e], turn, id, i) ::
      if i == |events| then Names(e, turn, ToolCall, id) else LastMade(events, turn, id, i) && !Names(e, turn, ToolCall, id)
  {
    hide Names, Lost;
    var longer := events + [e];
    assert longer[|events|] == e && forall j | 0 <= j < |events| :: longer[j] == events[j];
    assert forall x :: x in longer <==> x in events || x == e;
  }

  lemma GuardGoesOn(events: Events, turn: TurnId)
    requires events != [] && GuardSays(events[..|events| - 1], turn, GuardOf(events[..|events| - 1], turn))
    ensures GuardSays(events, turn, GuardOf(events, turn))
  {
    var init, last := events[..|events| - 1], events[|events| - 1];
    assert events == init + [last];
    var g, g' := GuardOf(init, turn), GuardOf(events, turn);
    assert g' == GuardStep(g, last, turn);
    hide GuardOf, GuardStep, Lost, Names, Made, WasLost, LastMade;
    forall id
      ensures id in g'.interrupted <==> WasLost(events, turn, id)
      ensures id in g'.calls <==> Made(events, turn, id)
      ensures forall i: nat | id in g'.calls && LastMade(events, turn, id, i) :: g'.calls[id] == events[i].payload
    {
      StepIs(g, last, turn, id);
      MoreMade(init, last, turn, id);
      MadeIsNamed(events, turn, id);
      forall i: nat | id in g'.calls && LastMade(events, turn, id, i) ensures g'.calls[id] == events[i].payload {
        LastIsAt(events, turn, id, i);
        if i < |init| {
          assert LastMade(init, turn, id, i);
          LastIsAt(init, turn, id, i);
        }
      }
    }
  }

  lemma MadeIsNamed(events: Events, turn: TurnId, id: string)
    ensures Made(events, turn, id) ==> id != ""
  {
  }

  lemma LastIsAt(events: Events, turn: TurnId, id: string, i: nat)
    requires LastMade(events, turn, id, i)
    ensures i < |events|
  {
  }

  /** The input under which a call is guarded: an empty object where it has none. */
  function StoredInput(payload: Json): Json {
    if payload.Obj? && "input" in payload.fields && Truthy(payload.fields["input"]) then payload.fields["input"] else Obj(map[])
  }

  lemma StoredInputIs(payload: Json)
    ensures InputOf(payload) == StoredInput(payload)
  {
    hide Truthy;
  }

  ghost predicate Guarded(guard: seq<Replay>, id: string) {
    exists r :: r in guard && r.id == id
  }

  /**
    The guard of a turn names each call of the turn that has a result saying it
    was interrupted, and no other, once and by id, with the name and the input
    with which it was last made.
   */
  lemma GuardedExactly(events: Events, turn: TurnId, guard: seq<Replay>)
    requires IsReplayList(GuardOf(events, turn), guard)
    ensures forall id :: Guarded(guard, id) <==> Made(events, turn, id) && WasLost(events, turn, id)
    ensures forall r, i: nat | r in guard && LastMade(events, turn, r.id, i) ::
      r.name == Get(events[i].payload, "name") && r.input == StoredInput(events[i].payload)
    ensures forall i, j | 0 <= i < j < |guard| :: guard[i].id != guard[j].id
  {
    var g := GuardOf(events, turn);
    GuardMeans(events, turn);
    hide Made, WasLost, GuardOf, InputOf, Truthy;
    forall id ensures Guarded(guard, id) <==> id in g.interrupted && id in g.calls {
      if id in g.interrupted && id in g.calls {
        ReplayIs(g, id);
        assert ReplayOf(g, id) in guard;
      }
    }
    forall r, i: nat | r in guard && LastMade(events, turn, r.id, i)
      ensures r.name == Get(events[i].payload, "name") && r.input == StoredInput(events[i].payload)
    {
      assert r == ReplayOf(g, r.id) && g.calls[r.id] == events[i].payload;
      StoredInputIs(events[i].payload);
    }
    forall i, j | 0 <= i < j < |guard| ensures guard[i].id != guard[j].id { TextOrder(guard[i].id, guard[i].id, guard[i].id); }
  }
}
