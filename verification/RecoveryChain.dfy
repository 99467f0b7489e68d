/**
  Explicit recovery of an interrupted task: who may be recovered, the task that
  continues it, and why the tasks of one origin always form a single chain.
 */
module RecoveryChain {
  import opened JsonValue
  import opened Tables
  import opened TaskQueue
  import opened EventStore
  import opened ContextEvents
  import opened CrashRecovery
  import QueueRuns

  // -------------------------------------------------------------- eligibility

  predicate SameScope(a: Task, b: Task) {
    a.user == b.user && a.project == b.project && a.conversation == b.conversation
  }

  /** A turn that belongs to this very task. */
  predicate TurnOf(turns: Turns, turn: TurnId, id: TaskId, t: Task) {
    && turn in turns && turns[turn].task == Some(id) && turns[turn].user == t.user
    && turns[turn].project == t.project && Some(turns[turn].conversation) == t.conversation
  }

  predicate ChildOfSource(tasks: Tasks, child: TaskId, source: TaskId) {
    child in tasks && source in tasks && tasks[child].recoverySource == Some(source) && SameScope(tasks[child], tasks[source])
  }

  function RootOf(tasks: Tasks, id: TaskId): TaskId
    requires id in tasks
  {
    if tasks[id].recoveryRoot.Some? then tasks[id].recoveryRoot.value else id
  }

  /** Another task of the same origin that is still active or has succeeded. */
  predicate ActiveBranch(tasks: Tasks, id: TaskId, other: TaskId)
    requires id in tasks
  {
    && other in tasks && other != id && SameScope(tasks[other], tasks[id])
    && tasks[other].recoveryRoot == Some(RootOf(tasks, id))
    && (Active(tasks[other].status) || tasks[other].status.Succeeded?)
  }

  predicate EndedBadly(t: Task) {
    t.status.Failed? || t.status.Interrupted?
  }

  /** The row itself may be recovered, whatever became of its relatives. */
  predicate Eligible(tasks: Tasks, turns: Turns, id: TaskId, turn: TurnId)
    requires id in tasks && turn in turns
  {
    EndedBadly(tasks[id]) && turns[turn].status.Interrupted? && !tasks[id].cancelRequested
  }

  datatype Recovery = Recovery(canRecover: bool, child: Option<TaskId>)

  /** What `recovery_state` reports: the oldest child, and whether a first one may be made. */
  ghost predicate RecoveryState(tasks: Tasks, turns: Turns, id: TaskId, user: string, r: Recovery) {
    if id !in tasks || tasks[id].user != user || !(exists turn :: TurnOf(turns, turn, id, tasks[id])) then r == Recovery(false, None)
    else
      && (r.child.None? ==> forall c :: !ChildOfSource(tasks, c, id))
      && (r.child.Some? ==>
            && ChildOfSource(tasks, r.child.value, id)
            && forall c | ChildOfSource(tasks, c, id) && c != r.child.value :: Before(tasks, r.child.value, c))
      && (r.canRecover ==>
            r.child.None? && (forall other :: !ActiveBranch(tasks, id, other))
            && exists turn :: TurnOf(turns, turn, id, tasks[id]) && Eligible(tasks, turns, id, turn))
      && (!r.canRecover ==>
            r.child.Some? || (exists other :: ActiveBranch(tasks, id, other))
            || exists turn :: TurnOf(turns, turn, id, tasks[id]) && !Eligible(tasks, turns, id, turn))
  }

  /** `recovery_state`; a task has one turn, so which matching turn is read does not matter. */
  method RecoveryStateOf(tasks: Tasks, turns: Turns, id: TaskId, user: string) returns (r: Recovery)
    ensures RecoveryState(tasks, turns, id, user, r)
  {
    if id !in tasks || tasks[id].user != user { return Recovery(false, None); }
    var matching := set turn | turn in turns && TurnOf(turns, turn, id, tasks[id]);
    if matching == {} {
      assert forall turn :: TurnOf(turns, turn, id, tasks[id]) ==> turn in matching;
      return Recovery(false, None);
    }
    var turn :| turn in matching;
    assert TurnOf(turns, turn, id, tasks[id]);
    hide TurnOf, SameScope, EndedBadly;
    var children := set c | c in tasks && ChildOfSource(tasks, c, id);
    assert forall c :: ChildOfSource(tasks, c, id) ==> c in children;
    var child: Option<TaskId> := None;
    if children != {} {
      LeastExists(tasks, children);
      var least :| least in children && forall other | other in children && other != least :: Before(tasks, least, other);
      child := Some(least);
    }
    var branch := set other | other in tasks && ActiveBranch(tasks, id, other);
    assert forall other :: ActiveBranch(tasks, id, other) ==> other in branch;
    var eligible := Eligible(tasks, turns, id, turn) && branch == {};
    return Recovery(eligible && child.None?, child);
  }

  // ---------------------------------------------------------------- enqueuing

  /** `COALESCE(MAX(recovery_attempt), 0)` over the tasks of an origin. */
  ghost predicate IsLastAttempt(tasks: Tasks, user: string, root: TaskId, n: nat) {
    && (forall k | k in tasks && tasks[k].user == user && tasks[k].recoveryRoot == Some(root) :: tasks[k].recoveryAttempt <= n)
    && (n == 0 || exists k :: k in tasks && tasks[k].user == user && tasks[k].recoveryRoot == Some(root) && tasks[k].recoveryAttempt == n)
  }

  method LastAttempt(tasks: Tasks, user: string, root: TaskId) returns (n: nat)
    ensures IsLastAttempt(tasks, user, root, n)
  {
    var family := set k | k in tasks && tasks[k].user == user && tasks[k].recoveryRoot == Some(root);
    var rest := family;
    n := 0;
    while rest != {}
      invariant rest <= family
      invariant forall k | k in family && k !in rest :: tasks[k].recoveryAttempt <= n
      invariant n == 0 || exists k :: k in family && tasks[k].recoveryAttempt == n
      decreases rest
    {
      var k :| k in rest;
      rest := rest - {k};
      if tasks[k].recoveryAttempt > n { n := tasks[k].recoveryAttempt; }
    }
  }

  /** The task that continues `source`. */
  function Continuation(source: TaskId, t: Task, root: TaskId, attempt: nat, at: Time): Task {
    Task(t.user, t.project, t.conversation, at, Queued, false, false, None, "", MainKey(t.user, t.project), MainKey(t.user, t.project),
         None, None, None, None, 0, None, None, "", Some(root), Some(source), attempt)
  }

  datatype Answer = Continued(child: TaskId) | NewChild(child: TaskId) | NotRecoverable | LogFull

  /** What `_enqueue_recovery_task` does to the task table. */
  ghost predicate Enqueued(tasks: Tasks, turns: Turns, source: TaskId, user: string, newId: TaskId, at: Time, answer: Answer, tasks': Tasks) {
    exists r :: RecoveryState(tasks, turns, source, user, r) &&
      match answer
      case Continued(child) => r.child == Some(child) && tasks' == tasks
      case NotRecoverable => r.child.None? && !r.canRecover && tasks' == tasks
      case LogFull => r.child.None? && r.canRecover && tasks' == tasks
      case NewChild(child) =>
        && r.child.None? && r.canRecover && source in tasks && child == newId
        && exists n: nat :: IsLastAttempt(tasks, user, RootOf(tasks, source), n)
             && tasks' == tasks[newId := Continuation(source, tasks[source], RootOf(tasks, source), n + 1, at)]
  }

  function PromptDraft(turn: TurnId, row: Turn, prompt: string): Draft {
    Draft(row.conversation, turn, row.task, UserMessage, true, Some(TurnPrompt(turn)),
          Obj(map["content" := Str(prompt), "source" := Str("explicit_service_recovery")]))
  }

  const RESUME_TEXT :=
    "Agent 服务已重启。请根据已保存的完整上下文继续任务。"
    + "中断前未完成的工具调用已记录为失败；不要假设它已成功。"
    + "只读工具可以重新调用，有副作用的相同工具调用必须重新获得用户确认。"

  function ResumeDraft(turn: TurnId, row: Turn, interrupted: TurnId, source: TaskId, attempt: nat): Draft {
    Draft(row.conversation, turn, row.task, RecoveryNote, true, Some(RecoveryResume(turn)),
          Obj(map["content" := Str(RESUME_TEXT), "source" := Str("explicit_service_recovery"), "interrupted_turn_id" := Int(interrupted),
                  "original_task_id" := Int(source), "recovery_attempt" := Int(attempt)]))
  }

  function PromptText(attempt: nat): string {
    "用户确认恢复中断任务（第 " + Decimal(attempt) + " 次）"
  }

  const INHERITED := {"run_mode", "permission_profile", "attachments", "model_selection", "feedback_options"}

  /** `inherited_execution_context`. */
  function InheritedFields(context: Json): map<string, Json> {
    if context.Obj? then map key | key in context.fields && key in INHERITED :: context.fields[key] else map[]
  }

  function ReplayJson(replays: seq<Replay>): seq<Json> {
    seq(|replays|, i requires 0 <= i < |replays| =>
      Obj(map["tool_call_id" := Str(replays[i].id), "input" := replays[i].input,
              "name" := match replays[i].name case Some(name) => name case None => Null]))
  }

  /** The context stored with the new task: the choices it inherits, and the calls that need a fresh consent. */
  function RecoveryContext(context: Json, selection: Json, lockKey: string, interrupted: TurnId, replays: seq<Replay>): Json {
    Obj(InheritedFields(context)
        + map["model_selection" := selection, "write_lock_key" := Str(lockKey), "recovery_mode" := Bool(true),
              "interrupted_turn_id" := Int(interrupted), "recovery_replays" := Arr(ReplayJson(replays))])
  }

  /** `_enqueue_recovery_task`: mapping, task, turn, prompt and note in one transaction, or nothing. */
  method EnqueueRecovery(
    db: Database, source: TaskId, user: string, context: Json, selection: Json,
    newId: TaskId, freshTurn: TurnId, at: Time, quota: nat, stamp: Stamp)
    returns (answer: Answer, stored: Json, ghost interrupted: TurnId, ghost replays: seq<Replay>)
    modifies db`tasks, db`turns, db`events
    ensures Enqueued(old(db.tasks), old(db.turns), source, user, newId, at, answer, db.tasks)
    ensures !answer.NewChild? ==> db.turns == old(db.turns) && db.events == old(db.events)
    ensures answer.NewChild? ==>
      && TurnOf(old(db.turns), interrupted, source, old(db.tasks)[source])
      && IsReplayList(GuardOf(old(db.events), interrupted), replays)
      && stored == RecoveryContext(context, selection, db.tasks[newId].writeLockKey, interrupted, replays)
    ensures answer.NewChild? ==>
      && old(db.tasks)[source].conversation.Some?
      && freshTurn in db.turns && db.turns[freshTurn].task == Some(newId) && db.turns[freshTurn].status.Queued?
      && db.turns == old(db.turns)[freshTurn := db.turns[freshTurn]]
      && db.events == Logged(Logged(old(db.events), PromptDraft(freshTurn, db.turns[freshTurn], PromptText(db.tasks[newId].recoveryAttempt)), stamp),
                             ResumeDraft(freshTurn, db.turns[freshTurn], interrupted, source, db.tasks[newId].recoveryAttempt), stamp)
  {
    stored, interrupted, replays := Null, freshTurn, [];
    var r := RecoveryStateOf(db.tasks, db.turns, source, user);
    if r.child.Some? { answer := Continued(r.child.value); return; }
    if !r.canRecover { answer := NotRecoverable; return; }
    var turns, events, tasks := db.turns, db.events, db.tasks;
    var t := tasks[source];
    TurnInTurns(turns, source, t);
    var turn :| turn in turns && TurnOf(turns, turn, source, t);
    var root := RootOf(tasks, source);
    var last := LastAttempt(tasks, user, root);
    hide RecoveryState, IsLastAttempt, Logged, PromptDraft, ResumeDraft, RootOf, PromptText, Continuation, RecoveryContext, GuardOf, IsReplayList;
    var guard := RecoveryReplayGuard(events, turn);
    var row := Turn(t.conversation.value, Some(newId), t.user, t.project, Queued, at, None, None, "");
    var child := Continuation(source, t, root, last + 1, at);
    db.tasks := tasks[newId := child];
    ContinuationAttempt(source, t, root, last + 1, at);
    db.turns := turns[freshTurn := row];
    DraftsFit(freshTurn, row, PromptText(last + 1), turn, source, last + 1);
    var first := LogOnce(db, PromptDraft(freshTurn, row, PromptText(last + 1)), quota, stamp);
    var second := false;
    if first { second := LogOnce(db, ResumeDraft(freshTurn, row, turn, source, last + 1), quota, stamp); }
    if !second {
      db.tasks, db.turns, db.events := tasks, turns, events;
      answer := LogFull;
      return;
    }
    answer, interrupted, replays := NewChild(newId), turn, guard;
    stored := RecoveryContext(context, selection, child.writeLockKey, turn, guard);
  }

  lemma TurnInTurns(turns: Turns, id: TaskId, t: Task)
    ensures forall turn :: TurnOf(turns, turn, id, t) ==> turn in turns
  {
  }

  lemma ContinuationAttempt(source: TaskId, t: Task, root: TaskId, attempt: nat, at: Time)
    ensures Continuation(source, t, root, attempt, at).recoveryAttempt == attempt
  {
  }

  lemma DraftsFit(turn: TurnId, row: Turn, prompt: string, interrupted: TurnId, source: TaskId, attempt: nat)
    ensures var d := PromptDraft(turn, row, prompt); d.key.Some? && d.turn == turn && d.conversation == row.conversation && d.task == row.task
    ensures var d := ResumeDraft(turn, row, interrupted, source, attempt);
      d.key.Some? && d.turn == turn && d.conversation == row.conversation && d.task == row.task
  {
  }

  // -------------------------------------------------------------------- runs

  /** The task table, and for each origin the chain of tasks that continue it. */
  datatype Lineages = Lineages(tasks: Tasks, chains: map<TaskId, seq<TaskId>>)

  datatype Act =
    | Submit(id: TaskId, row: Task)
    | Work(q: QueueRuns.Queue, step: QueueRuns.Step, q': QueueRuns.Queue)
    | Recover(source: TaskId, user: string, newId: TaskId, at: Time, turns: Turns, answer: Answer)

  /** What identifies a task is unchanged, and a terminal status is final. */
  predicate KeepsIdentity(t: Task, t': Task) {
    && SameScope(t, t') && t'.recoveryRoot == t.recoveryRoot && t'.recoverySource == t.recoverySource
    && t'.recoveryAttempt == t.recoveryAttempt && (Terminal(t.status) ==> t'.status == t.status)
  }

  /**
    Tasks are submitted, recovered, and worked on: claimed, renewed, started,
    finished, released, cancelled, paused and resumed, by any step of the queue
    whose lifecycle writes come from the holder of the task.
   */
  ghost predicate Acts(s: Lineages, act: Act, s': Lineages) {
    match act
    case Submit(id, row) =>
      && id !in s.tasks && row.recoveryRoot.None? && row.recoverySource.None?
      && s' == Lineages(s.tasks[id := row], s.chains[id := [id]])
    case Work(q, step, q') =>
      && q.tasks == s.tasks && !step.Enqueue? && QueueRuns.Next(q, step, q') && QueueRuns.HeldWrite(q, step)
      && s' == s.(tasks := q'.tasks)
    case Recover(source, user, newId, at, turns, answer) =>
      && newId !in s.tasks
      && Enqueued(s.tasks, turns, source, user, newId, at, answer, s'.tasks)
      && s'.chains ==
           if answer.NewChild? && source in s.tasks && RootOf(s.tasks, source) in s.chains
           then s.chains[RootOf(s.tasks, source) := s.chains[RootOf(s.tasks, source)] + [newId]]
           else s.chains
  }

  ghost predicate Run(states: seq<Lineages>, acts: seq<Act>) {
    && |states| == |acts| + 1
    && states[0] == Lineages(map[], map[])
    && forall i | 0 <= i < |acts| :: Acts(states[i], acts[i], states[i + 1])
  }

  // ------------------------------------------------------------ the invariant

  /** Position `k` of the chain of `root`: where it comes from and which attempt it is. */
  ghost predicate Link(tasks: Tasks, root: TaskId, chain: seq<TaskId>, k: nat)
    requires k < |chain|
  {
    && root in tasks && chain[k] in tasks && SameScope(tasks[chain[k]], tasks[root])
    && tasks[chain[k]].recoveryRoot == (if k == 0 then None else Some(root))
    && tasks[chain[k]].recoverySource == (if k == 0 then None else Some(chain[k - 1]))
    && (k > 0 ==> tasks[chain[k]].recoveryAttempt == k)
    && (k < |chain| - 1 ==> EndedBadly(tasks[chain[k]]))
  }

  ghost predicate IsChain(tasks: Tasks, root: TaskId, chain: seq<TaskId>) {
    && chain != [] && chain[0] == root
    && (forall i, j | 0 <= i < j < |chain| :: chain[i] != chain[j])
    && forall k | 0 <= k < |chain| :: Link(tasks, root, chain, k)
  }

  /** Every task stands in exactly the chain of its origin. */
  ghost predicate Linear(s: Lineages) {
    && (forall root | root in s.chains :: IsChain(s.tasks, root, s.chains[root]))
    && (forall id | id in s.tasks :: RootOf(s.tasks, id) in s.chains && id in s.chains[RootOf(s.tasks, id)])
  }

  lemma InChain(s: Lineages, root: TaskId, k: nat)
    requires Linear(s) && root in s.chains && k < |s.chains[root]|
    ensures s.chains[root][k] in s.tasks && Link(s.tasks, root, s.chains[root], k)
    ensures RootOf(s.tasks, s.chains[root][k]) == root
  {
  }

  /** The position of a task in its chain. */
  lemma Position(s: Lineages, id: TaskId) returns (k: nat)
    requires Linear(s) && id in s.tasks
    ensures RootOf(s.tasks, id) in s.chains
    ensures k < |s.chains[RootOf(s.tasks, id)]| && s.chains[RootOf(s.tasks, id)][k] == id
    ensures Link(s.tasks, RootOf(s.tasks, id), s.chains[RootOf(s.tasks, id)], k)
  {
    k :| 0 <= k < |s.chains[RootOf(s.tasks, id)]| && s.chains[RootOf(s.tasks, id)][k] == id;
    hide Link;
  }

  /** The next task in the chain, and only that, is a child. */
  lemma ChildIsNext(s: Lineages, id: TaskId, k: nat, c: TaskId)
    requires Linear(s) && id in s.tasks
    requires RootOf(s.tasks, id) in s.chains && k < |s.chains[RootOf(s.tasks, id)]| && s.chains[RootOf(s.tasks, id)][k] == id
    ensures ChildOfSource(s.tasks, c, id) <==>
      k + 1 < |s.chains[RootOf(s.tasks, id)]| && c == s.chains[RootOf(s.tasks, id)][k + 1]
  {
    var chain := s.chains[RootOf(s.tasks, id)];
    InChain(s, RootOf(s.tasks, id), k);
    if k + 1 < |chain| { InChain(s, RootOf(s.tasks, id), k + 1); }
    if ChildOfSource(s.tasks, c, id) {
      var j := Position(s, c);
      var other := s.chains[RootOf(s.tasks, c)];
      InChain(s, RootOf(s.tasks, c), j - 1);
      assert other[j - 1] == id;
      SamePlace(chain, j - 1, k);
    }
  }

  lemma SamePlace(chain: seq<TaskId>, i: nat, j: nat)
    requires i < |chain| && j < |chain| && chain[i] == chain[j]
    requires forall a, b | 0 <= a < b < |chain| :: chain[a] != chain[b]
    ensures i == j
  {
  }

  /** No other member of a chain is active or has succeeded, once its last member has not. */
  lemma NoActiveBranch(s: Lineages, id: TaskId, k: nat, other: TaskId)
    requires Linear(s) && id in s.tasks && RootOf(s.tasks, id) in s.chains
    requires var chain := s.chains[RootOf(s.tasks, id)]; k == |chain| - 1 && chain[k] == id
    ensures !ActiveBranch(s.tasks, id, other)
  {
    var root := RootOf(s.tasks, id);
    if other in s.tasks && other != id && s.tasks[other].recoveryRoot == Some(root) {
      var j := Position(s, other);
      InChain(s, root, j);
      hide Link, SameScope;
      BeforeLastEnded(s, root, j);
    }
  }

  lemma BeforeLastEnded(s: Lineages, root: TaskId, j: nat)
    requires Linear(s) && root in s.chains && j < |s.chains[root]| - 1
    ensures s.chains[root][j] in s.tasks && EndedBadly(s.tasks[s.chains[root][j]])
  {
    InChain(s, root, j);
  }

  /** The last attempt recorded for an origin is the length of its chain less one. */
  lemma AttemptIsLength(s: Lineages, id: TaskId, n: nat)
    requires Linear(s) && id in s.tasks && RootOf(s.tasks, id) in s.chains
    requires IsLastAttempt(s.tasks, s.tasks[id].user, RootOf(s.tasks, id), n)
    ensures n == |s.chains[RootOf(s.tasks, id)]| - 1
  {
    var root := RootOf(s.tasks, id);
    var chain := s.chains[root];
    var last := |chain| - 1;
    var k := Position(s, id);
    InChain(s, root, last);
    InChain(s, root, k);
    if last > 0 {
      assert s.tasks[chain[last]].recoveryAttempt == last;
      assert s.tasks[chain[last]].user == s.tasks[id].user;
    }
    if n > 0 {
      var m :| m in s.tasks && s.tasks[m].user == s.tasks[id].user && s.tasks[m].recoveryRoot == Some(root) && s.tasks[m].recoveryAttempt == n;
      var j := Position(s, m);
      InChain(s, root, j);
    }
  }

  // --------------------------------------------------------- steps keep chains

  lemma StepKeepsScope(q: QueueRuns.Queue, step: QueueRuns.Step, q': QueueRuns.Queue, id: TaskId)
    requires QueueRuns.Next(q, step, q') && !step.Enqueue?
    ensures q'.tasks.Keys == q.tasks.Keys
    ensures id in q.tasks ==>
      && SameScope(q.tasks[id], q'.tasks[id]) && q'.tasks[id].recoveryRoot == q.tasks[id].recoveryRoot
      && q'.tasks[id].recoverySource == q.tasks[id].recoverySource && q'.tasks[id].recoveryAttempt == q.tasks[id].recoveryAttempt
  {
    hide Terminal, Active, Holding, ClaimSurvives;
  }

  /** No step of the queue changes what identifies a task or takes it out of a terminal status. */
  lemma StepKeepsIdentity(q: QueueRuns.Queue, step: QueueRuns.Step, q': QueueRuns.Queue, id: TaskId)
    requires QueueRuns.Next(q, step, q') && QueueRuns.HeldWrite(q, step) && !step.Enqueue?
    ensures q'.tasks.Keys == q.tasks.Keys
    ensures id in q.tasks ==> KeepsIdentity(q.tasks[id], q'.tasks[id])
  {
    hide QueueRuns.Next, QueueRuns.HeldWrite, SameScope, Terminal;
    StepKeepsScope(q, step, q', id);
    if id in q.tasks && Terminal(q.tasks[id].status) { QueueRuns.StepKeepsTerminal(q, step, q', id); }
  }

  /** The same tasks, each with its identity. */
  ghost predicate SameTasks(tasks: Tasks, tasks': Tasks) {
    tasks'.Keys == tasks.Keys && forall id | id in tasks :: KeepsIdentity(tasks[id], tasks'[id])
  }

  lemma StepKeepsTasks(q: QueueRuns.Queue, step: QueueRuns.Step, q': QueueRuns.Queue)
    requires QueueRuns.Next(q, step, q') && QueueRuns.HeldWrite(q, step) && !step.Enqueue?
    ensures SameTasks(q.tasks, q'.tasks)
  {
    hide QueueRuns.Next, QueueRuns.HeldWrite, KeepsIdentity;
    StepKeepsIdentity(q, step, q', 0);
    forall id | id in q.tasks ensures KeepsIdentity(q.tasks[id], q'.tasks[id]) { StepKeepsIdentity(q, step, q', id); }
  }

  lemma SameKeepsLink(tasks: Tasks, tasks': Tasks, root: TaskId, chain: seq<TaskId>, k: nat)
    requires SameTasks(tasks, tasks') && k < |chain| && Link(tasks, root, chain, k)
    ensures Link(tasks', root, chain, k)
  {
  }

  lemma SameKeepsLinear(s: Lineages, tasks': Tasks)
    requires Linear(s) && SameTasks(s.tasks, tasks')
    ensures Linear(s.(tasks := tasks'))
  {
    forall root | root in s.chains ensures IsChain(tasks', root, s.chains[root]) {
      forall k | 0 <= k < |s.chains[root]| ensures Link(tasks', root, s.chains[root], k) {
        SameKeepsLink(s.tasks, tasks', root, s.chains[root], k);
      }
      hide Link;
    }
    assert forall x | x in tasks' :: RootOf(tasks', x) == RootOf(s.tasks, x);
  }

  lemma NewKeepsLink(tasks: Tasks, id: TaskId, row: Task, root: TaskId, chain: seq<TaskId>, k: nat)
    requires id !in tasks && k < |chain| && Link(tasks, root, chain, k)
    ensures Link(tasks[id := row], root, chain, k)
  {
  }

  lemma NewKeepsChain(tasks: Tasks, id: TaskId, row: Task, root: TaskId, chain: seq<TaskId>)
    requires id !in tasks && IsChain(tasks, root, chain)
    ensures IsChain(tasks[id := row], root, chain) && id !in chain
  {
    hide Link;
    var tasks' := tasks[id := row];
    forall k | 0 <= k < |chain| ensures Link(tasks', root, chain, k) {
      NewKeepsLink(tasks, id, row, root, chain, k);
    }
    forall k | 0 <= k < |chain| ensures chain[k] != id {
      LinkKnows(tasks, root, chain, k);
    }
  }

  lemma LinkKnows(tasks: Tasks, root: TaskId, chain: seq<TaskId>, k: nat)
    requires k < |chain| && Link(tasks, root, chain, k)
    ensures chain[k] in tasks && root in tasks
  {
  }

  lemma SubmitKeepsLinear(s: Lineages, id: TaskId, row: Task)
    requires Linear(s) && id !in s.tasks && row.recoveryRoot.None? && row.recoverySource.None?
    ensures Linear(Lineages(s.tasks[id := row], s.chains[id := [id]]))
  {
    var tasks, chains := s.tasks[id := row], s.chains[id := [id]];
    assert IsChain(tasks, id, [id]);
    hide IsChain;
    forall root | root in chains ensures IsChain(tasks, root, chains[root]) {
      if root != id { NewKeepsChain(s.tasks, id, row, root, s.chains[root]); }
    }
    forall x | x in tasks ensures RootOf(tasks, x) in chains && x in chains[RootOf(tasks, x)] {
      if x != id {
        assert RootOf(tasks, x) == RootOf(s.tasks, x);
        RootIsKnown(s, x);
      }
    }
  }

  lemma RootIsKnown(s: Lineages, x: TaskId)
    requires Linear(s) && x in s.tasks
    ensures RootOf(s.tasks, x) in s.tasks
  {
    InChain(s, RootOf(s.tasks, x), 0);
  }

  lemma ExtendedChain(s: Lineages, source: TaskId, newId: TaskId, row: Task, root: TaskId)
    requires Linear(s) && source in s.tasks && newId !in s.tasks && root == RootOf(s.tasks, source) && root in s.chains
    requires s.chains[root][|s.chains[root]| - 1] == source && EndedBadly(s.tasks[source])
    requires SameScope(row, s.tasks[source]) && row.recoveryRoot == Some(root) && row.recoverySource == Some(source)
    requires row.recoveryAttempt == |s.chains[root]|
    ensures IsChain(s.tasks[newId := row], root, s.chains[root] + [newId])
  {
    var chain, tasks := s.chains[root], s.tasks[newId := row];
    var longer := chain + [newId];
    NewKeepsChain(s.tasks, newId, row, root, chain);
    forall k | 0 <= k < |longer| ensures Link(tasks, root, longer, k) {
      if k < |chain| {
        InChain(s, root, k);
      } else {
        InChain(s, root, |chain| - 1);
      }
    }
    hide Link;
  }

  /** Recovery is only ever granted to the last member of a chain. */
  lemma RecoveredIsLast(s: Lineages, turns: Turns, source: TaskId, user: string, r: Recovery) returns (k: nat)
    requires Linear(s) && RecoveryState(s.tasks, turns, source, user, r) && r.canRecover
    ensures source in s.tasks && s.tasks[source].user == user && EndedBadly(s.tasks[source])
    ensures RootOf(s.tasks, source) in s.chains
    ensures k == |s.chains[RootOf(s.tasks, source)]| - 1 && s.chains[RootOf(s.tasks, source)][k] == source
  {
    k := Position(s, source);
    var chain := s.chains[RootOf(s.tasks, source)];
    hide Link, TurnOf, ActiveBranch;
    if k + 1 < |chain| {
      ChildIsNext(s, source, k, chain[k + 1]);
    }
  }

  lemma CreatedKeepsLinear(s: Lineages, source: TaskId, newId: TaskId, row: Task, root: TaskId)
    requires Linear(s) && source in s.tasks && newId !in s.tasks && root == RootOf(s.tasks, source) && root in s.chains
    requires row.recoveryRoot == Some(root) && IsChain(s.tasks[newId := row], root, s.chains[root] + [newId])
    ensures Linear(Lineages(s.tasks[newId := row], s.chains[root := s.chains[root] + [newId]]))
  {
    var tasks, chains := s.tasks[newId := row], s.chains[root := s.chains[root] + [newId]];
    hide IsChain;
    forall x | x in chains ensures IsChain(tasks, x, chains[x]) {
      if x != root { NewKeepsChain(s.tasks, newId, row, x, s.chains[x]); }
    }
    forall x | x in tasks ensures RootOf(tasks, x) in chains && x in chains[RootOf(tasks, x)] {
      if x != newId { assert RootOf(tasks, x) == RootOf(s.tasks, x); }
    }
  }

  lemma RecoverKeepsLinear(s: Lineages, act: Act, s': Lineages)
    requires Linear(s) && act.Recover? && Acts(s, act, s')
    ensures Linear(s')
  {
    if act.answer.NewChild? {
      var r :| RecoveryState(s.tasks, act.turns, act.source, act.user, r) && r.child.None? && r.canRecover;
      var k := RecoveredIsLast(s, act.turns, act.source, act.user, r);
      var root := RootOf(s.tasks, act.source);
      var n: nat :| IsLastAttempt(s.tasks, act.user, root, n)
        && s'.tasks == s.tasks[act.newId := Continuation(act.source, s.tasks[act.source], root, n + 1, act.at)];
      AttemptIsLength(s, act.source, n);
      var row := Continuation(act.source, s.tasks[act.source], root, n + 1, act.at);
      hide Linear, RecoveryState, IsLastAttempt, Enqueued, IsChain;
      ExtendedChain(s, act.source, act.newId, row, root);
      CreatedKeepsLinear(s, act.source, act.newId, row, root);
    } else {
      hide Linear, RecoveryState;
    }
  }

  lemma ActKeepsLinear(s: Lineages, act: Act, s': Lineages)
    requires Linear(s) && Acts(s, act, s')
    ensures Linear(s')
  {
    hide Linear, Enqueued, KeepsIdentity, SameTasks, QueueRuns.Next, QueueRuns.HeldWrite;
    match act
    case Submit(id, row) => SubmitKeepsLinear(s, id, row);
    case Work(q, step, q') =>
      StepKeepsTasks(q, step, q');
      SameKeepsLinear(s, q'.tasks);
    case Recover(_, _, _, _, _, _) => RecoverKeepsLinear(s, act, s');
  }

  /**
    In every run the tasks of each origin form one chain: attempts 1..n in order,
    each continuing the one before, and all but the last failed or interrupted.
   */
  lemma {:induction false} AlwaysLinear(states: seq<Lineages>, acts: seq<Act>, i: nat)
    requires Run(states, acts) && i < |states|
    ensures Linear(states[i])
  {
    if i > 0 {
      hide Linear, Acts;
      AlwaysLinear(states, acts, i - 1);
      assert Acts(states[i - 1], acts[i - 1], states[i]);
      ActKeepsLinear(states[i - 1], acts[i - 1], states[i]);
    } else {
      hide IsChain;
    }
  }

  /** In every run each task has at most one child. */
  lemma OneChild(states: seq<Lineages>, acts: seq<Act>, i: nat, id: TaskId, a: TaskId, b: TaskId)
    requires Run(states, acts) && i < |states|
    requires ChildOfSource(states[i].tasks, a, id) && ChildOfSource(states[i].tasks, b, id)
    ensures a == b
  {
    AlwaysLinear(states, acts, i);
    var s := states[i];
    hide Run, Linear;
    var k := Position(s, id);
    ChildIsNext(s, id, k, a);
    ChildIsNext(s, id, k, b);
  }

  /** Recovering a task that was recovered before answers with that same continuation, for good. */
  lemma RecoveringAgain(states: seq<Lineages>, acts: seq<Act>, i: nat, child: TaskId)
    requires Run(states, acts) && i < |acts| && acts[i].Recover?
    requires ChildOfSource(states[i].tasks, child, acts[i].source) && states[i].tasks[acts[i].source].user == acts[i].user
    requires exists turn :: TurnOf(acts[i].turns, turn, acts[i].source, states[i].tasks[acts[i].source])
    ensures acts[i].answer == Continued(child)
  {
    var s, act := states[i], acts[i];
    assert Acts(s, act, states[i + 1]);
    var r :| RecoveryState(s.tasks, act.turns, act.source, act.user, r);
    AlwaysLinear(states, acts, i);
    forall c | ChildOfSource(s.tasks, c, act.source) ensures c == child {
      OneChild(states, acts, i, act.source, c, child);
    }
    hide Run, Linear, IsLastAttempt, ActiveBranch, Eligible;
  }

  /** The guard against a second branch never refuses a task without a child that is eligible itself. */
  lemma GuardNeverRefuses(s: Lineages, turns: Turns, id: TaskId, turn: TurnId, r: Recovery)
    requires Linear(s) && id in s.tasks && RecoveryState(s.tasks, turns, id, s.tasks[id].user, r)
    requires TurnOf(turns, turn, id, s.tasks[id]) && Eligible(s.tasks, turns, id, turn)
    requires forall a, b | TurnOf(turns, a, id, s.tasks[id]) && TurnOf(turns, b, id, s.tasks[id]) :: a == b
    requires forall c :: !ChildOfSource(s.tasks, c, id)
    ensures r.canRecover
  {
    var k := Position(s, id);
    var chain := s.chains[RootOf(s.tasks, id)];
    if k + 1 < |chain| { ChildIsNext(s, id, k, chain[k + 1]); }
    forall other ensures !ActiveBranch(s.tasks, id, other) {
      NoActiveBranch(s, id, k, other);
    }
    hide Link, TurnOf, Linear, ActiveBranch, ChildOfSource;
  }

  // ------------------------------------------------------------ replay guard

  predicate InterruptedResult(e: Event, turn: TurnId) {
    e.turn == turn && e.kind.ToolResult? && CallIdOf(e) != "" && TrueAt(e.payload, "interrupted")
  }

  predicate CallIn(e: Event, turn: TurnId) {
    e.turn == turn && e.kind.ToolCall? && CallIdOf(e) != ""
  }

  datatype Replay = Replay(id: string, name: Option<Json>, input: Json)

  /** `call.get("input") or {}`. */
  function InputOf(payload: Json): Json {
    match Get(payload, "input")
    case Some(v) => if Truthy(v) then v else Obj(map[])
    case None => Obj(map[])
  }

  /** The last payload of each call of the turn, and the ids whose result says it was interrupted. */
  datatype Guard = Guard(calls: map<string, Json>, interrupted: set<string>)

  function GuardStep(g: Guard, e: Event, turn: TurnId): Guard {
    if CallIn(e, turn) then g.(calls := g.calls[CallIdOf(e) := e.payload])
    else if InterruptedResult(e, turn) then g.(interrupted := g.interrupted + {CallIdOf(e)})
    else g
  }

  function GuardOf(events: Events, turn: TurnId): Guard {
    if events == [] then Guard(map[], {}) else GuardStep(GuardOf(events[..|events| - 1], turn), events[|events| - 1], turn)
  }

  /** `_recovery_replay_guard`: every call of the turn whose result says it was interrupted, as it was last made. */
  method RecoveryReplayGuard(events: Events, turn: TurnId) returns (guard: seq<Replay>)
    ensures IsReplayList(GuardOf(events, turn), guard)
  {
    var g := Guard(map[], {});
    assert events[..0] == [];
    for n := 0 to |events|
      invariant g == GuardOf(events[..n], turn)
    {
      var event := events[n];
      assert events[..n + 1][..n] == events[..n];
      if event.turn != turn { continue; }
      var id := CallIdOf(event);
      if id == "" { continue; }
      if event.kind.ToolCall? {
        g := g.(calls := g.calls[id := event.payload]);
      } else if event.kind.ToolResult? && TrueAt(event.payload, "interrupted") {
        g := g.(interrupted := g.interrupted + {id});
      }
    }
    assert events[..|events|] == events;
    guard := GuardList(g);
  }

  function ReplayOf(g: Guard, id: string): Replay
    requires id in g.calls
  {
    Replay(id, Get(g.calls[id], "name"), InputOf(g.calls[id]))
  }

  /** The order of texts by their characters. */
  predicate TextBefore(a: string, b: string) {
    b != "" && (a == "" || a[0] < b[0] || (a[0] == b[0] && TextBefore(a[1..], b[1..])))
  }

  lemma {:induction false} TextOrder(a: string, b: string, c: string)
    ensures !TextBefore(a, a)
    ensures a == b || TextBefore(a, b) || TextBefore(b, a)
    ensures TextBefore(a, b) && TextBefore(b, c) ==> TextBefore(a, c)
    decreases |a| + |b| + |c|
  {
    if a != "" {
      TextOrder(a[1..], if b != "" then b[1..] else "", if c != "" then c[1..] else "");
      if b != "" && a[0] == b[0] && a[1..] == b[1..] { assert a == [a[0]] + a[1..] && b == [b[0]] + b[1..]; }
    }
  }

  /** Every guarded call once, by id. */
  ghost predicate IsReplayList(g: Guard, guard: seq<Replay>) {
    && (forall i, j | 0 <= i < j < |guard| :: TextBefore(guard[i].id, guard[j].id))
    && (forall r :: r in guard <==> r.id in g.interrupted && r.id in g.calls && r == ReplayOf(g, r.id))
  }

  predicate LeastText(ids: set<string>, least: string) {
    least in ids && forall other | other in ids && other != least :: TextBefore(least, other)
  }

  lemma {:induction false} LeastTextExists(ids: set<string>)
    requires ids != {}
    ensures exists least :: LeastText(ids, least)
    decreases |ids|
  {
    var some :| some in ids;
    if ids == {some} {
      assert LeastText(ids, some);
    } else {
      LeastTextExists(ids - {some});
      var t :| LeastText(ids - {some}, t);
      TextOrder(some, t, t);
      hide TextBefore;
      var least := if TextBefore(some, t) then some else t;
      forall other | other in ids && other != least ensures TextBefore(least, other) { TextOrder(some, t, other); }
      assert LeastText(ids, least);
    }
  }

  method GuardList(g: Guard) returns (guard: seq<Replay>)
    ensures IsReplayList(g, guard)
  {
    var all := g.interrupted * g.calls.Keys;
    var rest := all;
    guard := [];
    hide InputOf, TextBefore, ReplayOf;
    while rest != {}
      invariant rest <= all
      invariant forall i, j | 0 <= i < j < |guard| :: TextBefore(guard[i].id, guard[j].id)
      invariant forall i, id | 0 <= i < |guard| && id in rest :: TextBefore(guard[i].id, id)
      invariant forall r :: r in guard <==> r.id in all && r.id !in rest && r == ReplayOf(g, r.id)
      decreases rest
    {
      LeastTextExists(rest);
      var id :| id in rest && LeastText(rest, id);
      rest := rest - {id};
      ReplayIs(g, id);
      guard := guard + [ReplayOf(g, id)];
    }
  }

  lemma ReplayIs(g: Guard, id: string)
    requires id in g.calls
    ensures ReplayOf(g, id).id == id
  {
  }

  lemma GuardAppend(events: Events, e: Event, turn: TurnId)
    ensures GuardOf(events + [e], turn) == GuardStep(GuardOf(events, turn), e, turn)
  {
    assert (events + [e])[..|events|] == events;
  }

  lemma {:induction false} GuardedCalls(events: Events, turn: TurnId)
    ensures forall e | e in events && CallIn(e, turn) :: CallIdOf(e) in GuardOf(events, turn).calls
  {
    if events != [] {
      var init, last := events[..|events| - 1], events[|events| - 1];
      GuardedCalls(init, turn);
      assert events == init + [last];
      hide CallIn, CallIdOf, InterruptedResult;
    }
  }

  lemma GuardGrows(events: Events, e: Event, turn: TurnId)
    ensures GuardOf(events, turn).calls.Keys <= GuardOf(events + [e], turn).calls.Keys
    ensures GuardOf(events, turn).interrupted <= GuardOf(events + [e], turn).interrupted
    ensures InterruptedResult(e, turn) ==> CallIdOf(e) in GuardOf(events + [e], turn).interrupted
  {
    GuardAppend(events, e, turn);
    hide GuardOf, CallIdOf;
  }

  lemma LoggedGrows(events: Events, d: Draft, turn: TurnId, stamp: Stamp)
    ensures GuardOf(events, turn).calls.Keys <= GuardOf(Logged(events, d, stamp), turn).calls.Keys
    ensures GuardOf(events, turn).interrupted <= GuardOf(Logged(events, d, stamp), turn).interrupted
  {
    hide GuardOf, MaxSeq, FindKey;
    GuardGrows(events, Placed(events, d, stamp.id(|events|), stamp.at(|events|)), turn);
  }

  lemma ResultIsInterrupted(codec: Codec, turn: TurnId, row: Turn, call: Event, events: Events, stamp: Stamp)
    requires CallIdOf(call) != ""
    ensures InterruptedResult(Placed(events, ResultDraft(codec, turn, row, call), stamp.id(|events|), stamp.at(|events|)), turn)
  {
    ResultDraftId(codec, turn, row, call, events, stamp);
    ResultSaysInterrupted(codec, call);
    hide CallIdOf, MaxSeq;
  }

  lemma ResultSaysInterrupted(codec: Codec, call: Event)
    ensures TrueAt(ResultPayload(codec, call), "interrupted")
  {
  }

  /** After `n` calls were closed, those `n` are guarded. */
  ghost predicate GuardedUpTo(codec: Codec, events: Events, turn: TurnId, row: Turn, n: nat, stamp: Stamp) {
    n <= |OpenCalls(events, turn)| &&
    var g := GuardOf(Closed(codec, events, turn, row, OpenCalls(events, turn), n, stamp), turn);
    && (forall i | 0 <= i < n :: CallIdOf(OpenCalls(events, turn)[i]) in g.interrupted)
    && GuardOf(events, turn).calls.Keys <= g.calls.Keys
  }

  lemma CloseFirstGuards(codec: Codec, events: Events, turn: TurnId, row: Turn, call: Event, stamp: Stamp)
    requires HonestKeys(events) && OpenCalls(events, turn) != [] && OpenCalls(events, turn)[0] == call && CallIdOf(call) != ""
    ensures var after := Logged(events, ResultDraft(codec, turn, row, call), stamp);
      && GuardOf(events, turn).calls.Keys <= GuardOf(after, turn).calls.Keys
      && GuardOf(events, turn).interrupted <= GuardOf(after, turn).interrupted
      && CallIdOf(call) in GuardOf(after, turn).interrupted
  {
    CloseFirst(codec, events, turn, row, stamp);
    ResultIsInterrupted(codec, turn, row, call, events, stamp);
    ResultDraftId(codec, turn, row, call, events, stamp);
    hide HonestKeys, OpenCalls, GuardOf, Logged, CallIdOf, ResultDraft, Placed, InterruptedResult;
    var d := ResultDraft(codec, turn, row, call);
    GuardGrows(events, Placed(events, d, stamp.id(|events|), stamp.at(|events|)), turn);
  }

  lemma GuardedStep(codec: Codec, events: Events, turn: TurnId, row: Turn, n: nat, stamp: Stamp)
    requires HonestKeys(events) && n < |OpenCalls(events, turn)| && GuardedUpTo(codec, events, turn, row, n, stamp)
    ensures GuardedUpTo(codec, events, turn, row, n + 1, stamp)
  {
    var calls := OpenCalls(events, turn);
    var before := Closed(codec, events, turn, row, calls, n, stamp);
    ClosingMeans(codec, events, turn, row, n, stamp);
    OpenIsNamed(events, turn, n);
    assert Closed(codec, events, turn, row, calls, n + 1, stamp) == Logged(before, ResultDraft(codec, turn, row, calls[n]), stamp);
    hide HonestKeys, OpenCalls, GuardOf, Logged, CallIdOf, ResultDraft, Closed;
    assert calls[n..][0] == calls[n];
    CloseFirstGuards(codec, before, turn, row, calls[n], stamp);
  }

  lemma {:induction false} ClosedAreGuarded(codec: Codec, events: Events, turn: TurnId, row: Turn, n: nat, stamp: Stamp)
    requires HonestKeys(events) && n <= |OpenCalls(events, turn)|
    ensures GuardedUpTo(codec, events, turn, row, n, stamp)
  {
    if n == 0 {
      hide OpenCalls, GuardOf, CallIdOf;
    } else {
      hide *;
      ClosedAreGuarded(codec, events, turn, row, n - 1, stamp);
      GuardedStep(codec, events, turn, row, n - 1, stamp);
    }
  }

  lemma OpenIsNamed(events: Events, turn: TurnId, i: nat)
    requires i < |OpenCalls(events, turn)|
    ensures CallIdOf(OpenCalls(events, turn)[i]) != ""
  {
    var s := ScanOf(OfTurn(events, turn));
    ScanDistinct(OfTurn(events, turn));
    OpenMembers(s.calls, s.completed);
    hide ScanOf, OfTurn, StillOpen, CallIdOf;
    assert OpenCalls(events, turn)[i] in StillOpen(s.calls, s.completed);
  }

  lemma {:induction false} ScannedAreCalls(events: Events)
    ensures forall e | e in ScanOf(events).calls :: e in events && e.kind.ToolCall?
  {
    if events != [] {
      ScannedAreCalls(events[..|events| - 1]);
      ScanUnfold(events);
      assert events == events[..|events| - 1] + [events[|events| - 1]];
      hide ScanOf, CallIdOf, KnownIds;
    }
  }

  lemma OpenIsCall(events: Events, turn: TurnId, i: nat)
    requires i < |OpenCalls(events, turn)|
    ensures OpenCalls(events, turn)[i] in events && CallIn(OpenCalls(events, turn)[i], turn)
  {
    var s := ScanOf(OfTurn(events, turn));
    OpenIsNamed(events, turn, i);
    OpenMembers(s.calls, s.completed);
    ScannedAreCalls(OfTurn(events, turn));
    OfTurnMembers(events, turn);
    hide ScanOf, OfTurn, StillOpen, CallIdOf;
    assert OpenCalls(events, turn)[i] in StillOpen(s.calls, s.completed);
  }

  /**
    Nothing that was running when the service died can be replayed unnoticed:
    after recovery each call that was open is in the guard of its turn.
   */
  lemma OpenCallsAreGuarded(codec: Codec, events: Events, turn: TurnId, row: Turn, stamp: Stamp, i: nat)
    requires HonestKeys(events) && i < |OpenCalls(events, turn)|
    ensures var g := GuardOf(ClosedTurn(codec, events, turn, row, stamp), turn);
      CallIdOf(OpenCalls(events, turn)[i]) in g.interrupted && CallIdOf(OpenCalls(events, turn)[i]) in g.calls
  {
    var calls := OpenCalls(events, turn);
    ClosedTurnIs(codec, events, turn, row, stamp);
    OpenIsCall(events, turn, i);
    hide HonestKeys, OpenCalls, GuardOf, Logged, CallIdOf, ResultDraft, Closed, ClosedTurn;
    GuardedCalls(events, turn);
    ClosedAreGuarded(codec, events, turn, row, |calls|, stamp);
    LoggedGrows(Closed(codec, events, turn, row, calls, |calls|, stamp), InterruptDraft(turn, row), turn, stamp);
  }
}
