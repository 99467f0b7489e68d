/**
  The durable task queue: how a worker claims, keeps and gives back a task, and
  how a user pauses, resumes or cancels one.  Each function is the effect of one
  transaction on the task table; each method performs that transaction.
 */
module TaskQueue {
  import opened JsonValue
  import opened Tables

  type Tasks = map<TaskId, Task>
  type Dependencies = set<(TaskId, TaskId)>

  const CANCEL_TEXT := "用户已请求停止任务"
  const APPROVAL_LOST_TEXT := "Agent 服务重启，等待中的下载确认已失效，请重新发送需求"
  const EXECUTION_LOST_TEXT := "Agent 服务重启，任务执行已中断"

  // ---------------------------------------------------------------- leases

  predicate LiveLease(t: Task, now: Time) {
    Holding(t.status) && t.lease.Some? && t.lease.value >= now
  }

  /** The lock text of a project's main agent. */
  function MainKey(user: string, project: string): string {
    "main:" + user + ":" + project
  }

  /** The key a claim works with: the column, or the copy in the task's context. */
  function ClaimKey(t: Task): string {
    if t.writeLockKey != "" then t.writeLockKey else t.contextLockKey
  }

  predicate Keyless(t: Task) {
    t.writeLockKey == ""
  }

  /** The lock a running task holds: its own key, or the main key when it has none and is no child. */
  function EffectiveKey(t: Task): Option<string> {
    if !Keyless(t) then Some(t.writeLockKey)
    else if t.parent.None? && t.role == "" then Some(MainKey(t.user, t.project))
    else None
  }

  /** Task `other` is live and stands in the way of a claim of `t`. */
  predicate Blocks(t: Task, other: Task, now: Time) {
    LiveLease(other, now) &&
    if ClaimKey(t) != "" then
      || other.writeLockKey == ClaimKey(t)
      || (&& ClaimKey(t) == MainKey(t.user, t.project)
          && other.user == t.user && other.project == t.project
          && other.parent.None? && other.role == "" && Keyless(other))
    else
      && t.parent.None? && t.role == ""
      && other.user == t.user && other.project == t.project
      && other.parent.None?
      && (Keyless(other) || other.writeLockKey == MainKey(t.user, t.project))
  }

  /** Rows the claim scan looks at. */
  predicate Candidate(t: Task, now: Time) {
    t.status.Queued? || (t.status.Running? && t.lease.Some? && t.lease.value < now)
  }

  predicate LockFree(tasks: Tasks, id: TaskId, now: Time)
    requires id in tasks
  {
    forall other | other in tasks && other != id :: !Blocks(tasks[id], tasks[other], now)
  }

  predicate HasSucceeded(tasks: Tasks, id: TaskId) {
    id in tasks && tasks[id].status.Succeeded?
  }

  predicate DependenciesMet(tasks: Tasks, deps: Dependencies, id: TaskId) {
    forall d | d in deps && d.0 == id :: HasSucceeded(tasks, d.1)
  }

  predicate Claimable(tasks: Tasks, deps: Dependencies, id: TaskId, now: Time) {
    id in tasks && Candidate(tasks[id], now) && LockFree(tasks, id, now) && DependenciesMet(tasks, deps, id)
  }

  /** Queue order: by creation time, then by identifier. */
  predicate Before(tasks: Tasks, a: TaskId, b: TaskId)
    requires a in tasks && b in tasks
  {
    tasks[a].createdAt < tasks[b].createdAt || (tasks[a].createdAt == tasks[b].createdAt && a < b)
  }

  function Claimed(t: Task, worker: string, leaseSeconds: Time, now: Time, token: Token): Task {
    t.(status := Running, claimOwner := Some(worker), claimToken := Some(token),
       lease := Some(now + leaseSeconds), heartbeatAt := Some(now), pauseRequested := false,
       attempt := t.attempt + 1,
       startedAt := if t.startedAt.Some? then t.startedAt else Some(now))
  }

  /** What one claim does: the least claimable row in queue order, or nothing when there is none. */
  ghost predicate ClaimEffect(
    tasks: Tasks, deps: Dependencies, worker: string, leaseSeconds: Time, now: Time, token: Token,
    result: Option<TaskId>, tasks': Tasks)
  {
    match result
    case None =>
      tasks' == tasks && forall id | id in tasks :: !Claimable(tasks, deps, id, now)
    case Some(id) =>
      && Claimable(tasks, deps, id, now)
      && (forall other | other in tasks && other != id && Claimable(tasks, deps, other, now) :: Before(tasks, id, other))
      && tasks' == tasks[id := Claimed(tasks[id], worker, leaseSeconds, now, token)]
  }

  function Unclaimed(t: Task): Task {
    t.(claimOwner := None, claimToken := None, lease := None, heartbeatAt := None, pauseRequested := false)
  }

  predicate OwnedBy(tasks: Tasks, id: TaskId, worker: string, token: Option<Token>) {
    && id in tasks && tasks[id].claimOwner == Some(worker)
    && (token.None? || tasks[id].claimToken == token)
  }

  predicate HeartbeatAccepted(tasks: Tasks, id: TaskId, worker: string, token: Option<Token>) {
    OwnedBy(tasks, id, worker, token) && Holding(tasks[id].status)
  }

  /** A heartbeat renews a held task; it does not look at whether the lease already ran out. */
  function AfterHeartbeat(
    tasks: Tasks, id: TaskId, worker: string, leaseSeconds: Time, token: Option<Token>, now: Time): Tasks
  {
    if HeartbeatAccepted(tasks, id, worker, token)
    then tasks[id := tasks[id].(heartbeatAt := Some(now), lease := Some(now + leaseSeconds))]
    else tasks
  }

  predicate ClaimValid(tasks: Tasks, id: TaskId, worker: string, token: Token, now: Time) {
    OwnedBy(tasks, id, worker, Some(token)) && LiveLease(tasks[id], now)
  }

  /** The status a release leaves: parking a task that was asked to stop cancels it. */
  function ReleasedStatus(t: Task, status: Status): Status {
    if status.Paused? && t.cancelRequested then Canceled else status
  }

  function Released(t: Task, status: Status, error: Option<string>, now: Time): Task {
    var final := ReleasedStatus(t, status);
    Unclaimed(t).(
      status := final,
      finishedAt := if Terminal(final) then Some(now) else t.finishedAt,
      errorMessage :=
        if error.Some? then error.value
        else if final != status then CANCEL_TEXT
        else t.errorMessage)
  }

  function AfterRelease(
    tasks: Tasks, id: TaskId, worker: string, status: Status, token: Option<Token>, error: Option<string>, now: Time): Tasks
  {
    if OwnedBy(tasks, id, worker, token) then tasks[id := Released(tasks[id], status, error, now)] else tasks
  }

  /** The row of a known task may have changed, and no other. */
  ghost predicate OnlyRow(before: Tasks, after: Tasks, id: TaskId) {
    id in before && after.Keys == before.Keys && forall other | other in before && other != id :: after[other] == before[other]
  }

  /** No worker is left on the row. */
  predicate Unheld(t: Task) {
    t.claimOwner.None? && t.claimToken.None? && t.lease.None? && t.heartbeatAt.None? && !t.pauseRequested
  }

  /** A release frees the row and leaves the status asked for, except that a task asked to stop ends instead of parking. */
  predicate GivenBack(t: Task, t': Task, status: Status, error: Option<string>, now: Time) {
    var stops := status.Paused? && t.cancelRequested;
    && Unheld(t')
    && t'.status == (if stops then Canceled else status)
    && t'.finishedAt == (if status in {Succeeded, Failed, Canceled, Interrupted} || stops then Some(now) else t.finishedAt)
    && t'.errorMessage == (if error.Some? then error.value else if stops then CANCEL_TEXT else t.errorMessage)
    && t' == t.(status := t'.status, finishedAt := t'.finishedAt, errorMessage := t'.errorMessage, claimOwner := None, claimToken := None,
                lease := None, heartbeatAt := None, pauseRequested := false)
  }

  /** A row handed to a worker: it runs under his name and token, and starts once. */
  predicate HandedOut(t: Task, t': Task, worker: string, token: Token, now: Time) {
    && t'.status == Running && t'.claimOwner == Some(worker) && t'.claimToken == Some(token) && t'.heartbeatAt == Some(now)
    && !t'.pauseRequested && t'.attempt == t.attempt + 1
    && t'.startedAt == (if t.startedAt == None then Some(now) else t.startedAt)
    && t' == t.(status := t'.status, claimOwner := t'.claimOwner, claimToken := t'.claimToken, lease := t'.lease,
                heartbeatAt := t'.heartbeatAt, pauseRequested := t'.pauseRequested, attempt := t'.attempt, startedAt := t'.startedAt)
  }

  // ------------------------------------------------- requests of the user

  predicate CancelAccepted(tasks: Tasks, id: TaskId, user: string) {
    id in tasks && tasks[id].user == user && Active(tasks[id].status)
  }

  /** A parked task is finished on the spot; any other active task is only flagged. */
  function CancelRow(t: Task, now: Time): Task {
    if t.cancelRequested then t
    else if t.status.Paused? then
      Unclaimed(t).(status := Canceled, cancelRequested := true, finishedAt := Some(now), errorMessage := CANCEL_TEXT)
    else t.(cancelRequested := true)
  }

  function AfterCancel(tasks: Tasks, id: TaskId, user: string, now: Time): Tasks {
    if CancelAccepted(tasks, id, user) then tasks[id := CancelRow(tasks[id], now)] else tasks
  }

  /** A cancel that was accepted shows in the row: it is flagged, and a parked one, which no worker would look at, has ended. */
  predicate Stopping(t: Task, t': Task, now: Time) {
    && t'.cancelRequested
    && (t.cancelRequested ==> t' == t)
    && (t.status.Paused? && !t.cancelRequested ==>
          t'.status.Canceled? && Unheld(t') && t'.finishedAt == Some(now) && t'.errorMessage == CANCEL_TEXT)
    && (!t.status.Paused? ==> t' == t.(cancelRequested := true))
  }

  datatype PauseOutcome = Refused | AlreadyPausing | CancelWins | ParkNow | AskWorker

  /** Which branch of `pause_task` a row takes. */
  function PauseBranch(tasks: Tasks, id: TaskId, user: string): PauseOutcome {
    if id !in tasks || tasks[id].user != user then Refused
    else
      var t := tasks[id];
      if t.status.Queued? && t.cancelRequested then CancelWins
      else if t.status.AwaitingApproval? || !(t.status.Queued? || t.status.Running? || t.status.Paused?)
        || t.cancelRequested then Refused
      else if t.status.Paused? || (t.status.Running? && t.pauseRequested) then AlreadyPausing
      else if t.status.Queued? then ParkNow
      else AskWorker
  }

  function AfterPause(tasks: Tasks, id: TaskId, user: string, now: Time): Tasks {
    match PauseBranch(tasks, id, user)
    case Refused => tasks
    case AlreadyPausing => tasks
    case CancelWins =>
      tasks[id := tasks[id].(status := Canceled, pauseRequested := false, finishedAt := Some(now), errorMessage := CANCEL_TEXT)]
    case ParkNow => tasks[id := tasks[id].(status := Paused, pauseRequested := false)]
    case AskWorker => tasks[id := tasks[id].(pauseRequested := true)]
  }

  /** What a pause that was accepted comes to. */
  predicate Pausing(t: Task, t': Task, now: Time) {
    && (t.status.Queued? && !t.cancelRequested ==> t'.status.Paused? && !t'.pauseRequested)
    && (t.status.Queued? && t.cancelRequested ==>
          t'.status.Canceled? && t'.cancelRequested && !t'.pauseRequested && t'.finishedAt == Some(now) && t'.errorMessage == CANCEL_TEXT)
    && (t.status.Running? ==> t' == t.(pauseRequested := true))
    && (t.status.Paused? ==> t' == t)
  }

  predicate ResumeAccepted(tasks: Tasks, id: TaskId, user: string) {
    id in tasks && tasks[id].user == user && tasks[id].status.Paused? && !tasks[id].cancelRequested
  }

  function AfterResume(tasks: Tasks, id: TaskId, user: string): Tasks {
    if ResumeAccepted(tasks, id, user) then tasks[id := Unclaimed(tasks[id]).(status := Queued)] else tasks
  }

  // -------------------------------------------------------------- recovery

  /** A claim that survives a restart: owner, token and an unexpired lease. */
  predicate ClaimSurvives(t: Task, now: Time) {
    && t.claimOwner.Some? && t.claimOwner.value != "" && t.claimToken.Some?
    && (if t.lease.Some? then t.lease.value else 0) >= now
  }

  function RecoveredRow(t: Task, now: Time): Task {
    if !Active(t.status) || ClaimSurvives(t, now) || t.status.Queued? then t
    else if t.status.Paused? then Unclaimed(t)
    else Unclaimed(t).(
      status := Failed, finishedAt := Some(now),
      errorMessage := if t.status.AwaitingApproval? then APPROVAL_LOST_TEXT else EXECUTION_LOST_TEXT)
  }

  /**
    What a restart makes of a row: one that its worker still holds stays, as does
    a queued or ended one; a parked one loses its claim; a running or waiting one
    has failed.
   */
  predicate Restarted(t: Task, t': Task, now: Time) {
    var held := t.claimOwner.Some? && t.claimOwner.value != "" && t.claimToken.Some? && t.lease.Some? && t.lease.value >= now;
    && (held || t.status.Queued? || Terminal(t.status) ==> t' == t)
    && (t.status.Paused? && !held && now > 0 ==> t'.status.Paused? && Unheld(t'))
    && ((t.status.Running? || t.status.AwaitingApproval?) && !held && now > 0 ==>
          && t'.status.Failed? && Unheld(t') && t'.finishedAt == Some(now)
          && t'.errorMessage == (if t.status.AwaitingApproval? then APPROVAL_LOST_TEXT else EXECUTION_LOST_TEXT))
    && t'.cancelRequested == t.cancelRequested
  }

  lemma RecoveryRestarts(t: Task, now: Time)
    ensures Restarted(t, RecoveredRow(t, now), now)
  {
  }

  function AfterRecovery(tasks: Tasks, now: Time): Tasks {
    map id | id in tasks :: RecoveredRow(tasks[id], now)
  }

  // ------------------------------------------- writes of the running worker

  /** `admit_task_message` of a new pause message: what it does to the row it is admitted for. */
  function AfterAdmitPause(tasks: Tasks, id: TaskId, user: string): Tasks {
    if id !in tasks || tasks[id].user != user || tasks[id].cancelRequested then tasks
    else if tasks[id].status.Queued? then tasks[id := tasks[id].(status := Paused, pauseRequested := false)]
    else if tasks[id].status.Running? then tasks[id := tasks[id].(pauseRequested := true)]
    else tasks
  }

  /** `start_lifecycle` on the task row. */
  function StartedTask(t: Task, at: Time): Task {
    t.(status := Running, startedAt := if t.startedAt.Some? then t.startedAt else Some(at), finishedAt := None, errorMessage := "")
  }

  /** `finalize_lifecycle` on the task row: the claim itself stays until the worker releases it. */
  function FinalizedTask(t: Task, status: Status, error: string, at: Time): Task {
    t.(status := status, finishedAt := Some(at), errorMessage := error)
  }

  // --------------------------------------------------------- transactions

  lemma LeastExists(tasks: Tasks, ids: set<TaskId>)
    requires ids != {} && ids <= tasks.Keys
    ensures exists least :: least in ids && forall other | other in ids && other != least :: Before(tasks, least, other)
  {
    var some :| some in ids;
    if ids == {some} {
    } else {
      LeastExists(tasks, ids - {some});
      var least :| least in ids - {some}
        && forall other | other in ids - {some} && other != least :: Before(tasks, least, other);
      if Before(tasks, some, least) {
        forall other | other in ids && other != some ensures Before(tasks, some, other) {
          assert other == least || Before(tasks, least, other);
        }
      } else {
        assert Before(tasks, least, some);
        assert forall other | other in ids && other != least :: Before(tasks, least, other);
      }
    }
  }

  /** `SELECT ... ORDER BY created_at, id` over the candidate rows. */
  method SelectCandidates(tasks: Tasks, now: Time) returns (rows: seq<TaskId>)
    ensures forall id :: id in rows <==> id in tasks && Candidate(tasks[id], now)
    ensures forall i, j | 0 <= i < j < |rows| :: Before(tasks, rows[i], rows[j])
  {
    var rest := set id | id in tasks && Candidate(tasks[id], now);
    rows := [];
    while rest != {}
      invariant rest <= tasks.Keys
      invariant forall id :: (id in rows || id in rest) <==> (id in tasks && Candidate(tasks[id], now))
      invariant forall i, j | 0 <= i < j < |rows| :: Before(tasks, rows[i], rows[j])
      invariant forall i, id | 0 <= i < |rows| && id in rest :: Before(tasks, rows[i], id)
      decreases rest
    {
      LeastExists(tasks, rest);
      var least :| least in rest && forall other | other in rest && other != least :: Before(tasks, least, other);
      rest := rest - {least};
      rows := rows + [least];
    }
  }

  /** `claim_next_task`. */
  method ClaimNextTask(db: Database, worker: string, leaseSeconds: Time, now: Time, token: Token)
    returns (result: Option<TaskId>)
    modifies db`tasks
    ensures ClaimEffect(old(db.tasks), db.dependencies, worker, leaseSeconds, now, token, result, db.tasks)
    ensures result.Some? ==>
      && (forall at: Time :: ClaimValid(db.tasks, result.value, worker, token, at) <==> at <= now + leaseSeconds)
      && HandedOut(old(db.tasks)[result.value], db.tasks[result.value], worker, token, now)
  {
    var rows := SelectCandidates(db.tasks, now);
    for i := 0 to |rows|
      invariant db.tasks == old(db.tasks)
      invariant forall k | 0 <= k < i :: !Claimable(db.tasks, db.dependencies, rows[k], now)
    {
      var id := rows[i];
      var t := db.tasks[id];
      if exists other | other in db.tasks && other != id :: Blocks(t, db.tasks[other], now) {
        continue;
      }
      if exists d | d in db.dependencies && d.0 == id :: !HasSucceeded(db.tasks, d.1) {
        continue;
      }
      assert Claimable(db.tasks, db.dependencies, id, now);
      forall other | other in db.tasks && other != id && Claimable(db.tasks, db.dependencies, other, now)
        ensures Before(db.tasks, id, other)
      {
        var k :| 0 <= k < |rows| && rows[k] == other;
        assert i < k;
      }
      db.tasks := db.tasks[id := Claimed(t, worker, leaseSeconds, now, token)];
      return Some(id);
    }
    return None;
  }

  /** `heartbeat_task`. */
  method HeartbeatTask(db: Database, id: TaskId, worker: string, leaseSeconds: Time, token: Option<Token>, now: Time)
    returns (renewed: bool)
    modifies db`tasks
    ensures renewed == HeartbeatAccepted(old(db.tasks), id, worker, token)
    ensures db.tasks == AfterHeartbeat(old(db.tasks), id, worker, leaseSeconds, token, now)
    ensures renewed ==>
      && OnlyRow(old(db.tasks), db.tasks, id)
      && (forall at: Time :: LiveLease(db.tasks[id], at) <==> at <= now + leaseSeconds)
      && db.tasks[id] == old(db.tasks)[id].(heartbeatAt := Some(now), lease := Some(now + leaseSeconds))
    ensures !renewed ==> db.tasks == old(db.tasks)
  {
    if id !in db.tasks { return false; }
    var t := db.tasks[id];
    if t.claimOwner != Some(worker) || !(t.status.Running? || t.status.AwaitingApproval?) { return false; }
    if token.Some? && t.claimToken != token { return false; }
    db.tasks := db.tasks[id := t.(heartbeatAt := Some(now), lease := Some(now + leaseSeconds))];
    return true;
  }

  /** `claim_is_valid`. */
  method ClaimIsValid(db: Database, id: TaskId, worker: string, token: Token, now: Time) returns (valid: bool)
    ensures valid == ClaimValid(db.tasks, id, worker, token, now)
  {
    if id !in db.tasks { return false; }
    var t := db.tasks[id];
    valid := t.claimOwner == Some(worker) && t.claimToken == Some(token)
      && Holding(t.status) && t.lease.Some? && now <= t.lease.value;
  }

  /** `release_task`. */
  method ReleaseTask(
    db: Database, id: TaskId, worker: string, status: Status, token: Option<Token>, error: Option<string>, now: Time)
    returns (released: bool)
    modifies db`tasks
    ensures released == OwnedBy(old(db.tasks), id, worker, token)
    ensures db.tasks == AfterRelease(old(db.tasks), id, worker, status, token, error, now)
    ensures !released ==> db.tasks == old(db.tasks)
    ensures released ==>
      && OnlyRow(old(db.tasks), db.tasks, id) && GivenBack(old(db.tasks)[id], db.tasks[id], status, error, now)
  {
    var final, finishes, message := status, Terminal(status), error;
    if status.Paused? {
      if !OwnedBy(db.tasks, id, worker, token) { return false; }
      if db.tasks[id].cancelRequested {
        final, finishes := Canceled, true;
        if message.None? { message := Some(CANCEL_TEXT); }
      }
    }
    if !OwnedBy(db.tasks, id, worker, token) { return false; }
    var t := Unclaimed(db.tasks[id]).(status := final);
    if finishes { t := t.(finishedAt := Some(now)); }
    if message.Some? { t := t.(errorMessage := message.value); }
    db.tasks := db.tasks[id := t];
    return true;
  }

  /** `request_cancel`. */
  method RequestCancel(db: Database, id: TaskId, user: string, now: Time) returns (accepted: bool)
    modifies db`tasks
    ensures accepted == CancelAccepted(old(db.tasks), id, user)
    ensures db.tasks == AfterCancel(old(db.tasks), id, user, now)
    ensures accepted <==>
      && id in old(db.tasks) && old(db.tasks)[id].user == user
      && old(db.tasks)[id].status in {Queued, Running, AwaitingApproval, Paused}
    ensures accepted ==>
      && OnlyRow(old(db.tasks), db.tasks, id) && Stopping(old(db.tasks)[id], db.tasks[id], now)
    ensures !accepted ==> db.tasks == old(db.tasks)
  {
    if id !in db.tasks || db.tasks[id].user != user { return false; }
    var t := db.tasks[id];
    if !Active(t.status) { return false; }
    if t.cancelRequested {
      assert db.tasks == db.tasks[id := t];
      return true;
    }
    if t.status.Paused? {
      t := Unclaimed(t).(status := Canceled, cancelRequested := true, finishedAt := Some(now), errorMessage := CANCEL_TEXT);
    } else {
      t := t.(cancelRequested := true);
    }
    db.tasks := db.tasks[id := t];
    return true;
  }

  /** `INSERT OR IGNORE INTO task_messages`: a message key is taken once per task. */
  function InsertOrIgnore(messages: seq<Message>, task: TaskId, key: MessageKey, kind: MessageType): seq<Message> {
    if exists m | m in messages :: m.task == task && m.key == key then messages
    else messages + [Message(NextMessageId(messages), task, key, kind, Obj(map[]), false)]
  }

  /** AUTOINCREMENT: one above every identifier in the table. */
  function NextMessageId(messages: seq<Message>): (id: MessageId)
    ensures forall m | m in messages :: m.id < id
  {
    if messages == [] then 0
    else
      var rest := NextMessageId(messages[1..]);
      assert forall m | m in messages :: m == messages[0] || m in messages[1..];
      if messages[0].id < rest then rest else messages[0].id + 1
  }

  /** `pause_task`. */
  method PauseTask(db: Database, id: TaskId, user: string, now: Time) returns (accepted: bool)
    modifies db`tasks, db`messages
    ensures accepted == !PauseBranch(old(db.tasks), id, user).Refused?
    ensures accepted <==>
      && id in old(db.tasks) && old(db.tasks)[id].user == user
      && (old(db.tasks)[id].status.Queued?
          || (!old(db.tasks)[id].cancelRequested && (old(db.tasks)[id].status.Running? || old(db.tasks)[id].status.Paused?)))
    ensures accepted ==>
      && OnlyRow(old(db.tasks), db.tasks, id) && Pausing(old(db.tasks)[id], db.tasks[id], now)
    ensures !accepted ==> db.tasks == old(db.tasks) && db.messages == old(db.messages)
    ensures db.tasks == AfterPause(old(db.tasks), id, user, now)
    ensures db.messages ==
      if PauseBranch(old(db.tasks), id, user).ParkNow? || PauseBranch(old(db.tasks), id, user).AskWorker?
      then InsertOrIgnore(old(db.messages), id, PauseOf(id), PauseMessage)
      else old(db.messages)
  {
    if id !in db.tasks || db.tasks[id].user != user { return false; }
    var t := db.tasks[id];
    if t.status.Queued? && t.cancelRequested {
      db.tasks := db.tasks[id := t.(status := Canceled, pauseRequested := false, finishedAt := Some(now), errorMessage := CANCEL_TEXT)];
      return true;
    }
    if t.status.AwaitingApproval? || !(t.status.Queued? || t.status.Running? || t.status.Paused?) || t.cancelRequested {
      return false;
    }
    if t.status.Paused? || (t.status.Running? && t.pauseRequested) { return true; }
    if t.status.Queued? {
      db.tasks := db.tasks[id := t.(status := Paused, cancelRequested := false, pauseRequested := false)];
    } else {
      db.tasks := db.tasks[id := t.(pauseRequested := true)];
    }
    db.messages := InsertOrIgnore(db.messages, id, PauseOf(id), PauseMessage);
    return true;
  }

  /** Marks the pause messages of a task as consumed. */
  function ConsumePauses(messages: seq<Message>, task: TaskId): (r: seq<Message>)
  {
    seq(|messages|, i requires 0 <= i < |messages| =>
      if messages[i].task == task && messages[i].kind.PauseMessage? then messages[i].(consumed := true) else messages[i])
  }

  /** `resume_task`. */
  method ResumeTask(db: Database, id: TaskId, user: string) returns (resumed: bool)
    modifies db`tasks, db`messages
    ensures resumed == ResumeAccepted(old(db.tasks), id, user)
    ensures resumed <==>
      && id in old(db.tasks) && old(db.tasks)[id].user == user
      && old(db.tasks)[id].status == Paused && !old(db.tasks)[id].cancelRequested
    ensures resumed ==>
      && OnlyRow(old(db.tasks), db.tasks, id)
      && db.tasks[id].status.Queued? && Unheld(db.tasks[id]) && !db.tasks[id].cancelRequested
    ensures resumed ==> forall m | m in db.messages && m.task == id && m.kind.PauseMessage? :: m.consumed
    ensures !resumed ==> db.tasks == old(db.tasks) && db.messages == old(db.messages)
    ensures db.tasks == AfterResume(old(db.tasks), id, user)
    ensures db.messages ==
      if resumed then ConsumePauses(InsertOrIgnore(old(db.messages), id, ResumeOf(id), ResumeMessage), id)
      else old(db.messages)
  {
    if id !in db.tasks || db.tasks[id].user != user { return false; }
    var t := db.tasks[id];
    if !t.status.Paused? || t.cancelRequested { return false; }
    db.tasks := db.tasks[id := Unclaimed(t).(status := Queued)];
    db.messages := InsertOrIgnore(db.messages, id, ResumeOf(id), ResumeMessage);
    db.messages := ConsumePauses(db.messages, id);
    return true;
  }

  /** The loop body of the first transaction of `recover_interrupted`, on one active row. */
  method RecoverRow(t: Task, now: Time) returns (t': Task)
    requires Active(t.status)
    ensures t' == RecoveredRow(t, now)
  {
    if t.claimOwner.Some? && t.claimOwner.value != "" && t.claimToken.Some?
      && (if t.lease.Some? then t.lease.value else 0) >= now {
      return t;
    }
    if t.status.Queued? { return t; }
    if t.status.Paused? { return Unclaimed(t); }
    var message := if t.status.AwaitingApproval? then APPROVAL_LOST_TEXT else EXECUTION_LOST_TEXT;
    return Unclaimed(t).(status := Failed, finishedAt := Some(now), errorMessage := message);
  }

  /** The first transaction of `recover_interrupted`. */
  method RecoverTasks(db: Database, now: Time)
    modifies db`tasks
    ensures db.tasks == AfterRecovery(old(db.tasks), now)
    ensures db.tasks.Keys == old(db.tasks).Keys
    ensures forall id | id in db.tasks :: Restarted(old(db.tasks)[id], db.tasks[id], now)
  {
    var before := db.tasks;
    var todo := set id | id in before && Active(before[id].status);
    while todo != {}
      invariant todo <= before.Keys
      invariant db.tasks.Keys == before.Keys
      invariant forall id | id in todo :: db.tasks[id] == before[id] && Active(before[id].status)
      invariant forall id | id in before && id !in todo :: db.tasks[id] == RecoveredRow(before[id], now)
      decreases todo
    {
      var id :| id in todo;
      todo := todo - {id};
      var row := RecoverRow(before[id], now);
      db.tasks := db.tasks[id := row];
    }
    hide Restarted, RecoveredRow;
    forall id | id in before ensures Restarted(before[id], db.tasks[id], now) { RecoveryRestarts(before[id], now); }
  }
}
