/**
  Whole runs of the task queue: what holds in every reachable state, whatever
  the order in which workers, users and restarts act on it.
 */
module QueueRuns {
  import opened JsonValue
  import opened Tables
  import opened TaskQueue

  /**
    The queue with what history adds to it: the clock, the claim tokens handed
    out so far and the tasks in the order of their first claim.
   */
  datatype Queue = Queue(tasks: Tasks, deps: Dependencies, clock: Time, issued: set<Token>, claims: seq<TaskId>)

  datatype Step =
    | Enqueue(id: TaskId, row: Task)
    | AddDependency(id: TaskId, on: TaskId)
    | Claim(worker: string, leaseSeconds: Time, token: Token, result: Option<TaskId>)
    | Heartbeat(id: TaskId, worker: string, leaseSeconds: Time, proof: Option<Token>)
    | Start(id: TaskId)
    | SetStatus(id: TaskId, status: Status)
    | Finalize(id: TaskId, status: Status, error: string)
    | Release(id: TaskId, worker: string, status: Status, proof: Option<Token>, reason: Option<string>)
    | Cancel(id: TaskId, user: string)
    | Pause(id: TaskId, user: string)
    | AdmitPause(id: TaskId, user: string)
    | Resume(id: TaskId, user: string)
    | Recover

  /** A row as the submission paths insert it. */
  predicate FreshRow(t: Task) {
    && t.status.Queued? && !t.cancelRequested && !t.pauseRequested
    && t.claimOwner.None? && t.claimToken.None? && t.lease.None? && t.attempt == 0
  }

  /** What a step that is no claim does to the task table. */
  function TasksAfter(tasks: Tasks, step: Step, now: Time): Tasks
    requires !step.Claim?
  {
    match step
    case Enqueue(id, row) => tasks[id := row]
    case AddDependency(_, _) => tasks
    case Heartbeat(id, worker, leaseSeconds, proof) => AfterHeartbeat(tasks, id, worker, leaseSeconds, proof, now)
    case Start(id) => if id in tasks then tasks[id := StartedTask(tasks[id], now)] else tasks
    case SetStatus(id, status) => if id in tasks then tasks[id := tasks[id].(status := status)] else tasks
    case Finalize(id, status, error) => if id in tasks then tasks[id := FinalizedTask(tasks[id], status, error, now)] else tasks
    case Release(id, worker, status, proof, reason) => AfterRelease(tasks, id, worker, status, proof, reason, now)
    case Cancel(id, user) => AfterCancel(tasks, id, user, now)
    case Pause(id, user) => AfterPause(tasks, id, user, now)
    case AdmitPause(id, user) => AfterAdmitPause(tasks, id, user)
    case Resume(id, user) => AfterResume(tasks, id, user)
    case Recover => AfterRecovery(tasks, now)
  }

  /** The guards the code itself enforces, or the values its callers always pass. */
  predicate Enabled(q: Queue, step: Step) {
    match step
    case Enqueue(id, row) => id !in q.tasks && FreshRow(row)
    case AddDependency(id, on) => id in q.tasks && on in q.tasks
    case Claim(_, _, token, _) => token !in q.issued
    case SetStatus(_, status) => Holding(status)
    case Finalize(_, status, _) => Terminal(status)
    case Release(_, _, status, _, _) => Terminal(status) || status.Paused?
    case _ => true
  }

  ghost predicate Next(q: Queue, step: Step, q': Queue) {
    && Enabled(q, step)
    && q.clock <= q'.clock
    && q'.deps == (if step.AddDependency? then q.deps + {(step.id, step.on)} else q.deps)
    && if step.Claim? then
         && ClaimEffect(q.tasks, q.deps, step.worker, step.leaseSeconds, q'.clock, step.token, step.result, q'.tasks)
         && q'.issued == q.issued + {step.token}
         && q'.claims ==
              if step.result.Some? && step.result.value !in q.claims then q.claims + [step.result.value] else q.claims
       else
         q'.tasks == TasksAfter(q.tasks, step, q'.clock) && q'.issued == q.issued && q'.claims == q.claims
  }

  predicate Initial(q: Queue) {
    q.tasks == map[] && q.deps == {} && q.issued == {} && q.claims == []
  }

  ghost predicate Run(states: seq<Queue>, steps: seq<Step>) {
    && |states| == |steps| + 1
    && Initial(states[0])
    && forall i | 0 <= i < |steps| :: Next(states[i], steps[i], states[i + 1])
  }

  // ------------------------------------------------ hypotheses on the callers

  /** A heartbeat is sent only while the sender's lease is live. */
  predicate TimelyHeartbeat(q: Queue, step: Step, now: Time) {
    step.Heartbeat? && HeartbeatAccepted(q.tasks, step.id, step.worker, step.proof) ==>
      LiveLease(q.tasks[step.id], now)
  }

  /**
    Lifecycle writes come from a worker whose task is still held; a release may
    also follow its own finalization, repeating the status already there.
   */
  predicate HeldWrite(q: Queue, step: Step) {
    match step
    case Start(id) => id in q.tasks ==> Holding(q.tasks[id].status)
    case SetStatus(id, _) => id in q.tasks ==> Holding(q.tasks[id].status)
    case Finalize(id, _, _) => id in q.tasks ==> Holding(q.tasks[id].status)
    case Release(id, worker, status, proof, _) =>
      OwnedBy(q.tasks, id, worker, proof) ==>
        Holding(q.tasks[id].status) || q.tasks[id].status.Paused? || q.tasks[id].status == status
    case _ => true
  }

  /** Keys say whose lock they are: a main key belongs to a row without parent of that user and project. */
  ghost predicate WellKeyed(t: Task) {
    && ':' !in t.user
    && (Keyless(t) ==> t.contextLockKey == "" || (t.contextLockKey == MainKey(t.user, t.project) && t.parent.None? && t.role == ""))
    && (forall user: string, project: string {:trigger MainKey(user, project)} ::
          ':' !in user && t.writeLockKey == MainKey(user, project) ==>
            t.user == user && t.project == project && t.parent.None?)
  }

  ghost predicate KeyedEnqueue(step: Step) {
    step.Enqueue? ==> WellKeyed(step.row)
  }

  /** Dependencies are added only before a task's first claim. */
  predicate EarlyDependency(q: Queue, step: Step) {
    step.AddDependency? ==> step.id !in q.claims
  }

  ghost predicate TimelyHeartbeats(states: seq<Queue>, steps: seq<Step>)
    requires |states| == |steps| + 1
  {
    forall i | 0 <= i < |steps| :: TimelyHeartbeat(states[i], steps[i], states[i + 1].clock)
  }

  ghost predicate HeldWrites(states: seq<Queue>, steps: seq<Step>)
    requires |states| == |steps| + 1
  {
    forall i | 0 <= i < |steps| :: HeldWrite(states[i], steps[i])
  }

  ghost predicate KeyedEnqueues(steps: seq<Step>) {
    forall i | 0 <= i < |steps| :: KeyedEnqueue(steps[i])
  }

  ghost predicate EarlyDependencies(states: seq<Queue>, steps: seq<Step>)
    requires |states| == |steps| + 1
  {
    forall i | 0 <= i < |steps| :: EarlyDependency(states[i], steps[i])
  }

  // ---------------------------------------------------------- single writer

  predicate SameLock(a: Task, b: Task) {
    EffectiveKey(a).Some? && EffectiveKey(a) == EffectiveKey(b)
  }

  /** No two tasks with the same effective key both hold a live lease. */
  ghost predicate Exclusive(tasks: Tasks, now: Time) {
    forall a, b | a in tasks && b in tasks && a != b && SameLock(tasks[a], tasks[b]) ::
      !(LiveLease(tasks[a], now) && LiveLease(tasks[b], now))
  }

  ghost predicate AllKeyed(tasks: Tasks) {
    forall id | id in tasks :: WellKeyed(tasks[id])
  }

  lemma MainKeyInjective(u: string, p: string, v: string, q: string)
    requires ':' !in u && ':' !in v
    requires MainKey(u, p) == MainKey(v, q)
    ensures u == v && p == q
  {
    var a, b := MainKey(u, p), MainKey(v, q);
    assert a[5..] == u + (":" + p) && b[5..] == v + (":" + q);
    ColonEndsUser(u, p, v, q);
    assert a[5..][..|u|] == u && b[5..][..|u|] == v;
    assert a[5..][|u| + 1..] == p && b[5..][|u| + 1..] == q;
  }

  lemma ColonEndsUser(u: string, p: string, v: string, q: string)
    requires ':' !in u && ':' !in v
    requires u + (":" + p) == v + (":" + q)
    ensures |u| == |v|
  {
    assert (u + (":" + p))[|u|] == ':' && (v + (":" + q))[|v|] == ':';
  }

  /** The claim's conflict query sees every live holder of the same effective key. */
  lemma BlocksSeesSameLock(t: Task, other: Task, now: Time)
    requires WellKeyed(t) && WellKeyed(other)
    requires SameLock(t, other) && LiveLease(other, now)
    ensures Blocks(t, other, now)
  {
    if Keyless(t) {
      assert EffectiveKey(t) == Some(MainKey(t.user, t.project));
      if Keyless(other) {
        MainKeyInjective(t.user, t.project, other.user, other.project);
      }
    } else if Keyless(other) {
      assert t.writeLockKey == MainKey(other.user, other.project);
    }
  }

  /** For a task with a key of its own the query sees nothing else either. */
  lemma BlocksExactly(t: Task, other: Task, now: Time)
    requires WellKeyed(t) && WellKeyed(other) && t.writeLockKey != ""
    ensures Blocks(t, other, now) <==> LiveLease(other, now) && SameLock(t, other)
  {
    if LiveLease(other, now) && SameLock(t, other) { BlocksSeesSameLock(t, other, now); }
  }

  /**
    A main task without any key waits for whoever holds the main lock of its
    project and, though no lock is shared, for a keyless task there that has a
    role but no parent.  A keyless child waits for nobody.
   */
  lemma KeylessBlocksExactly(t: Task, other: Task, now: Time)
    requires WellKeyed(t) && WellKeyed(other) && t.writeLockKey == "" && t.contextLockKey == ""
    ensures Blocks(t, other, now) <==>
      && t.parent == None && t.role == "" && LiveLease(other, now)
      && (SameLock(t, other)
          || (other.writeLockKey == "" && other.parent == None && other.role != "" && other.user == t.user && other.project == t.project))
  {
    if LiveLease(other, now) && SameLock(t, other) { BlocksSeesSameLock(t, other, now); }
  }

  /**
    A claim that finds nothing left no work undone: every queued task with a key,
    and every running one whose lease is over, waits for a dependency that has
    not succeeded or for a live holder of the same lock.
   */
  lemma NothingClaimedMeansWaiting(
    tasks: Tasks, deps: Dependencies, worker: string, leaseSeconds: Time, now: Time, token: Token, tasks': Tasks, id: TaskId)
    requires ClaimEffect(tasks, deps, worker, leaseSeconds, now, token, None, tasks') && AllKeyed(tasks)
    requires id in tasks && tasks[id].writeLockKey != ""
    requires tasks[id].status.Queued? || (tasks[id].status.Running? && tasks[id].lease.Some? && tasks[id].lease.value < now)
    ensures
      || (exists on :: (id, on) in deps && (on !in tasks || !tasks[on].status.Succeeded?))
      || (exists other | other in tasks && other != id :: LiveLease(tasks[other], now) && SameLock(tasks[id], tasks[other]))
  {
    assert !Claimable(tasks, deps, id, now);
    if !DependenciesMet(tasks, deps, id) {
      var d :| d in deps && d.0 == id && !HasSucceeded(tasks, d.1);
      assert (id, d.1) in deps;
    } else {
      var other :| other in tasks && other != id && Blocks(tasks[id], tasks[other], now);
      BlocksExactly(tasks[id], tasks[other], now);
    }
  }

  /** What a claim hands out: the oldest task that may run, to this worker alone, for exactly the time asked. */
  lemma ClaimGrants(
    tasks: Tasks, deps: Dependencies, worker: string, leaseSeconds: Time, now: Time, token: Token, id: TaskId, tasks': Tasks)
    requires ClaimEffect(tasks, deps, worker, leaseSeconds, now, token, Some(id), tasks')
    ensures id in tasks && tasks'.Keys == tasks.Keys && forall other | other in tasks && other != id :: tasks'[other] == tasks[other]
    ensures tasks[id].status.Queued? || (tasks[id].status.Running? && tasks[id].lease.Some? && tasks[id].lease.value < now)
    ensures forall on | (id, on) in deps :: on in tasks && tasks[on].status.Succeeded?
    ensures forall other | other in tasks && other != id && Claimable(tasks, deps, other, now) ::
      tasks[id].createdAt < tasks[other].createdAt || (tasks[id].createdAt == tasks[other].createdAt && id < other)
    ensures forall who: string, with: Token, at: Time ::
      ClaimValid(tasks', id, who, with, at) <==> who == worker && with == token && at <= now + leaseSeconds
    ensures tasks'[id].attempt == tasks[id].attempt + 1 && !tasks'[id].pauseRequested
    ensures tasks'[id].cancelRequested == tasks[id].cancelRequested
  {
    forall on | (id, on) in deps ensures on in tasks && tasks[on].status.Succeeded? {
      assert HasSucceeded(tasks, (id, on).1);
    }
  }

  lemma {:induction false} ClaimKeepsExclusive(
    tasks: Tasks, deps: Dependencies, worker: string, leaseSeconds: Time, now: Time, token: Token,
    result: Option<TaskId>, tasks': Tasks)
    requires AllKeyed(tasks) && Exclusive(tasks, now)
    requires ClaimEffect(tasks, deps, worker, leaseSeconds, now, token, result, tasks')
    ensures Exclusive(tasks', now)
  {
    if result.Some? {
      var id := result.value;
      forall other | other in tasks && other != id && SameLock(tasks'[id], tasks'[other])
        ensures !LiveLease(tasks'[other], now)
      {
        assert SameLock(tasks[id], tasks[other]);
        if LiveLease(tasks[other], now) {
          BlocksSeesSameLock(tasks[id], tasks[other], now);
        }
      }
    }
  }

  /** Every step but a heartbeat and a claim can only end live leases. */
  lemma OtherStepsCreateNoLease(q: Queue, step: Step, q': Queue, id: TaskId)
    requires Next(q, step, q') && HeldWrite(q, step)
    requires !step.Claim? && !step.Heartbeat? && id in q'.tasks && LiveLease(q'.tasks[id], q'.clock)
    ensures id in q.tasks && LiveLease(q.tasks[id], q'.clock) && EffectiveKey(q.tasks[id]) == EffectiveKey(q'.tasks[id])
  {
  }

  lemma StepKeepsKeys(q: Queue, step: Step, q': Queue)
    requires Next(q, step, q') && KeyedEnqueue(step) && AllKeyed(q.tasks)
    ensures AllKeyed(q'.tasks)
  {
    forall id | id in q'.tasks ensures WellKeyed(q'.tasks[id]) {
      if id in q.tasks {
        SameKeys(q, step, q', id);
        SameWellKeyed(q.tasks[id], q'.tasks[id]);
      }
    }
  }

  lemma SameWellKeyed(t: Task, t': Task)
    requires LockParts(t) == LockParts(t') && WellKeyed(t)
    ensures WellKeyed(t')
  {
  }

  /** What a row's lock is made of. */
  function LockParts(t: Task): (string, string, Option<TaskId>, string, string, string) {
    (t.user, t.project, t.parent, t.role, t.writeLockKey, t.contextLockKey)
  }

  /** No step changes what a row's lock is made of. */
  lemma SameKeys(q: Queue, step: Step, q': Queue, id: TaskId)
    requires Next(q, step, q') && id in q.tasks && id in q'.tasks
    ensures LockParts(q'.tasks[id]) == LockParts(q.tasks[id])
  {
  }

  /** A timely heartbeat makes nobody's lease live that was not live before. */
  lemma TimelyHeartbeatCreatesNoLease(q: Queue, step: Step, q': Queue, id: TaskId)
    requires Next(q, step, q') && step.Heartbeat? && TimelyHeartbeat(q, step, q'.clock)
    requires id in q'.tasks && LiveLease(q'.tasks[id], q'.clock)
    ensures id in q.tasks && LiveLease(q.tasks[id], q'.clock) && EffectiveKey(q.tasks[id]) == EffectiveKey(q'.tasks[id])
  {
  }

  lemma TimelyHeartbeatKeepsExclusive(q: Queue, step: Step, q': Queue)
    requires Next(q, step, q') && step.Heartbeat?
    requires TimelyHeartbeat(q, step, q'.clock) && Exclusive(q.tasks, q'.clock)
    ensures Exclusive(q'.tasks, q'.clock)
  {
    hide Next, TimelyHeartbeat, LiveLease, EffectiveKey;
    forall a, b | a in q'.tasks && b in q'.tasks && a != b && SameLock(q'.tasks[a], q'.tasks[b])
        && LiveLease(q'.tasks[a], q'.clock) && LiveLease(q'.tasks[b], q'.clock)
      ensures false
    {
      TimelyHeartbeatCreatesNoLease(q, step, q', a);
      TimelyHeartbeatCreatesNoLease(q, step, q', b);
    }
  }

  lemma QuietStepKeepsExclusive(q: Queue, step: Step, q': Queue)
    requires Next(q, step, q') && HeldWrite(q, step) && !step.Claim? && !step.Heartbeat?
    requires Exclusive(q.tasks, q'.clock)
    ensures Exclusive(q'.tasks, q'.clock)
  {
    forall a, b | a in q'.tasks && b in q'.tasks && a != b && SameLock(q'.tasks[a], q'.tasks[b])
        && LiveLease(q'.tasks[a], q'.clock) && LiveLease(q'.tasks[b], q'.clock)
      ensures false
    {
      OtherStepsCreateNoLease(q, step, q', a);
      OtherStepsCreateNoLease(q, step, q', b);
    }
  }

  lemma {:induction false} StepKeepsExclusive(q: Queue, step: Step, q': Queue)
    requires Next(q, step, q')
    requires TimelyHeartbeat(q, step, q'.clock) && HeldWrite(q, step) && KeyedEnqueue(step)
    requires AllKeyed(q.tasks) && Exclusive(q.tasks, q.clock)
    ensures AllKeyed(q'.tasks) && Exclusive(q'.tasks, q'.clock)
  {
    StepKeepsKeys(q, step, q');
    assert Exclusive(q.tasks, q'.clock);
    if step.Claim? {
      ClaimKeepsExclusive(q.tasks, q.deps, step.worker, step.leaseSeconds, q'.clock, step.token, step.result, q'.tasks);
    } else if step.Heartbeat? {
      TimelyHeartbeatKeepsExclusive(q, step, q');
    } else {
      QuietStepKeepsExclusive(q, step, q');
    }
  }

  /**
    Single writer: on every run with a non-decreasing clock, timely heartbeats
    and well-formed keys, no two tasks with the same effective write-lock key
    ever hold live leases together.
   */
  lemma {:induction false} SingleWriter(states: seq<Queue>, steps: seq<Step>, i: nat)
    requires Run(states, steps) && i < |states|
    requires TimelyHeartbeats(states, steps) && HeldWrites(states, steps) && KeyedEnqueues(steps)
    ensures AllKeyed(states[i].tasks) && Exclusive(states[i].tasks, states[i].clock)
  {
    if i > 0 {
      SingleWriter(states, steps, i - 1);
      assert Next(states[i - 1], steps[i - 1], states[i]);
      assert TimelyHeartbeat(states[i - 1], steps[i - 1], states[i].clock);
      assert HeldWrite(states[i - 1], steps[i - 1]);
      assert KeyedEnqueue(steps[i - 1]);
      StepKeepsExclusive(states[i - 1], steps[i - 1], states[i]);
    }
  }

  /**
    Why heartbeats must be timely, exactly: an accepted heartbeat with a lease
    that reaches the present keeps exclusion if and only if the sender's lease
    was still live or nobody else has taken its lock meanwhile.
   */
  lemma HeartbeatKeepsExclusiveExactly(
    tasks: Tasks, id: TaskId, worker: string, leaseSeconds: nat, proof: Option<Token>, now: Time)
    requires Exclusive(tasks, now) && HeartbeatAccepted(tasks, id, worker, proof)
    ensures Exclusive(AfterHeartbeat(tasks, id, worker, leaseSeconds, proof, now), now) <==>
      || LiveLease(tasks[id], now)
      || forall other | other in tasks && other != id && SameLock(tasks[id], tasks[other]) :: !LiveLease(tasks[other], now)
  {
    var after := AfterHeartbeat(tasks, id, worker, leaseSeconds, proof, now);
    assert LiveLease(after[id], now);
    assert forall other | other in tasks && other != id :: SameLock(after[id], after[other]) == SameLock(tasks[id], tasks[other]);
    if Exclusive(after, now) && !LiveLease(tasks[id], now) {
      forall other | other in tasks && other != id && SameLock(tasks[id], tasks[other])
        ensures !LiveLease(tasks[other], now)
      {
        assert SameLock(after[id], after[other]);
      }
    }
  }

  function SampleRow(status: Status, lease: Time, owner: string): Task {
    Task("u", "p", None, 0, status, false, false, None, "", MainKey("u", "p"), MainKey("u", "p"),
         Some(owner), Some(0), Some(lease), None, 1, None, None, "", None, None, 0)
  }

  /** A late heartbeat does break exclusion: the lock moved on when the first lease ran out. */
  lemma LateHeartbeatBreaksExclusion()
    ensures var tasks: Tasks := map[1 := SampleRow(Running, 10, "late"), 2 := SampleRow(Running, 40, "current")];
      && Exclusive(tasks, 20)
      && HeartbeatAccepted(tasks, 1, "late", None)
      && !Exclusive(AfterHeartbeat(tasks, 1, "late", 30, None, 20), 20)
  {
    var tasks: Tasks := map[1 := SampleRow(Running, 10, "late"), 2 := SampleRow(Running, 40, "current")];
    var after := AfterHeartbeat(tasks, 1, "late", 30, None, 20);
    assert SameLock(after[1], after[2]) && LiveLease(after[1], 20) && LiveLease(after[2], 20);
  }

  // --------------------------------------------------------------- fencing

  /** Tokens in the table were handed out, and no two rows carry the same one. */
  ghost predicate TokensFenced(q: Queue) {
    && (forall id | id in q.tasks && q.tasks[id].claimToken.Some? :: q.tasks[id].claimToken.value in q.issued)
    && (forall a, b | a in q.tasks && b in q.tasks && a != b && q.tasks[a].claimToken.Some? ::
          q.tasks[a].claimToken != q.tasks[b].claimToken)
  }

  /** A step other than a claim never writes a token. */
  lemma TokensOnlyFromClaims(q: Queue, step: Step, q': Queue, id: TaskId)
    requires Next(q, step, q') && id in q'.tasks && q'.tasks[id].claimToken.Some?
    ensures
      || (step.Claim? && step.result == Some(id) && q'.tasks[id].claimToken == Some(step.token))
      || (id in q.tasks && q'.tasks[id].claimToken == q.tasks[id].claimToken)
  {
  }

  lemma {:induction false} TokensStayFenced(states: seq<Queue>, steps: seq<Step>, i: nat)
    requires Run(states, steps) && i < |states|
    ensures TokensFenced(states[i])
  {
    if i > 0 {
      TokensStayFenced(states, steps, i - 1);
      var q, step, q' := states[i - 1], steps[i - 1], states[i];
      assert Next(q, step, q');
      forall id | id in q'.tasks && q'.tasks[id].claimToken.Some?
        ensures q'.tasks[id].claimToken.value in q'.issued
      {
        TokensOnlyFromClaims(q, step, q', id);
      }
      forall a, b | a in q'.tasks && b in q'.tasks && a != b && q'.tasks[a].claimToken.Some?
        ensures q'.tasks[a].claimToken != q'.tasks[b].claimToken
      {
        TokensOnlyFromClaims(q, step, q', a);
        if q'.tasks[b].claimToken.Some? { TokensOnlyFromClaims(q, step, q', b); }
      }
    }
  }

  lemma StepKeepsFence(q: Queue, step: Step, q': Queue, id: TaskId, token: Token)
    requires Next(q, step, q') && token in q.issued
    requires forall other | other in q.tasks && other != id :: q.tasks[other].claimToken != Some(token)
    ensures token in q'.issued
    ensures forall other | other in q'.tasks && other != id :: q'.tasks[other].claimToken != Some(token)
  {
    forall other | other in q'.tasks && other != id ensures q'.tasks[other].claimToken != Some(token) {
      if q'.tasks[other].claimToken.Some? { TokensOnlyFromClaims(q, step, q', other); }
    }
    hide ClaimEffect, TasksAfter;
  }

  /** From the moment a row carries a token, no other row ever carries it. */
  lemma {:induction false} TokenBelongsToOneTask(states: seq<Queue>, steps: seq<Step>, i: nat, k: nat, id: TaskId, token: Token)
    requires Run(states, steps) && i <= k < |states|
    requires id in states[i].tasks && states[i].tasks[id].claimToken == Some(token)
    ensures token in states[k].issued
    ensures forall other | other in states[k].tasks && other != id :: states[k].tasks[other].claimToken != Some(token)
  {
    if i < k {
      TokenBelongsToOneTask(states, steps, i, k - 1, id, token);
      assert Next(states[k - 1], steps[k - 1], states[k]);
      StepKeepsFence(states[k - 1], steps[k - 1], states[k], id, token);
    } else {
      TokensStayFenced(states, steps, i);
      forall other | other in states[i].tasks && other != id ensures states[i].tasks[other].claimToken != Some(token) {
        assert states[i].tasks[id].claimToken != states[i].tasks[other].claimToken;
      }
    }
  }

  /**
    Fencing: once a claim token is no longer the one of its task, no later call
    that presents it passes validation, heartbeat or release, on any task.
   */
  lemma {:induction false} ReplacedTokenIsDead(
    states: seq<Queue>, steps: seq<Step>, i: nat, j: nat, k: nat, id: TaskId, token: Token)
    requires Run(states, steps) && i < j <= k < |states|
    requires id in states[i].tasks && states[i].tasks[id].claimToken == Some(token)
    requires id !in states[j].tasks || states[j].tasks[id].claimToken != Some(token)
    ensures forall any: TaskId, worker: string, now: Time :: !ClaimValid(states[k].tasks, any, worker, token, now)
    ensures forall any: TaskId, worker: string :: !HeartbeatAccepted(states[k].tasks, any, worker, Some(token))
    ensures forall any: TaskId, worker: string :: !OwnedBy(states[k].tasks, any, worker, Some(token))
  {
    TokenBelongsToOneTask(states, steps, i, k, id, token);
    StaysLost(states, steps, i, j, k, id, token);
    hide Run;
  }

  /** A claim only issues fresh tokens, so a handed-out token a task does not carry stays away from it. */
  lemma StepKeepsLost(q: Queue, step: Step, q': Queue, id: TaskId, token: Token)
    requires Next(q, step, q') && token in q.issued
    requires id !in q.tasks || q.tasks[id].claimToken != Some(token)
    ensures id !in q'.tasks || q'.tasks[id].claimToken != Some(token)
  {
    if id in q'.tasks && q'.tasks[id].claimToken == Some(token) {
      TokensOnlyFromClaims(q, step, q', id);
    }
  }

  lemma {:induction false} StaysLost(
    states: seq<Queue>, steps: seq<Step>, i: nat, j: nat, k: nat, id: TaskId, token: Token)
    requires Run(states, steps) && i < j <= k < |states|
    requires id in states[i].tasks && states[i].tasks[id].claimToken == Some(token)
    requires id !in states[j].tasks || states[j].tasks[id].claimToken != Some(token)
    ensures id !in states[k].tasks || states[k].tasks[id].claimToken != Some(token)
  {
    if j < k {
      hide Next;
      StaysLost(states, steps, i, j, k - 1, id, token);
      TokenBelongsToOneTask(states, steps, i, k - 1, id, token);
      assert Next(states[k - 1], steps[k - 1], states[k]);
      StepKeepsLost(states[k - 1], steps[k - 1], states[k], id, token);
    }
  }

  // ---------------------------------------------------------- cancellation

  /** No step clears a cancel flag or removes a row. */
  lemma StepKeepsCancel(q: Queue, step: Step, q': Queue, id: TaskId)
    requires Next(q, step, q') && id in q.tasks
    ensures id in q'.tasks && (q.tasks[id].cancelRequested ==> q'.tasks[id].cancelRequested)
  {
  }

  /** Cancel is never lost: a flag once set is set in every later state. */
  lemma {:induction false} CancelNeverLost(states: seq<Queue>, steps: seq<Step>, i: nat, k: nat, id: TaskId)
    requires Run(states, steps) && i <= k < |states|
    requires id in states[i].tasks && states[i].tasks[id].cancelRequested
    ensures id in states[k].tasks && states[k].tasks[id].cancelRequested
  {
    if i < k {
      CancelNeverLost(states, steps, i, k - 1, id);
      assert Next(states[k - 1], steps[k - 1], states[k]);
      StepKeepsCancel(states[k - 1], steps[k - 1], states[k], id);
    }
  }

  /** An accepted cancel sets the flag in every later state of the run, and ends a parked task for good. */
  lemma AcceptedCancelLasts(states: seq<Queue>, steps: seq<Step>, i: nat, k: nat)
    requires Run(states, steps) && i < k < |states| && steps[i].Cancel?
    requires CancelAccepted(states[i].tasks, steps[i].id, steps[i].user)
    ensures var id := steps[i].id;
      id in states[k].tasks && states[k].tasks[id].cancelRequested
    ensures var id := steps[i].id;
      states[i].tasks[id].status.Paused? && !states[i].tasks[id].cancelRequested ==> states[i + 1].tasks[id].status.Canceled?
  {
    assert Next(states[i], steps[i], states[i + 1]);
    CancelNeverLost(states, steps, i + 1, k, steps[i].id);
    hide Run;
  }

  lemma StepParksNoCancel(q: Queue, step: Step, q': Queue, id: TaskId)
    requires Next(q, step, q')
    requires forall x | x in q.tasks && q.tasks[x].status.Paused? :: !q.tasks[x].cancelRequested
    requires id in q'.tasks && q'.tasks[id].status.Paused?
    ensures !q'.tasks[id].cancelRequested
  {
  }

  /** No task is ever parked with a cancel pending. */
  lemma {:induction false} PausedIsNeverFlagged(states: seq<Queue>, steps: seq<Step>, i: nat)
    requires Run(states, steps) && i < |states|
    ensures forall id | id in states[i].tasks && states[i].tasks[id].status.Paused? :: !states[i].tasks[id].cancelRequested
  {
    if i > 0 {
      PausedIsNeverFlagged(states, steps, i - 1);
      assert Next(states[i - 1], steps[i - 1], states[i]);
      forall id | id in states[i].tasks && states[i].tasks[id].status.Paused? ensures !states[i].tasks[id].cancelRequested {
        StepParksNoCancel(states[i - 1], steps[i - 1], states[i], id);
      }
    }
  }

  lemma StepKeepsTerminal(q: Queue, step: Step, q': Queue, id: TaskId)
    requires Next(q, step, q') && HeldWrite(q, step)
    requires id in q.tasks && Terminal(q.tasks[id].status)
    ensures id in q'.tasks && q'.tasks[id].status == q.tasks[id].status
  {
  }

  /** The writes that do not look at the status they replace. */
  predicate Overwrites(q: Queue, step: Step, id: TaskId)
    requires id in q.tasks
  {
    match step
    case Start(x) => x == id
    case SetStatus(x, _) => x == id
    case Finalize(x, status, _) => x == id && status != q.tasks[id].status
    case Release(x, worker, status, proof, _) =>
      x == id && OwnedBy(q.tasks, id, worker, proof) && ReleasedStatus(q.tasks[id], status) != q.tasks[id].status
    case _ => false
  }

  /** A step leaves a terminal status exactly when it is a lifecycle write, or a release by the owner, with another status. */
  lemma TerminalLeftExactly(q: Queue, step: Step, q': Queue, id: TaskId)
    requires Next(q, step, q') && id in q.tasks && Terminal(q.tasks[id].status)
    ensures id in q'.tasks && (q'.tasks[id].status != q.tasks[id].status <==> Overwrites(q, step, id))
  {
  }

  lemma HeldAt(states: seq<Queue>, steps: seq<Step>, i: nat)
    requires |states| == |steps| + 1 && HeldWrites(states, steps) && i < |steps|
    ensures HeldWrite(states[i], steps[i])
  {
    hide HeldWrite;
  }

  predicate HasStatus(q: Queue, id: TaskId, status: Status) {
    id in q.tasks && q.tasks[id].status == status
  }

  lemma HeldStep(states: seq<Queue>, steps: seq<Step>, i: nat, id: TaskId, status: Status)
    requires |states| == |steps| + 1 && HeldWrites(states, steps) && i < |steps|
    requires Next(states[i], steps[i], states[i + 1]) && HasStatus(states[i], id, status) && Terminal(status)
    ensures HasStatus(states[i + 1], id, status)
  {
    hide Next, Terminal, HeldWrite, HeldWrites;
    HeldAt(states, steps, i);
    StepKeepsTerminal(states[i], steps[i], states[i + 1], id);
  }

  lemma {:induction false} HeldIsFinal(states: seq<Queue>, steps: seq<Step>, i: nat, k: nat, id: TaskId, status: Status)
    requires Run(states, steps) && |states| == |steps| + 1 && HeldWrites(states, steps) && i <= k < |states|
    requires HasStatus(states[i], id, status) && Terminal(status)
    ensures HasStatus(states[k], id, status)
  {
    hide *;
    if i < k {
      HeldIsFinal(states, steps, i, k - 1, id, status);
      RunStep(states, steps, k - 1);
      HeldStep(states, steps, k - 1, id, status);
    }
  }

  /** A terminal status is never left. */
  lemma TerminalIsFinal(states: seq<Queue>, steps: seq<Step>, i: nat, k: nat, id: TaskId)
    requires Run(states, steps) && HeldWrites(states, steps) && i <= k < |states|
    requires id in states[i].tasks && Terminal(states[i].tasks[id].status)
    ensures id in states[k].tasks && states[k].tasks[id].status == states[i].tasks[id].status
  {
    RunLength(states, steps);
    hide Run, HeldWrites, Terminal;
    HeldIsFinal(states, steps, i, k, id, states[i].tasks[id].status);
  }

  /** No terminal status is ever left. */
  ghost predicate NeverLeft(states: seq<Queue>) {
    forall i, k, id | 0 <= i <= k < |states| && id in states[i].tasks && Terminal(states[i].tasks[id].status) ::
      id in states[k].tasks && states[k].tasks[id].status == states[i].tasks[id].status
  }

  /** No write replaces a terminal status. */
  ghost predicate NeverOverwritten(states: seq<Queue>, steps: seq<Step>)
    requires |states| == |steps| + 1
  {
    forall i, id | 0 <= i < |steps| && id in states[i].tasks && Terminal(states[i].tasks[id].status) ::
      !Overwrites(states[i], steps[i], id)
  }

  /** Whoever writes: in a run terminal statuses are final if and only if no lifecycle write or release replaces one. */
  lemma TerminalIsFinalExactly(states: seq<Queue>, steps: seq<Step>)
    requires Run(states, steps)
    ensures NeverLeft(states) <==> NeverOverwritten(states, steps)
  {
    hide Next, Overwrites, Terminal;
    if NeverLeft(states) {
      forall i, id | 0 <= i < |steps| && id in states[i].tasks && Terminal(states[i].tasks[id].status)
        ensures !Overwrites(states[i], steps[i], id)
      {
        assert Next(states[i], steps[i], states[i + 1]);
        TerminalLeftExactly(states[i], steps[i], states[i + 1], id);
        StaysLeft(states, i, i + 1, id);
      }
    }
    if NeverOverwritten(states, steps) {
      forall i, k, id | 0 <= i <= k < |states| && id in states[i].tasks && Terminal(states[i].tasks[id].status)
        ensures id in states[k].tasks && states[k].tasks[id].status == states[i].tasks[id].status
      {
        UnwrittenIsFinal(states, steps, i, k, id, states[i].tasks[id].status);
      }
    }
  }

  lemma StaysLeft(states: seq<Queue>, i: nat, k: nat, id: TaskId)
    requires NeverLeft(states) && i <= k < |states| && id in states[i].tasks && Terminal(states[i].tasks[id].status)
    ensures id in states[k].tasks && states[k].tasks[id].status == states[i].tasks[id].status
  {
    hide Terminal;
  }

  lemma UnwrittenAt(states: seq<Queue>, steps: seq<Step>, i: nat, id: TaskId)
    requires |states| == |steps| + 1 && NeverOverwritten(states, steps) && i < |steps|
    requires id in states[i].tasks && Terminal(states[i].tasks[id].status)
    ensures !Overwrites(states[i], steps[i], id)
  {
    hide Overwrites, Terminal;
  }

  lemma RunLength(states: seq<Queue>, steps: seq<Step>)
    requires Run(states, steps)
    ensures |states| == |steps| + 1
  {
    hide Next;
  }

  lemma RunStep(states: seq<Queue>, steps: seq<Step>, i: nat)
    requires Run(states, steps) && i < |steps| && i + 1 < |states|
    ensures Next(states[i], steps[i], states[i + 1])
  {
    hide Next;
  }

  lemma UnwrittenStep(states: seq<Queue>, steps: seq<Step>, i: nat, id: TaskId, status: Status)
    requires |states| == |steps| + 1 && NeverOverwritten(states, steps) && i < |steps|
    requires Next(states[i], steps[i], states[i + 1]) && HasStatus(states[i], id, status) && Terminal(status)
    ensures HasStatus(states[i + 1], id, status)
  {
    hide Next, Terminal, Overwrites, NeverOverwritten;
    UnwrittenAt(states, steps, i, id);
    TerminalLeftExactly(states[i], steps[i], states[i + 1], id);
  }

  lemma {:induction false} UnwrittenIsFinal(states: seq<Queue>, steps: seq<Step>, i: nat, k: nat, id: TaskId, status: Status)
    requires Run(states, steps) && |states| == |steps| + 1 && NeverOverwritten(states, steps) && i <= k < |states|
    requires HasStatus(states[i], id, status) && Terminal(status)
    ensures HasStatus(states[k], id, status)
  {
    hide *;
    if i < k {
      UnwrittenIsFinal(states, steps, i, k - 1, id, status);
      RunStep(states, steps, k - 1);
      UnwrittenStep(states, steps, k - 1, id, status);
    }
  }

  // ----------------------------------------------------------- dependencies

  /** `claims` lists exactly once each task that was ever held, owned or has succeeded. */
  ghost predicate ClaimsCover(q: Queue) {
    && (forall i, j | 0 <= i < j < |q.claims| :: q.claims[i] != q.claims[j])
    && (forall id | id in q.tasks && (Holding(q.tasks[id].status) || q.tasks[id].claimOwner.Some? || q.tasks[id].status.Succeeded?) ::
          id in q.claims)
  }

  /** Each claimed task's dependencies have succeeded, and were claimed before it. */
  ghost predicate ClaimsOrdered(q: Queue) {
    forall k, d | 0 <= k < |q.claims| && d in q.deps && d.0 == q.claims[k] ::
      HasSucceeded(q.tasks, d.1) && d.1 in q.claims[..k]
  }

  lemma StepKeepsCover(q: Queue, step: Step, q': Queue)
    requires Next(q, step, q') && HeldWrite(q, step) && ClaimsCover(q)
    ensures ClaimsCover(q')
  {
    forall id | id in q'.tasks && (Holding(q'.tasks[id].status) || q'.tasks[id].claimOwner.Some? || q'.tasks[id].status.Succeeded?)
      ensures id in q'.claims
    {
      if step.Claim? && step.result == Some(id) {
      } else {
        assert id in q.tasks && (Holding(q.tasks[id].status) || q.tasks[id].claimOwner.Some? || q.tasks[id].status.Succeeded?);
      }
    }
  }

  lemma StepKeepsOrder(q: Queue, step: Step, q': Queue)
    requires Next(q, step, q') && HeldWrite(q, step) && EarlyDependency(q, step)
    requires ClaimsCover(q) && ClaimsOrdered(q)
    ensures ClaimsOrdered(q')
  {
    forall k, d | 0 <= k < |q'.claims| && d in q'.deps && d.0 == q'.claims[k]
      ensures HasSucceeded(q'.tasks, d.1) && d.1 in q'.claims[..k]
    {
      assert d in q.deps;
      if k < |q.claims| {
        assert HasSucceeded(q.tasks, d.1) && d.1 in q.claims[..k];
        assert q'.claims[..k] == q.claims[..k];
      } else {
        assert DependenciesMet(q.tasks, q.deps, d.0);
        assert d.1 in q.claims && q'.claims[..k] == q.claims;
      }
      StepKeepsTerminal(q, step, q', d.1);
    }
  }

  lemma {:induction false} ClaimHistory(states: seq<Queue>, steps: seq<Step>, i: nat)
    requires Run(states, steps) && i < |states|
    requires HeldWrites(states, steps) && EarlyDependencies(states, steps)
    ensures ClaimsCover(states[i]) && ClaimsOrdered(states[i])
  {
    if i > 0 {
      ClaimHistory(states, steps, i - 1);
      assert Next(states[i - 1], steps[i - 1], states[i]);
      assert HeldWrite(states[i - 1], steps[i - 1]) && EarlyDependency(states[i - 1], steps[i - 1]);
      StepKeepsCover(states[i - 1], steps[i - 1], states[i]);
      StepKeepsOrder(states[i - 1], steps[i - 1], states[i]);
    }
  }

  /** In every reachable state each task ever claimed has all its dependencies succeeded. */
  lemma {:induction false} ClaimedTasksHadTheirDependencies(states: seq<Queue>, steps: seq<Step>, i: nat, id: TaskId, on: TaskId)
    requires Run(states, steps) && i < |states|
    requires HeldWrites(states, steps) && EarlyDependencies(states, steps)
    requires id in states[i].claims && (id, on) in states[i].deps
    ensures HasSucceeded(states[i].tasks, on)
  {
    ClaimHistory(states, steps, i);
    var k :| 0 <= k < |states[i].claims| && states[i].claims[k] == id;
    assert (id, on).0 == states[i].claims[k];
  }

  ghost predicate DependencyPath(deps: Dependencies, path: seq<TaskId>) {
    |path| >= 2 && forall k | 0 <= k < |path| - 1 :: (path[k], path[k + 1]) in deps
  }

  /** Along a dependency path the claim order goes strictly backwards. */
  lemma {:induction false} PathGoesBack(q: Queue, path: seq<TaskId>, from: nat, to: nat, pos: nat) returns (pos': nat)
    requires ClaimsOrdered(q) && DependencyPath(q.deps, path)
    requires from <= to < |path| && pos < |q.claims| && q.claims[pos] == path[from]
    ensures pos' < |q.claims| && q.claims[pos'] == path[to] && pos' + (to - from) <= pos
    decreases |path| - from
  {
    if from == to {
      pos' := pos;
    } else {
      var d := (path[from], path[from + 1]);
      assert d in q.deps && d.1 in q.claims[..pos];
      var before :| 0 <= before < pos && q.claims[before] == d.1;
      pos' := PathGoesBack(q, path, from + 1, to, before);
    }
  }

  /** No task on a dependency cycle is ever claimed. */
  lemma {:induction false} CycleIsNeverClaimed(states: seq<Queue>, steps: seq<Step>, i: nat, cycle: seq<TaskId>, m: nat)
    requires Run(states, steps) && i < |states|
    requires HeldWrites(states, steps) && EarlyDependencies(states, steps)
    requires DependencyPath(states[i].deps, cycle) && cycle[0] == cycle[|cycle| - 1] && m < |cycle|
    ensures cycle[m] !in states[i].claims
  {
    var q := states[i];
    ClaimHistory(states, steps, i);
    if cycle[m] in q.claims {
      var pos :| 0 <= pos < |q.claims| && q.claims[pos] == cycle[m];
      var first := PathGoesBack(q, cycle, m, |cycle| - 1, pos);
      var again := PathGoesBack(q, cycle, 0, |cycle| - 1, first);
    }
  }
}
