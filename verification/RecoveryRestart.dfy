/**
  The whole of crash recovery: the transaction that fails the tasks of dead
  workers, and then the commits that close their turns.  Stopping it anywhere,
  between the two phases too, and running it again.
 */
module RecoveryRestart {
  import opened JsonValue
  import opened Tables
  import opened TaskQueue
  import opened EventStore
  import opened CrashRecovery

  datatype Snapshot = Snapshot(tasks: Tasks, store: Store)

  /** Where a pass stopped: before its first commit, or at a point of the second phase, the very first and the end included. */
  datatype Halt = BeforeCommit | At(crash: Crash)

  /** One pass of recovery: its clock and identities, the turns it selected, and where it stopped. */
  datatype Pass = Pass(now: Time, stamp: Stamp, jobs: seq<Job>, halt: Halt)

  /** The turns are selected after the tasks were failed, and by their new statuses. */
  ghost predicate IsPass(codec: Codec, s: Snapshot, p: Pass) {
    p.halt.At? ==>
      && StaleJobs(AfterRecovery(s.tasks, p.now), s.store.turns, p.jobs)
      && CanCrash(codec, s.store, p.jobs, p.now, p.stamp, p.halt.crash)
  }

  ghost function AfterPass(codec: Codec, s: Snapshot, p: Pass): Snapshot
    requires IsPass(codec, s, p)
  {
    if p.halt.BeforeCommit? then s
    else Snapshot(AfterRecovery(s.tasks, p.now), CrashedAt(codec, s.store, p.jobs, p.now, p.stamp, p.halt.crash))
  }

  /** What a pass leaves that nothing stops. */
  ghost function Recovered(codec: Codec, s: Snapshot, jobs: seq<Job>, now: Time, stamp: Stamp): Snapshot {
    Snapshot(AfterRecovery(s.tasks, now), RecoverAll(codec, s.store, jobs, now, stamp))
  }

  /** `recover_interrupted`. */
  method RecoverInterrupted(codec: Codec, db: Database, now: Time, quota: nat, stamp: Stamp)
    returns (ok: bool, recovered: seq<TurnId>, ghost p: Pass)
    modifies db`tasks, db`turns, db`events
    ensures var before := Snapshot(old(db.tasks), Store(old(db.turns), old(db.events)));
      && p.now == now && p.stamp == stamp && IsPass(codec, before, p)
      && Snapshot(db.tasks, Store(db.turns, db.events)) == AfterPass(codec, before, p)
      && (ok ==>
            && Snapshot(db.tasks, Store(db.turns, db.events)) == Recovered(codec, before, p.jobs, now, stamp)
            && recovered == RecoverableOf(db.tasks, p.jobs))
  {
    ghost var s := Store(db.turns, db.events);
    hide StaleJobs, CanCrash, CrashedAt, RecoverAll, AfterRecovery, RecoverableOf;
    RecoverTasks(db, now);
    ghost var jobs: seq<Job>;
    ghost var crash: Crash;
    ok, recovered, jobs, crash := RecoverStaleTurns(codec, db, now, quota, stamp);
    if ok {
      CrashAtEnd(codec, s, jobs, now, stamp);
      crash := Crash(|jobs|, 0, false);
    }
    p := Pass(now, stamp, jobs, At(crash));
  }

  lemma CrashAtEnd(codec: Codec, s: Store, jobs: seq<Job>, now: Time, stamp: Stamp)
    ensures CanCrash(codec, s, jobs, now, stamp, Crash(|jobs|, 0, false))
    ensures CrashedAt(codec, s, jobs, now, stamp, Crash(|jobs|, 0, false)) == RecoverAll(codec, s, jobs, now, stamp)
  {
    hide RecoverAll, OpenCalls;
    assert jobs[..|jobs|] == jobs;
  }

  // ------------------------------------------------------- the task table again

  function BareTask(t: Task): Task {
    t.(finishedAt := None)
  }

  /** The same tasks, up to the time they ended. */
  ghost predicate AlikeTasks(a: Tasks, b: Tasks) {
    a.Keys == b.Keys && forall id | id in a :: BareTask(a[id]) == BareTask(b[id])
  }

  ghost predicate AlikeSnapshots(a: Snapshot, b: Snapshot) {
    AlikeTasks(a.tasks, b.tasks) && AlikeStores(a.store, b.store)
  }

  /** A claim that kept a task from being recovered at `from` no longer does at `to`. */
  predicate RunsOut(t: Task, from: Time, to: Time) {
    Active(t.status) && !t.status.Queued? && ClaimSurvives(t, from) && !ClaimSurvives(t, to)
  }

  /** No lease that is live at `from` runs out up to `to`. */
  ghost predicate Steady(tasks: Tasks, from: Time, to: Time) {
    forall id | id in tasks :: !RunsOut(tasks[id], from, to)
  }

  /** `t` is the row recovery found, or what recovery made of it. */
  ghost predicate Stage(t: Task, original: Task, from: Time) {
    BareTask(t) == BareTask(original) || BareTask(t) == BareTask(RecoveredRow(original, from))
  }

  lemma RowSettles(t: Task, original: Task, from: Time, to: Time, now: Time)
    requires from <= now <= to && !RunsOut(original, from, to) && Stage(t, original, from)
    ensures BareTask(RecoveredRow(t, now)) == BareTask(RecoveredRow(original, from))
  {
    RowKeepsAlike(t, if BareTask(t) == BareTask(original) then original else RecoveredRow(original, from), now);
    RowOnce(original, from, to, now);
  }

  lemma RowKeepsAlike(a: Task, b: Task, now: Time)
    requires BareTask(a) == BareTask(b)
    ensures BareTask(RecoveredRow(a, now)) == BareTask(RecoveredRow(b, now))
  {
    assert a == b.(finishedAt := a.finishedAt);
  }

  lemma RowOnce(t: Task, from: Time, to: Time, now: Time)
    requires from <= now <= to && !RunsOut(t, from, to)
    ensures BareTask(RecoveredRow(t, now)) == BareTask(RecoveredRow(t, from))
    ensures RecoveredRow(RecoveredRow(t, from), now) == RecoveredRow(t, from)
  {
  }

  /** A row whose lease runs out is either as it was found or has lost its claim. */
  ghost predicate Fading(t: Task, original: Task) {
    t == original || t.claimOwner.None?
  }

  lemma RowFades(t: Task, original: Task, now: Time)
    requires Fading(t, original)
    ensures Fading(RecoveredRow(t, now), original)
  {
  }

  lemma RowIsLost(t: Task, original: Task, from: Time, to: Time)
    requires RunsOut(original, from, to) && Fading(t, original)
    ensures BareTask(RecoveredRow(t, to)) != BareTask(RecoveredRow(original, from))
  {
  }

  lemma AlikeStale(a: Tasks, b: Tasks, turns: Turns, jobs: seq<Job>)
    requires AlikeTasks(a, b) && StaleJobs(a, turns, jobs)
    ensures StaleJobs(b, turns, jobs)
  {
    hide JobBefore;
    forall job ensures IsStaleJob(a, turns, job) <==> IsStaleJob(b, turns, job) {
      AlikeStaleRow(a, b, job.row);
    }
  }

  lemma AlikeStaleRow(a: Tasks, b: Tasks, row: Turn)
    requires AlikeTasks(a, b)
    ensures Stale(a, row) <==> Stale(b, row)
  {
    if row.task.Some? && row.task.value in a {
      assert BareTask(a[row.task.value]) == BareTask(b[row.task.value]);
    }
  }

  // -------------------------------------------------------------- many passes

  /** Each pass starts from what the one before it left. */
  ghost predicate Passes(codec: Codec, states: seq<Snapshot>, passes: seq<Pass>, from: Time, to: Time) {
    && |states| == |passes| + 1
    && forall i | 0 <= i < |passes| ::
         && from <= passes[i].now <= to && IsPass(codec, states[i], passes[i])
         && states[i + 1] == AfterPass(codec, states[i], passes[i])
  }

  ghost predicate Staged(tasks: Tasks, original: Tasks, from: Time) {
    tasks.Keys == original.Keys && forall id | id in tasks :: Stage(tasks[id], original[id], from)
  }

  lemma RecoveryStages(tasks: Tasks, original: Tasks, from: Time, to: Time, now: Time)
    requires Steady(original, from, to) && from <= now <= to && Staged(tasks, original, from)
    ensures Staged(AfterRecovery(tasks, now), original, from)
    ensures AlikeTasks(AfterRecovery(tasks, now), AfterRecovery(original, from))
  {
    hide Stage, BareTask, RecoveredRow, RunsOut;
    forall id | id in tasks
      ensures Stage(RecoveredRow(tasks[id], now), original[id], from)
      ensures BareTask(RecoveredRow(tasks[id], now)) == BareTask(RecoveredRow(original[id], from))
    {
      RowSettles(tasks[id], original[id], from, to, now);
      SettledIsStage(RecoveredRow(tasks[id], now), original[id], from);
    }
  }

  lemma SettledIsStage(t: Task, original: Task, from: Time)
    requires BareTask(t) == BareTask(RecoveredRow(original, from))
    ensures Stage(t, original, from)
  {
  }

  lemma {:induction false} AllStaged(codec: Codec, states: seq<Snapshot>, passes: seq<Pass>, from: Time, to: Time, n: nat)
    requires Passes(codec, states, passes, from, to) && n <= |passes| && Steady(states[0].tasks, from, to)
    ensures Staged(states[n].tasks, states[0].tasks, from)
  {
    hide IsPass, Stage, BareTask, RecoveredRow, RunsOut, AfterRecovery, CrashedAt, Staged, Steady;
    if n == 0 {
      StagedSelf(states[0].tasks, from);
    } else {
      AllStaged(codec, states, passes, from, to, n - 1);
      assert states[(n - 1) + 1] == AfterPass(codec, states[n - 1], passes[n - 1]);
      RecoveryStages(states[n - 1].tasks, states[0].tasks, from, to, passes[n - 1].now);
    }
  }

  lemma StagedSelf(tasks: Tasks, from: Time)
    ensures Staged(tasks, tasks, from)
  {
    hide BareTask, RecoveredRow;
  }

  /** The second phases of all passes select by tasks that are alike, so together they leave the log as one pass would. */
  lemma {:induction false} StoresLeaveNoTrace(
    codec: Codec, states: seq<Snapshot>, passes: seq<Pass>, from: Time, to: Time, n: nat,
    first: seq<Job>, last: seq<Job>, now: Time, stamp: Stamp)
    requires Passes(codec, states, passes, from, to) && n <= |passes| && Steady(states[0].tasks, from, to)
    requires HonestKeys(states[0].store.events)
    requires StaleJobs(AfterRecovery(states[0].tasks, from), states[0].store.turns, first)
    requires StaleJobs(AfterRecovery(states[0].tasks, from), states[n].store.turns, last)
    ensures HonestKeys(states[n].store.events)
    ensures AlikeStores(RecoverAll(codec, states[n].store, last, now, stamp), RecoverAll(codec, states[0].store, first, now, stamp))
  {
    hide HonestKeys, StaleJobs, AlikeStores, RecoverAll, CrashedAt, CanCrash, AfterRecovery, Steady;
    var tasks := AfterRecovery(states[0].tasks, from);
    if n == 0 {
      SameJobs(tasks, states[0].store.turns, first, last);
      AlikeStoresSelf(RecoverAll(codec, states[0].store, first, now, stamp));
    } else {
      var p := passes[n - 1];
      assert IsPass(codec, states[n - 1], p) && states[(n - 1) + 1] == AfterPass(codec, states[n - 1], p);
      if p.halt.BeforeCommit? {
        StoresLeaveNoTrace(codec, states, passes, from, to, n - 1, first, last, now, stamp);
      } else {
        var a := Attempt(p.jobs, p.now, p.stamp, p.halt.crash);
        AllStaged(codec, states, passes, from, to, n - 1);
        RecoveryStages(states[n - 1].tasks, states[0].tasks, from, to, p.now);
        AlikeStale(AfterRecovery(states[n - 1].tasks, p.now), tasks, states[n - 1].store.turns, p.jobs);
        StoresLeaveNoTrace(codec, states, passes, from, to, n - 1, first, p.jobs, now, stamp);
        AttemptStep(codec, tasks, states[n - 1].store, a, p.jobs, now, stamp, last);
        AlikeStoresJoin(RecoverAll(codec, states[n].store, last, now, stamp), RecoverAll(codec, states[n - 1].store, p.jobs, now, stamp),
                        RecoverAll(codec, states[0].store, first, now, stamp));
      }
    }
  }

  lemma {:induction false} RowsFade(
    codec: Codec, states: seq<Snapshot>, passes: seq<Pass>, from: Time, to: Time, n: nat, id: TaskId)
    requires Passes(codec, states, passes, from, to) && n <= |passes| && id in states[0].tasks
    ensures id in states[n].tasks && Fading(states[n].tasks[id], states[0].tasks[id])
  {
    hide IsPass, RecoveredRow, CrashedAt;
    if n > 0 {
      RowsFade(codec, states, passes, from, to, n - 1, id);
      assert states[(n - 1) + 1] == AfterPass(codec, states[n - 1], passes[n - 1]);
      RowFades(states[n - 1].tasks[id], states[0].tasks[id], passes[n - 1].now);
    }
  }

  /**
    Recovery as a whole is restartable exactly when no surviving lease runs out
    in between: stop any number of passes anywhere, and the first that gets
    through leaves the tasks, the turns and the log as a single undisturbed pass
    at `from` would have, up to event ids and times, if and only if no task that
    a live claim protected at `from` has lost that protection at `to`.
   */
  lemma RestartableExactly(
    codec: Codec, states: seq<Snapshot>, passes: seq<Pass>, from: Time, to: Time,
    first: seq<Job>, last: seq<Job>, stamp: Stamp, stamp': Stamp)
    requires Passes(codec, states, passes, from, to) && from <= to && HonestKeys(states[0].store.events)
    requires StaleJobs(AfterRecovery(states[0].tasks, from), states[0].store.turns, first)
    requires StaleJobs(AfterRecovery(states[|passes|].tasks, to), states[|passes|].store.turns, last)
    ensures AlikeSnapshots(Recovered(codec, states[|passes|], last, to, stamp'), Recovered(codec, states[0], first, from, stamp))
      <==> Steady(states[0].tasks, from, to)
  {
    var n := |passes|;
    hide IsPass, AfterPass, HonestKeys, StaleJobs, AlikeStores, RecoverAll, AfterRecovery, AlikeTasks, Steady;
    if Steady(states[0].tasks, from, to) {
      RestartAgrees(codec, states, passes, from, to, first, last, stamp, stamp');
    } else {
      LapseShows(codec, states, passes, from, to);
    }
  }

  lemma RestartAgrees(
    codec: Codec, states: seq<Snapshot>, passes: seq<Pass>, from: Time, to: Time,
    first: seq<Job>, last: seq<Job>, stamp: Stamp, stamp': Stamp)
    requires Passes(codec, states, passes, from, to) && from <= to && HonestKeys(states[0].store.events)
    requires StaleJobs(AfterRecovery(states[0].tasks, from), states[0].store.turns, first)
    requires StaleJobs(AfterRecovery(states[|passes|].tasks, to), states[|passes|].store.turns, last)
    requires Steady(states[0].tasks, from, to)
    ensures AlikeSnapshots(Recovered(codec, states[|passes|], last, to, stamp'), Recovered(codec, states[0], first, from, stamp))
  {
    var n := |passes|;
    hide HonestKeys, StaleJobs, AlikeStores, RecoverAll, AfterRecovery, AlikeTasks, Steady, IsPass, AfterPass;
    AllStaged(codec, states, passes, from, to, n);
    RecoveryStages(states[n].tasks, states[0].tasks, from, to, to);
    AlikeStale(AfterRecovery(states[n].tasks, to), AfterRecovery(states[0].tasks, from), states[n].store.turns, last);
    StoresLeaveNoTrace(codec, states, passes, from, to, n, first, last, to, stamp');
    AlikeStoresSelf(states[0].store);
    AlikeRuns(codec, states[0].store, states[0].store, first, to, from, stamp', stamp);
    AlikeStoresJoin(RecoverAll(codec, states[n].store, last, to, stamp'), RecoverAll(codec, states[0].store, first, to, stamp'),
                    RecoverAll(codec, states[0].store, first, from, stamp));
  }

  /** A lease that runs out in between shows: the later pass takes the claim away. */
  lemma LapseShows(codec: Codec, states: seq<Snapshot>, passes: seq<Pass>, from: Time, to: Time)
    requires Passes(codec, states, passes, from, to) && !Steady(states[0].tasks, from, to)
    ensures !AlikeTasks(AfterRecovery(states[|passes|].tasks, to), AfterRecovery(states[0].tasks, from))
  {
    hide IsPass, AfterPass, RecoveredRow, BareTask, RunsOut;
    var id :| id in states[0].tasks && RunsOut(states[0].tasks[id], from, to);
    RowsFade(codec, states, passes, from, to, |passes|, id);
    RowIsLost(states[|passes|].tasks[id], states[0].tasks[id], from, to);
    assert BareTask(AfterRecovery(states[|passes|].tasks, to)[id]) != BareTask(AfterRecovery(states[0].tasks, from)[id]);
  }
}
