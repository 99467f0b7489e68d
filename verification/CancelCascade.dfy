/**
  Cancelling a task together with everything it spawned.  The parent links are
  data, so they may form a cycle; the traversal must end anyway and reach
  exactly the descendants.
 */
module CancelCascade {
  import opened JsonValue
  import opened Tables
  import opened TaskQueue

  predicate ChildOf(tasks: Tasks, child: TaskId, parent: TaskId, user: string) {
    child in tasks && tasks[child].parent == Some(parent) && tasks[child].user == user
  }

  /** A child is a task of the user that names the task as its parent. */
  lemma ChildrenName(tasks: Tasks, parent: TaskId, user: string, rows: seq<TaskId>)
    requires forall id :: id in rows <==> ChildOf(tasks, id, parent, user)
    ensures forall id :: id in rows <==> id in tasks && tasks[id].parent == Some(parent) && tasks[id].user == user
  {
  }

  /** A chain of this user's parent links from `start` down. */
  ghost predicate Lineage(tasks: Tasks, start: TaskId, user: string, path: seq<TaskId>) {
    && path != [] && path[0] == start
    && forall k | 0 <= k < |path| - 1 :: ChildOf(tasks, path[k + 1], path[k], user)
  }

  ghost predicate Reachable(tasks: Tasks, start: TaskId, user: string, id: TaskId) {
    exists path :: Lineage(tasks, start, user, path) && path[|path| - 1] == id
  }

  lemma ReachableStep(tasks: Tasks, start: TaskId, user: string, parent: TaskId, child: TaskId)
    requires Reachable(tasks, start, user, parent) && ChildOf(tasks, child, parent, user)
    ensures Reachable(tasks, start, user, child)
  {
    var path :| Lineage(tasks, start, user, path) && path[|path| - 1] == parent;
    var longer := path + [child];
    assert Lineage(tasks, start, user, longer) && longer[|longer| - 1] == child;
  }

  /** A set that holds the start and is closed under children holds everything reachable. */
  lemma {:induction false} ClosedHoldsLineage(tasks: Tasks, start: TaskId, user: string, path: seq<TaskId>, closed: set<TaskId>)
    requires Lineage(tasks, start, user, path) && start in closed
    requires forall p, c | p in closed && ChildOf(tasks, c, p, user) :: c in closed
    ensures path[|path| - 1] in closed
  {
    if |path| > 1 {
      var shorter := path[..|path| - 1];
      assert Lineage(tasks, start, user, shorter);
      ClosedHoldsLineage(tasks, start, user, shorter, closed);
      assert ChildOf(tasks, path[|path| - 1], shorter[|shorter| - 1], user);
    }
  }

  /** The rows of `done` cancelled, all others as they were. */
  function CancelAll(tasks: Tasks, done: set<TaskId>, user: string, now: Time): Tasks {
    map id | id in tasks ::
      if id in done && CancelAccepted(tasks, id, user) then CancelRow(tasks[id], now) else tasks[id]
  }

  lemma CancelOneMore(tasks: Tasks, done: set<TaskId>, id: TaskId, user: string, now: Time)
    requires id !in done
    ensures AfterCancel(CancelAll(tasks, done, user, now), id, user, now) == CancelAll(tasks, done + {id}, user, now)
    ensures CancelAccepted(CancelAll(tasks, done, user, now), id, user) == CancelAccepted(tasks, id, user)
  {
  }

  /** `list_child_tasks`, oldest first. */
  method ListChildren(tasks: Tasks, parent: TaskId, user: string) returns (rows: seq<TaskId>)
    ensures forall id :: id in rows <==> ChildOf(tasks, id, parent, user)
    ensures forall i, j | 0 <= i < j < |rows| ::
      rows[i] in tasks && rows[j] in tasks && tasks[rows[i]].createdAt <= tasks[rows[j]].createdAt
  {
    var rest := set id | id in tasks && ChildOf(tasks, id, parent, user);
    rows := [];
    while rest != {}
      invariant rest <= tasks.Keys
      invariant forall id :: (id in rows || id in rest) <==> ChildOf(tasks, id, parent, user)
      invariant forall i | 0 <= i < |rows| :: rows[i] in tasks
      invariant forall i, j | 0 <= i < j < |rows| :: tasks[rows[i]].createdAt <= tasks[rows[j]].createdAt
      invariant forall i, id | 0 <= i < |rows| && id in rest :: tasks[rows[i]].createdAt <= tasks[id].createdAt
      decreases rest
    {
      LeastExists(tasks, rest);
      var least :| least in rest && forall other | other in rest && other != least :: Before(tasks, least, other);
      rest := rest - {least};
      rows := rows + [least];
    }
  }

  /** What the traversal knows: only reachable tasks are met, and no child of a visited one is forgotten. */
  ghost predicate Frontier(tasks: Tasks, start: TaskId, user: string, queue: seq<TaskId>, seen: set<TaskId>) {
    && (start in seen || start in queue)
    && (forall id | id in seen || id in queue :: Reachable(tasks, start, user, id))
    && (forall p, c | p in seen && ChildOf(tasks, c, p, user) :: c in seen || c in queue)
  }

  lemma FrontierSkips(tasks: Tasks, start: TaskId, user: string, queue: seq<TaskId>, seen: set<TaskId>)
    requires Frontier(tasks, start, user, queue, seen) && queue != [] && queue[0] in seen
    ensures Frontier(tasks, start, user, queue[1..], seen)
  {
    assert queue == [queue[0]] + queue[1..];
  }

  lemma FrontierAdvances(
    tasks: Tasks, start: TaskId, user: string, queue: seq<TaskId>, seen: set<TaskId>, children: seq<TaskId>)
    requires Frontier(tasks, start, user, queue, seen) && queue != []
    requires forall id :: id in children <==> ChildOf(tasks, id, queue[0], user)
    ensures Frontier(tasks, start, user, queue[1..] + children, seen + {queue[0]})
  {
    assert queue == [queue[0]] + queue[1..];
    forall c | c in children ensures Reachable(tasks, start, user, c) {
      ReachableStep(tasks, start, user, queue[0], c);
    }
  }

  /** When nothing is left to visit, the visited tasks are exactly the reachable ones. */
  lemma FrontierDone(tasks: Tasks, start: TaskId, user: string, seen: set<TaskId>)
    requires Frontier(tasks, start, user, [], seen)
    ensures forall id :: Reachable(tasks, start, user, id) <==> id in seen
  {
    forall id | Reachable(tasks, start, user, id) ensures id in seen {
      var path :| Lineage(tasks, start, user, path) && path[|path| - 1] == id;
      ClosedHoldsLineage(tasks, start, user, path, seen);
    }
  }

  lemma ReachableIsKnown(tasks: Tasks, start: TaskId, user: string, id: TaskId)
    requires Reachable(tasks, start, user, id)
    ensures id in tasks.Keys + {start}
  {
    var path :| Lineage(tasks, start, user, path) && path[|path| - 1] == id;
    if |path| > 1 { assert ChildOf(tasks, path[|path| - 1], path[|path| - 2], user); }
  }

  /** The user's own task that is not over yet. */
  predicate Unfinished(t: Task, user: string) {
    t.user == user && (t.status.Queued? || t.status.Running? || t.status.AwaitingApproval? || t.status.Paused?)
  }

  /**
    `request_cancel_cascade`: it ends on every table, cyclic links included, and
    cancels and reports exactly the user's active tasks reachable from the start.
   */
  method RequestCancelCascade(db: Database, start: TaskId, user: string, now: Time) returns (cancelled: seq<TaskId>)
    modifies db`tasks
    ensures forall id :: id in cancelled <==>
      Reachable(old(db.tasks), start, user, id) && id in old(db.tasks) && Unfinished(old(db.tasks)[id], user)
    ensures forall i, j | 0 <= i < j < |cancelled| :: cancelled[i] != cancelled[j]
    ensures db.tasks.Keys == old(db.tasks).Keys
    ensures forall id | id in old(db.tasks) ::
      db.tasks[id] == (if id in cancelled then CancelRow(old(db.tasks)[id], now) else old(db.tasks)[id])
    ensures forall id | id in cancelled :: id in old(db.tasks) && Stopping(old(db.tasks)[id], db.tasks[id], now)
  {
    ghost var before := db.tasks;
    ghost var universe := before.Keys + {start};
    var queue := [start];
    var seen: set<TaskId> := {};
    cancelled := [];
    assert Lineage(before, start, user, [start]);
    CancelNone(before, user, now);
    assert Frontier(before, start, user, queue, seen);
    hide CancelAll, CancelAccepted, CancelRow, AfterCancel, Frontier, Reachable, ChildOf, Stopping, OnlyRow, Unfinished;
    while queue != []
      invariant Frontier(before, start, user, queue, seen)
      invariant seen <= universe
      invariant db.tasks == CancelAll(before, seen, user, now)
      invariant forall id :: id in cancelled <==> id in seen && CancelAccepted(before, id, user)
      invariant forall i, j | 0 <= i < j < |cancelled| :: cancelled[i] != cancelled[j]
      decreases universe - seen, |queue|
    {
      var current := queue[0];
      if current in seen {
        FrontierSkips(before, start, user, queue, seen);
        queue := queue[1..];
        continue;
      }
      FrontierReaches(before, start, user, queue, seen);
      ReachableIsKnown(before, start, user, current);
      CancelOneMore(before, seen, current, user, now);
      var accepted := RequestCancel(db, current, user, now);
      if accepted {
        OneMoreDistinct(cancelled, current);
        cancelled := cancelled + [current];
      }
      var children := ListChildren(db.tasks, current, user);
      SameChildren(before, seen + {current}, current, user, now);
      FrontierAdvances(before, start, user, queue, seen, children);
      queue, seen := queue[1..] + children, seen + {current};
    }
    FrontierEnds(before, start, user, queue, seen);
    CascadeIs(before, start, seen, user, now, cancelled);
  }

  lemma OneMoreDistinct(xs: seq<TaskId>, x: TaskId)
    requires (forall i, j | 0 <= i < j < |xs| :: xs[i] != xs[j]) && x !in xs
    ensures forall i, j | 0 <= i < j < |xs + [x]| :: (xs + [x])[i] != (xs + [x])[j]
    ensures forall y :: y in xs + [x] <==> y in xs || y == x
  {
  }

  lemma CancelNone(tasks: Tasks, user: string, now: Time)
    ensures CancelAll(tasks, {}, user, now) == tasks
  {
  }

  lemma FrontierReaches(tasks: Tasks, start: TaskId, user: string, queue: seq<TaskId>, seen: set<TaskId>)
    requires queue != [] && Frontier(tasks, start, user, queue, seen)
    ensures Reachable(tasks, start, user, queue[0])
  {
    hide Reachable;
  }

  lemma FrontierEnds(tasks: Tasks, start: TaskId, user: string, queue: seq<TaskId>, seen: set<TaskId>)
    requires queue == [] && Frontier(tasks, start, user, queue, seen)
    ensures forall id :: id in seen <==> Reachable(tasks, start, user, id)
  {
    FrontierDone(tasks, start, user, seen);
    hide Reachable;
  }

  /** What a cascade comes to once everything reachable was seen. */
  lemma CascadeIs(tasks: Tasks, start: TaskId, seen: set<TaskId>, user: string, now: Time, cancelled: seq<TaskId>)
    requires forall id :: id in seen <==> Reachable(tasks, start, user, id)
    requires forall id :: id in cancelled <==> id in seen && CancelAccepted(tasks, id, user)
    ensures forall id :: id in cancelled <==> Reachable(tasks, start, user, id) && id in tasks && Unfinished(tasks[id], user)
    ensures var after := CancelAll(tasks, seen, user, now);
      && after.Keys == tasks.Keys
      && (forall id | id in tasks :: after[id] == (if id in cancelled then CancelRow(tasks[id], now) else tasks[id]))
      && (forall id | id in cancelled :: id in tasks && Stopping(tasks[id], after[id], now))
  {
    forall id ensures CancelAccepted(tasks, id, user) <==> id in tasks && Unfinished(tasks[id], user) { }
    hide CancelAccepted, CancelRow, Stopping, Unfinished, Reachable;
    forall id | id in cancelled ensures id in tasks && Stopping(tasks[id], CancelAll(tasks, seen, user, now)[id], now) {
      CancelStops(tasks[id], now);
    }
  }

  lemma CancelStops(t: Task, now: Time)
    ensures Stopping(t, CancelRow(t, now), now)
  {
  }

  lemma SameChildren(tasks: Tasks, done: set<TaskId>, parent: TaskId, user: string, now: Time)
    ensures forall c :: ChildOf(CancelAll(tasks, done, user, now), c, parent, user) == ChildOf(tasks, c, parent, user)
  {
  }
}
