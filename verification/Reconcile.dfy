/**
  Repairing status drift: the terminal events of the log are the authority over
  the status columns of turns and tasks.
 */
module Reconcile {
  import opened JsonValue
  import opened Tables
  import opened Sorting
  import opened TaskQueue
  import opened EventStore

  // ------------------------------------------------------------- the authority

  predicate TerminalEvent(e: Event) {
    e.kind.TurnCompleted? || e.kind.TurnFailed? || e.kind.TurnCanceled? || e.kind.TurnInterrupted?
  }

  function StatusOf(kind: EventKind): Status {
    match kind
    case TurnCompleted => Succeeded
    case TurnFailed => Failed
    case TurnCanceled => Canceled
    case _ => Interrupted
  }

  /** A task has no interrupted status of its own: it failed. */
  function TaskStatusOf(status: Status): Status {
    if status.Interrupted? then Failed else status
  }

  /** The last terminal event of a turn. */
  function LastTerminal(events: Events, turn: TurnId): Option<Event> {
    if events == [] then None
    else
      var last := events[|events| - 1];
      if last.turn == turn && TerminalEvent(last) then Some(last) else LastTerminal(events[..|events| - 1], turn)
  }

  // ------------------------------------------------------------- the rows read

  function RowKey(e: Event): Keyed<Event> {
    Keyed(e.conversation, -(e.seqNo as int), e)
  }

  function TerminalRows(turns: Turns, events: Events): seq<Keyed<Event>> {
    if events == [] then []
    else
      var last := events[|events| - 1];
      TerminalRows(turns, events[..|events| - 1])
      + if TerminalEvent(last) && last.turn in turns then [RowKey(last)] else []
  }

  /** `... ORDER BY e.conversation_id, e.seq DESC`. */
  function Rows(turns: Turns, events: Events): Events {
    Items(Sort(TerminalRows(turns, events)))
  }

  // ----------------------------------------------------------- the repair of one

  /** The three tables a repair writes, and the turns it is done with. */
  datatype Desk = Desk(turns: Turns, tasks: Tasks, events: Events, seen: set<TurnId>)

  function JoinedStatus(turns: Turns, tasks: Tasks, turn: TurnId): Option<Status>
    requires turn in turns
  {
    if turns[turn].task.Some? && turns[turn].task.value in tasks then Some(tasks[turns[turn].task.value].status) else None
  }

  /** Nothing to do: the turn, and the task when there is one, already show the status. */
  predicate InLine(turns: Turns, tasks: Tasks, e: Event)
    requires e.turn in turns
  {
    && turns[e.turn].status == StatusOf(e.kind)
    && (e.task.None? || JoinedStatus(turns, tasks, e.turn) == Some(StatusOf(e.kind)))
  }

  function RepairedTurn(t: Turn, e: Event): Turn {
    t.(status := StatusOf(e.kind), finishedAt := if t.finishedAt.Some? then t.finishedAt else Some(e.createdAt))
  }

  function RepairedTask(t: Task, e: Event): Task {
    t.(status := TaskStatusOf(StatusOf(e.kind)), finishedAt := if t.finishedAt.Some? then t.finishedAt else Some(e.createdAt),
       claimOwner := None, claimToken := None, lease := None)
  }

  function RepairedTasks(tasks: Tasks, e: Event): Tasks {
    if e.task.Some? && e.task.value in tasks then tasks[e.task.value := RepairedTask(tasks[e.task.value], e)] else tasks
  }

  function ReconciledDraft(e: Event, payload: Json): Draft {
    Draft(e.conversation, e.turn, e.task, LifecycleReconciled, false, Some(Reconciled(e.turn, StatusOf(e.kind))), payload)
  }

  function RepairStep(turns: Turns, tasks: Tasks, d: Desk, e: Event, payload: Event -> Json, stamp: Stamp): Desk {
    if e.turn in d.seen || e.turn !in turns || e.turn !in d.turns then d
    else if InLine(turns, tasks, e) then d.(seen := d.seen + {e.turn})
    else
      Desk(d.turns[e.turn := RepairedTurn(d.turns[e.turn], e)], RepairedTasks(d.tasks, e),
           Logged(d.events, ReconciledDraft(e, payload(e)), stamp), d.seen + {e.turn})
  }

  function RepairUpTo(turns: Turns, tasks: Tasks, events: Events, rows: Events, n: nat, payload: Event -> Json, stamp: Stamp): Desk
    requires n <= |rows|
  {
    if n == 0 then Desk(turns, tasks, events, {})
    else RepairStep(turns, tasks, RepairUpTo(turns, tasks, events, rows, n - 1, payload, stamp), rows[n - 1], payload, stamp)
  }

  /** What `reconcile_lifecycle` makes of the tables. */
  function Reconciliation(turns: Turns, tasks: Tasks, events: Events, payload: Event -> Json, stamp: Stamp): Desk {
    var rows := Rows(turns, events);
    RepairUpTo(turns, tasks, events, rows, |rows|, payload, stamp)
  }

  /** `reconcile_lifecycle`. */
  method ReconcileLifecycle(db: Database, payload: Event -> Json, stamp: Stamp) returns (repaired: seq<TurnId>)
    modifies db`turns, db`tasks, db`events
    ensures var d := Reconciliation(old(db.turns), old(db.tasks), old(db.events), payload, stamp);
      db.turns == d.turns && db.tasks == d.tasks && db.events == d.events
    ensures forall i | 0 <= i < |repaired| :: repaired[i] in old(db.turns)
  {
    var turns, tasks := db.turns, db.tasks;
    ghost var events := db.events;
    var rows := Rows(turns, db.events);
    var seen: set<TurnId> := {};
    repaired := [];
    RowsAreKnown(turns, db.events);
    RepairStart(turns, tasks, events, rows, payload, stamp);
    ReconciliationIs(turns, tasks, events, payload, stamp);
    hide Rows, InLine, Logged, RepairedTurn, RepairedTask, JoinedStatus, RepairUpTo, ReconciledDraft, Reconciliation;
    for n := 0 to |rows|
      invariant Desk(db.turns, db.tasks, db.events, seen) == RepairUpTo(turns, tasks, events, rows, n, payload, stamp)
      invariant db.turns.Keys == turns.Keys
      invariant forall i | 0 <= i < |repaired| :: repaired[i] in turns
    {
      var row := rows[n];
      RepairUnfold(turns, tasks, events, rows, n, payload, stamp);
      if row.turn in seen { continue; }
      seen := seen + {row.turn};
      if InLine(turns, tasks, row) { continue; }
      db.turns := db.turns[row.turn := RepairedTurn(db.turns[row.turn], row)];
      if row.task.Some? && row.task.value in db.tasks {
        db.tasks := db.tasks[row.task.value := RepairedTask(db.tasks[row.task.value], row)];
      }
      db.events := Logged(db.events, ReconciledDraft(row, payload(row)), stamp);
      repaired := repaired + [row.turn];
    }
  }

  // --------------------------------------------------------------- reading right

  lemma {:induction false} TerminalRowsMean(turns: Turns, events: Events)
    ensures forall k | k in TerminalRows(turns, events) ::
      k.item in events && TerminalEvent(k.item) && k.item.turn in turns && k == RowKey(k.item)
    ensures forall e | e in events && TerminalEvent(e) && e.turn in turns ::
      RowKey(e) in TerminalRows(turns, events)
  {
    if events != [] {
      var init := events[..|events| - 1];
      TerminalRowsMean(turns, init);
      assert events == init + [events[|events| - 1]];
      hide TerminalEvent;
    }
  }

  lemma RowsMean(turns: Turns, events: Events)
    ensures forall e :: e in Rows(turns, events) <==> e in events && TerminalEvent(e) && e.turn in turns
  {
    var keyed := TerminalRows(turns, events);
    TerminalRowsMean(turns, events);
    SameMembers(keyed);
    hide TerminalRows, TerminalEvent;
    var sorted := Sort(keyed);
    forall e | e in Rows(turns, events) ensures e in events && TerminalEvent(e) && e.turn in turns {
      var i :| 0 <= i < |sorted| && sorted[i].item == e;
      assert sorted[i] in sorted;
    }
    forall e | e in events && TerminalEvent(e) && e.turn in turns ensures e in Rows(turns, events) {
      var k := RowKey(e);
      assert k in sorted;
      var i :| 0 <= i < |sorted| && sorted[i] == k;
      assert Items(sorted)[i] == e;
    }
  }

  lemma RowsAreKnown(turns: Turns, events: Events)
    ensures forall i | 0 <= i < |Rows(turns, events)| :: Rows(turns, events)[i].turn in turns
  {
    RowsMean(turns, events);
    hide Rows, TerminalEvent;
    assert forall i | 0 <= i < |Rows(turns, events)| :: Rows(turns, events)[i] in Rows(turns, events);
  }

  lemma RowsDescend(turns: Turns, events: Events, i: nat, j: nat)
    requires i < j < |Rows(turns, events)| && Rows(turns, events)[i].conversation == Rows(turns, events)[j].conversation
    ensures Rows(turns, events)[i].seqNo >= Rows(turns, events)[j].seqNo
  {
    var sorted := Sort(TerminalRows(turns, events));
    TerminalRowsMean(turns, events);
    SameMembers(TerminalRows(turns, events));
    SortSorted(TerminalRows(turns, events));
    hide TerminalRows, TerminalEvent;
    assert sorted[i] in sorted && sorted[j] in sorted;
    assert Leq(sorted[i], sorted[j]);
  }

  /** The first row of a turn among the first `n`. */
  function FirstRow(rows: Events, turn: TurnId, n: nat): Option<Event>
    requires n <= |rows|
  {
    if n == 0 then None
    else
      var before := FirstRow(rows, turn, n - 1);
      if before.Some? then before else if rows[n - 1].turn == turn then Some(rows[n - 1]) else None
  }

  lemma {:induction false} FirstRowMeans(rows: Events, turn: TurnId, n: nat)
    requires n <= |rows|
    ensures FirstRow(rows, turn, n).None? ==> forall i | 0 <= i < n :: rows[i].turn != turn
    ensures FirstRow(rows, turn, n).Some? ==>
      exists i :: 0 <= i < n && rows[i] == FirstRow(rows, turn, n).value && rows[i].turn == turn
        && forall k | 0 <= k < i :: rows[k].turn != turn
  {
    if n > 0 { FirstRowMeans(rows, turn, n - 1); }
  }

  lemma {:induction false} LastTerminalMeans(events: Events, turn: TurnId)
    ensures LastTerminal(events, turn).None? ==> forall e | e in events && TerminalEvent(e) :: e.turn != turn
    ensures LastTerminal(events, turn).Some? ==>
      exists i :: 0 <= i < |events| && events[i] == LastTerminal(events, turn).value && events[i].turn == turn && TerminalEvent(events[i])
        && forall k | i < k < |events| && TerminalEvent(events[k]) :: events[k].turn != turn
  {
    if events != [] {
      var init, last := events[..|events| - 1], events[|events| - 1];
      LastTerminalMeans(init, turn);
      assert events == init + [last];
      hide TerminalEvent;
      if !(last.turn == turn && TerminalEvent(last)) && LastTerminal(init, turn).Some? {
        var i :| 0 <= i < |init| && init[i] == LastTerminal(init, turn).value && init[i].turn == turn && TerminalEvent(init[i])
          && forall k | i < k < |init| && TerminalEvent(init[k]) :: init[k].turn != turn;
        assert events[i] == init[i];
        forall k | i < k < |events| && TerminalEvent(events[k]) ensures events[k].turn != turn {
          if k < |init| { assert events[k] == init[k]; }
        }
      }
    }
  }

  /** The first row read for a turn is its last terminal event: the one with the highest number. */
  lemma FirstRowIsLast(turns: Turns, events: Events, turn: TurnId)
    requires Dense(events) && Owned(turns, events) && turn in turns
    ensures var rows := Rows(turns, events); FirstRow(rows, turn, |rows|) == LastTerminal(events, turn)
  {
    var rows := Rows(turns, events);
    RowsMean(turns, events);
    FirstRowMeans(rows, turn, |rows|);
    LastTerminalMeans(events, turn);
    hide Rows, FirstRow, LastTerminal, TerminalEvent, Dense;
    if LastTerminal(events, turn).Some? {
      var last := LastTerminal(events, turn).value;
      var i :| 0 <= i < |events| && events[i] == last && events[i].turn == turn && TerminalEvent(events[i])
        && forall k | i < k < |events| && TerminalEvent(events[k]) :: events[k].turn != turn;
      assert last in events && last in rows;
      var p :| 0 <= p < |rows| && rows[p] == last;
      assert FirstRow(rows, turn, |rows|).Some?;
      FirstBeatsLast(turns, events, turn, i, p);
    } else {
      forall p | 0 <= p < |rows| ensures rows[p].turn != turn {
        assert rows[p] in rows;
      }
    }
  }

  lemma FirstBeatsLast(turns: Turns, events: Events, turn: TurnId, i: nat, p: nat)
    requires Dense(events) && Owned(turns, events) && i < |events| && p < |Rows(turns, events)|
    requires Rows(turns, events)[p] == events[i] && events[i].turn == turn
    requires forall k | i < k < |events| && TerminalEvent(events[k]) :: events[k].turn != turn
    requires FirstRow(Rows(turns, events), turn, |Rows(turns, events)|).Some?
    ensures FirstRow(Rows(turns, events), turn, |Rows(turns, events)|).value == events[i]
  {
    var rows := Rows(turns, events);
    FirstRowMeans(rows, turn, |rows|);
    RowsMean(turns, events);
    hide Rows, FirstRow, TerminalEvent, Dense;
    var q :| 0 <= q < |rows| && rows[q] == FirstRow(rows, turn, |rows|).value && rows[q].turn == turn
      && forall k | 0 <= k < q :: rows[k].turn != turn;
    assert q <= p;
    if q < p {
      assert rows[q] in rows && rows[q] in events && rows[p] in rows && rows[p] in events;
      var j :| 0 <= j < |events| && events[j] == rows[q];
      assert events[j].conversation == turns[turn].conversation == events[i].conversation;
      RowsDescend(turns, events, q, p);
      if j < i { LaterIsGreater(events, j, i); }
    }
  }

  // ------------------------------------------------------------ what it changes

  lemma RepairUnfold(turns: Turns, tasks: Tasks, events: Events, rows: Events, n: nat, payload: Event -> Json, stamp: Stamp)
    requires n < |rows|
    ensures RepairUpTo(turns, tasks, events, rows, n + 1, payload, stamp)
         == RepairStep(turns, tasks, RepairUpTo(turns, tasks, events, rows, n, payload, stamp), rows[n], payload, stamp)
  {
    hide RepairStep;
  }

  ghost predicate KnownRows(turns: Turns, rows: Events) {
    forall e | e in rows :: e.turn in turns
  }

  /** Where a turn stands after `n` rows: repaired by its first row, or as it was. */
  ghost predicate TurnsSettled(turns: Turns, tasks: Tasks, rows: Events, n: nat, d: Desk)
    requires n <= |rows|
  {
    && d.turns.Keys == turns.Keys
    && (forall t :: t in d.seen <==> t in turns && FirstRow(rows, t, n).Some?)
    && forall t | t in turns :: d.turns[t] == SettledTurn(turns, tasks, t, FirstRow(rows, t, n))
  }

  function SettledTurn(turns: Turns, tasks: Tasks, t: TurnId, row: Option<Event>): Turn
    requires t in turns
  {
    if row.Some? && row.value.turn == t && !InLine(turns, tasks, row.value) then RepairedTurn(turns[t], row.value) else turns[t]
  }

  lemma FirstRowStep(rows: Events, turn: TurnId, n: nat)
    requires n < |rows|
    ensures FirstRow(rows, turn, n + 1) ==
      if FirstRow(rows, turn, n).Some? then FirstRow(rows, turn, n)
      else if rows[n].turn == turn then Some(rows[n]) else None
  {
  }

  lemma {:induction false} TurnsSettle(
    turns: Turns, tasks: Tasks, events: Events, rows: Events, n: nat, payload: Event -> Json, stamp: Stamp)
    requires n <= |rows| && KnownRows(turns, rows)
    ensures TurnsSettled(turns, tasks, rows, n, RepairUpTo(turns, tasks, events, rows, n, payload, stamp))
  {
    hide *;
    if n == 0 {
      NoneSettled(turns, tasks, events, rows, payload, stamp);
    } else {
      TurnsSettle(turns, tasks, events, rows, n - 1, payload, stamp);
      RepairUnfold(turns, tasks, events, rows, n - 1, payload, stamp);
      SettleStep(turns, tasks, rows, n - 1, RepairUpTo(turns, tasks, events, rows, n - 1, payload, stamp), payload, stamp);
    }
  }

  lemma NoneSettled(turns: Turns, tasks: Tasks, events: Events, rows: Events, payload: Event -> Json, stamp: Stamp)
    ensures TurnsSettled(turns, tasks, rows, 0, RepairUpTo(turns, tasks, events, rows, 0, payload, stamp))
    ensures TasksSettled(turns, tasks, rows, 0, RepairUpTo(turns, tasks, events, rows, 0, payload, stamp))
    ensures KeysLogged(turns, tasks, rows, 0, RepairUpTo(turns, tasks, events, rows, 0, payload, stamp))
  {
    hide RepairStep, InLine, RepairedTurn, RepairedTask;
  }

  /** Each repair has left its mark in the log. */
  ghost predicate KeysLogged(turns: Turns, tasks: Tasks, rows: Events, n: nat, d: Desk)
    requires n <= |rows|
  {
    forall t | t in turns && FirstRow(rows, t, n).Some? ::
      var e := FirstRow(rows, t, n).value;
      e.turn == t && (InLine(turns, tasks, e) || FindKey(d.events, e.conversation, Reconciled(t, StatusOf(e.kind))).Some?)
  }

  lemma MarkStep(turns: Turns, tasks: Tasks, rows: Events, n: nat, d: Desk, payload: Event -> Json, stamp: Stamp)
    requires n < |rows| && KnownRows(turns, rows) && TurnsSettled(turns, tasks, rows, n, d) && KeysLogged(turns, tasks, rows, n, d)
    ensures KeysLogged(turns, tasks, rows, n + 1, RepairStep(turns, tasks, d, rows[n], payload, stamp))
  {
    var e := rows[n];
    assert e in rows;
    var d' := RepairStep(turns, tasks, d, e, payload, stamp);
    StepMarks(turns, tasks, d, e, payload, stamp);
    hide InLine, RepairStep, FirstRow, FindKey;
    forall t | t in turns && FirstRow(rows, t, n + 1).Some?
      ensures FirstRow(rows, t, n + 1).value.turn == t
      ensures var x := FirstRow(rows, t, n + 1).value;
        InLine(turns, tasks, x) || FindKey(d'.events, x.conversation, Reconciled(t, StatusOf(x.kind))).Some?
    {
      FirstRowStep(rows, t, n);
    }
  }

  lemma StepMarks(turns: Turns, tasks: Tasks, d: Desk, e: Event, payload: Event -> Json, stamp: Stamp)
    requires d.turns.Keys == turns.Keys && e.turn in turns
    ensures var d' := RepairStep(turns, tasks, d, e, payload, stamp);
      && (forall c: ConversationId, k: EventKey | FindKey(d.events, c, k).Some? :: FindKey(d'.events, c, k).Some?)
      && (e.turn !in d.seen && !InLine(turns, tasks, e) ==>
            FindKey(d'.events, e.conversation, Reconciled(e.turn, StatusOf(e.kind))).Some?)
  {
    var draft := ReconciledDraft(e, payload(e));
    var placed := Placed(d.events, draft, stamp.id(|d.events|), stamp.at(|d.events|));
    assert HasKey(placed, e.conversation, Reconciled(e.turn, StatusOf(e.kind))) by { hide MaxSeq; }
    hide InLine, Placed, StatusOf, HasKey, FindKey, RepairedTasks, RepairedTurn;
    forall c: ConversationId, k: EventKey
      ensures FindKey(d.events + [placed], c, k).Some? <==> FindKey(d.events, c, k).Some? || HasKey(placed, c, k)
    {
      FindKeyOneMore(d.events, placed, c, k);
    }
  }

  lemma {:induction false} KeysLog(
    turns: Turns, tasks: Tasks, events: Events, rows: Events, n: nat, payload: Event -> Json, stamp: Stamp)
    requires n <= |rows| && KnownRows(turns, rows)
    ensures KeysLogged(turns, tasks, rows, n, RepairUpTo(turns, tasks, events, rows, n, payload, stamp))
  {
    hide *;
    if n == 0 {
      NoneSettled(turns, tasks, events, rows, payload, stamp);
    } else {
      KeysLog(turns, tasks, events, rows, n - 1, payload, stamp);
      TurnsSettle(turns, tasks, events, rows, n - 1, payload, stamp);
      RepairUnfold(turns, tasks, events, rows, n - 1, payload, stamp);
      MarkStep(turns, tasks, rows, n - 1, RepairUpTo(turns, tasks, events, rows, n - 1, payload, stamp), payload, stamp);
    }
  }

  /** How one row moves the first rows of the turns. */
  lemma FirstRowsStep(rows: Events, n: nat)
    requires n < |rows|
    ensures forall t: TurnId ::
      FirstRow(rows, t, n + 1) ==
        (if FirstRow(rows, t, n).Some? then FirstRow(rows, t, n) else if rows[n].turn == t then Some(rows[n]) else None)
  {
  }

  lemma SettleStep(turns: Turns, tasks: Tasks, rows: Events, n: nat, d: Desk, payload: Event -> Json, stamp: Stamp)
    requires n < |rows| && KnownRows(turns, rows) && TurnsSettled(turns, tasks, rows, n, d)
    ensures TurnsSettled(turns, tasks, rows, n + 1, RepairStep(turns, tasks, d, rows[n], payload, stamp))
  {
    var e := rows[n];
    assert e in rows;
    FirstRowsStep(rows, n);
    StepTurns(turns, tasks, d, e, payload, stamp);
    hide InLine, RepairedTurn, RepairStep, FirstRow;
  }

  lemma StepTurns(turns: Turns, tasks: Tasks, d: Desk, e: Event, payload: Event -> Json, stamp: Stamp)
    requires e.turn in turns && d.turns.Keys == turns.Keys
    ensures var d' := RepairStep(turns, tasks, d, e, payload, stamp);
      && d'.turns.Keys == turns.Keys && d'.seen == d.seen + {e.turn}
      && (forall t | t in turns && t != e.turn :: d'.turns[t] == d.turns[t])
      && d'.turns[e.turn] ==
           if e.turn in d.seen || InLine(turns, tasks, e) then d.turns[e.turn] else RepairedTurn(d.turns[e.turn], e)
  {
    hide InLine, RepairedTurn, RepairedTasks, Logged, ReconciledDraft;
  }

  lemma StepTasks(turns: Turns, tasks: Tasks, d: Desk, e: Event, payload: Event -> Json, stamp: Stamp)
    requires e.turn in turns && d.turns.Keys == turns.Keys && d.tasks.Keys == tasks.Keys
    ensures var d' := RepairStep(turns, tasks, d, e, payload, stamp);
      && d'.tasks.Keys == tasks.Keys
      && (forall k | k in tasks && e.task != Some(k) :: d'.tasks[k] == d.tasks[k])
      && (e.task.Some? && e.task.value in tasks ==>
            d'.tasks[e.task.value] ==
              if e.turn in d.seen || InLine(turns, tasks, e) then d.tasks[e.task.value] else RepairedTask(d.tasks[e.task.value], e))
  {
    hide InLine, RepairedTurn, RepairedTask, Logged, ReconciledDraft;
  }

  /** Each terminal event carries the task of its turn. */
  ghost predicate TasksMatch(turns: Turns, events: Events) {
    forall e | e in events && TerminalEvent(e) && e.turn in turns :: e.task == turns[e.turn].task
  }

  /** A task belongs to one turn only. */
  ghost predicate TasksUnique(turns: Turns) {
    forall a, b | a in turns && b in turns && a != b && turns[a].task.Some? :: turns[a].task != turns[b].task
  }

  function SettledTask(turns: Turns, tasks: Tasks, k: TaskId, t: TurnId, row: Option<Event>): Task
    requires k in tasks && t in turns
  {
    if row.Some? && row.value.turn == t && !InLine(turns, tasks, row.value) then RepairedTask(tasks[k], row.value) else tasks[k]
  }

  ghost predicate RowsMatch(turns: Turns, rows: Events) {
    KnownRows(turns, rows) && forall e | e in rows && e.turn in turns :: e.task == turns[e.turn].task
  }

  /** Where tasks stand after `n` rows: the task of a turn follows that turn, the others are as they were. */
  ghost predicate TasksSettled(turns: Turns, tasks: Tasks, rows: Events, n: nat, d: Desk)
    requires n <= |rows|
  {
    && d.tasks.Keys == tasks.Keys
    && (forall t | t in turns && turns[t].task.Some? && turns[t].task.value in tasks ::
          d.tasks[turns[t].task.value] == SettledTask(turns, tasks, turns[t].task.value, t, FirstRow(rows, t, n)))
    && (forall k | k in tasks && (forall t | t in turns :: turns[t].task != Some(k)) :: d.tasks[k] == tasks[k])
  }

  lemma {:induction false} TasksSettle(
    turns: Turns, tasks: Tasks, events: Events, rows: Events, n: nat, payload: Event -> Json, stamp: Stamp)
    requires n <= |rows| && RowsMatch(turns, rows) && TasksUnique(turns)
    ensures TasksSettled(turns, tasks, rows, n, RepairUpTo(turns, tasks, events, rows, n, payload, stamp))
  {
    hide *;
    if n == 0 {
      NoneSettled(turns, tasks, events, rows, payload, stamp);
    } else {
      TasksSettle(turns, tasks, events, rows, n - 1, payload, stamp);
      RowsMatchMeans(turns, rows);
      TurnsSettle(turns, tasks, events, rows, n - 1, payload, stamp);
      RepairUnfold(turns, tasks, events, rows, n - 1, payload, stamp);
      SettleTaskStep(turns, tasks, rows, n - 1, RepairUpTo(turns, tasks, events, rows, n - 1, payload, stamp), payload, stamp);
    }
  }

  lemma RowsMatchMeans(turns: Turns, rows: Events)
    requires RowsMatch(turns, rows)
    ensures KnownRows(turns, rows)
  {
  }

  lemma SettleTaskStep(turns: Turns, tasks: Tasks, rows: Events, n: nat, d: Desk, payload: Event -> Json, stamp: Stamp)
    requires n < |rows| && RowsMatch(turns, rows) && TasksUnique(turns)
    requires TasksSettled(turns, tasks, rows, n, d) && TurnsSettled(turns, tasks, rows, n, d)
    ensures TasksSettled(turns, tasks, rows, n + 1, RepairStep(turns, tasks, d, rows[n], payload, stamp))
  {
    var e := rows[n];
    assert e in rows;
    FirstRowsStep(rows, n);
    StepTasks(turns, tasks, d, e, payload, stamp);
    SeenMeans(turns, tasks, rows, n, d);
    hide InLine, RepairedTask, RepairStep, FirstRow, TurnsSettled;
  }

  lemma SeenMeans(turns: Turns, tasks: Tasks, rows: Events, n: nat, d: Desk)
    requires n <= |rows| && TurnsSettled(turns, tasks, rows, n, d)
    ensures d.turns.Keys == turns.Keys
    ensures forall t :: t in d.seen <==> t in turns && FirstRow(rows, t, n).Some?
  {
    hide FirstRow, SettledTurn;
  }

  // --------------------------------------------------------------- the theorems

  /** A task shows the status of its turn: the same, or failed for interrupted. */
  predicate TaskAgrees(task: Task, status: Status) {
    task.status == status || task.status == TaskStatusOf(status)
  }

  /** After reconciliation each turn with a terminal event agrees with the highest-numbered one, and so does its task. */
  lemma EventsDecide(turns: Turns, tasks: Tasks, events: Events, payload: Event -> Json, stamp: Stamp, turn: TurnId)
    requires SoundLog(turns, events) && TasksMatch(turns, events) && TasksUnique(turns)
    requires turn in turns && LastTerminal(events, turn).Some?
    ensures var d := Reconciliation(turns, tasks, events, payload, stamp);
      var status := StatusOf(LastTerminal(events, turn).value.kind);
      && turn in d.turns && d.turns[turn].status == status
      && d.tasks.Keys == tasks.Keys
      && (turns[turn].task.Some? && turns[turn].task.value in tasks ==> TaskAgrees(d.tasks[turns[turn].task.value], status))
  {
    var rows := Rows(turns, events);
    RowsFit(turns, events);
    SoundParts(turns, events);
    FirstRowIsLast(turns, events, turn);
    RowsMatchMeans(turns, rows);
    TurnsSettle(turns, tasks, events, rows, |rows|, payload, stamp);
    TasksSettle(turns, tasks, events, rows, |rows|, payload, stamp);
    FirstRowMeans(rows, turn, |rows|);
    hide Rows, RepairUpTo, FirstRow, LastTerminal, SoundLog, StatusOf, TaskStatusOf, TasksMatch, TasksUnique;
    var row := FirstRow(rows, turn, |rows|).value;
    assert row in rows;
  }

  /** A terminal event and the rows of its turn: they show the status already, or are brought to it. */
  ghost predicate BroughtTo(status: Status, e: Event, t: Turn, k: Option<Task>, t': Turn, k': Option<Task>) {
    if t.status == status && (k.Some? ==> k.value.status == status) then t' == t && k' == k
    else
      && t' == t.(status := status, finishedAt := t'.finishedAt)
      && t'.finishedAt == (if t.finishedAt.Some? then t.finishedAt else Some(e.createdAt))
      && (k.None? ==> k'.None?)
      && (k.Some? ==>
            && k'.Some?
            && k'.value == k.value.(status := k'.value.status, finishedAt := k'.value.finishedAt,
                                    claimOwner := None, claimToken := None, lease := None)
            && k'.value.status == (if status == Status.Interrupted then Failed else status)
            && k'.value.finishedAt == (if k.value.finishedAt.Some? then k.value.finishedAt else Some(e.createdAt)))
  }

  /**
    The row of a turn and that of its task after reconciliation: as they were
    without a terminal event, and else brought to the status of the last one.
    A repair takes the claim away and keeps the time at which the row ended.
   */
  lemma RowsAfterwards(turns: Turns, tasks: Tasks, events: Events, payload: Event -> Json, stamp: Stamp, turn: TurnId)
    requires SoundLog(turns, events) && TasksMatch(turns, events) && TasksUnique(turns) && turn in turns
    requires turns[turn].task.Some? ==> turns[turn].task.value in tasks
    ensures var d := Reconciliation(turns, tasks, events, payload, stamp);
      && turn in d.turns && d.turns[turn].task == turns[turn].task && (turns[turn].task.Some? ==> turns[turn].task.value in d.tasks)
      && var k := if turns[turn].task.Some? then Some(tasks[turns[turn].task.value]) else None;
         var k' := if turns[turn].task.Some? then Some(d.tasks[turns[turn].task.value]) else None;
         match LastTerminal(events, turn)
         case None => d.turns[turn] == turns[turn] && k' == k
         case Some(e) => BroughtTo(StatusOf(e.kind), e, turns[turn], k, d.turns[turn], k')
  {
    var rows := Rows(turns, events);
    RowsFit(turns, events);
    SoundParts(turns, events);
    FirstRowIsLast(turns, events, turn);
    RowsMatchMeans(turns, rows);
    TurnsSettle(turns, tasks, events, rows, |rows|, payload, stamp);
    TasksSettle(turns, tasks, events, rows, |rows|, payload, stamp);
    FirstRowMeans(rows, turn, |rows|);
    var row := LastTerminal(events, turn);
    assert row.Some? ==> row.value.turn == turn && row.value in rows;
    var d := RepairUpTo(turns, tasks, events, rows, |rows|, payload, stamp);
    var task := turns[turn].task;
    assert d.turns[turn] == SettledTurn(turns, tasks, turn, row);
    if task.Some? { assert d.tasks[task.value] == SettledTask(turns, tasks, task.value, turn, row); }
    SettledBrings(turns, tasks, turn, row);
    hide *;
    ReconciliationIs(turns, tasks, events, payload, stamp);
  }

  lemma SettledBrings(turns: Turns, tasks: Tasks, turn: TurnId, row: Option<Event>)
    requires turn in turns && (turns[turn].task.Some? ==> turns[turn].task.value in tasks)
    requires row.Some? ==> row.value.turn == turn && row.value.task == turns[turn].task
    ensures var k := if turns[turn].task.Some? then Some(tasks[turns[turn].task.value]) else None;
      var t' := SettledTurn(turns, tasks, turn, row);
      var k' := if turns[turn].task.Some? then Some(SettledTask(turns, tasks, turns[turn].task.value, turn, row)) else None;
      match row
      case None => t' == turns[turn] && k' == k
      case Some(e) => BroughtTo(StatusOf(e.kind), e, turns[turn], k, t', k') && t'.task == turns[turn].task
  {
    hide StatusOf;
  }

  lemma SoundParts(turns: Turns, events: Events)
    requires SoundLog(turns, events)
    ensures Dense(events) && Owned(turns, events)
  {
  }

  lemma RowsFit(turns: Turns, events: Events)
    requires TasksMatch(turns, events)
    ensures RowsMatch(turns, Rows(turns, events))
  {
    RowsMean(turns, events);
    hide Rows, TerminalEvent;
  }

  lemma {:induction false} LogOnlyExtended(
    turns: Turns, tasks: Tasks, events: Events, rows: Events, n: nat, payload: Event -> Json, stamp: Stamp) returns (more: Events)
    requires n <= |rows| && SoundLog(turns, events)
    requires forall e | e in rows :: e.turn in turns && e.conversation == turns[e.turn].conversation
    ensures var d := RepairUpTo(turns, tasks, events, rows, n, payload, stamp);
      d.events == events + more && SoundLog(turns, d.events)
    ensures forall e | e in more :: e.kind.LifecycleReconciled? && !e.visible
  {
    hide SoundLog, InLine, RepairedTurn, RepairedTasks;
    if n == 0 {
      more := [];
    } else {
      var d := RepairUpTo(turns, tasks, events, rows, n - 1, payload, stamp);
      var e := rows[n - 1];
      assert e in rows;
      var before := LogOnlyExtended(turns, tasks, events, rows, n - 1, payload, stamp);
      RepairUnfold(turns, tasks, events, rows, n - 1, payload, stamp);
      LoggedKeepsSound(turns, d.events, ReconciledDraft(e, payload(e)), stamp);
      var placed := LoggedMore(d.events, e, payload, stamp);
      hide RepairUpTo, Logged;
      if RepairStep(turns, tasks, d, e, payload, stamp).events == d.events {
        more := before;
      } else {
        more := before + placed;
        assert events + (before + placed) == (events + before) + placed;
      }
    }
  }

  lemma LoggedMore(events: Events, e: Event, payload: Event -> Json, stamp: Stamp) returns (placed: Events)
    ensures Logged(events, ReconciledDraft(e, payload(e)), stamp) == events + placed
    ensures forall x | x in placed :: x.kind.LifecycleReconciled? && !x.visible
  {
    hide FindKey, MaxSeq;
    var d := ReconciledDraft(e, payload(e));
    if FindKey(events, d.conversation, d.key.value).Some? {
      placed := [];
      assert events + [] == events;
    } else {
      placed := [Placed(events, d, stamp.id(|events|), stamp.at(|events|))];
    }
  }

  lemma RowsOwned(turns: Turns, events: Events)
    requires Owned(turns, events)
    ensures forall e | e in Rows(turns, events) :: e.turn in turns && e.conversation == turns[e.turn].conversation
  {
    RowsMean(turns, events);
    hide Rows, TerminalEvent;
  }

  /** No event is changed or renumbered; new ones are only added behind, and the numbering stays dense. */
  lemma ReconcilingOnlyAdds(turns: Turns, tasks: Tasks, events: Events, payload: Event -> Json, stamp: Stamp) returns (more: Events)
    requires SoundLog(turns, events)
    ensures var d := Reconciliation(turns, tasks, events, payload, stamp);
      d.events == events + more && SoundLog(turns, d.events)
    ensures forall e | e in more :: e.kind.LifecycleReconciled? && !e.visible
  {
    SoundParts(turns, events);
    RowsOwned(turns, events);
    hide Rows, RepairUpTo, SoundLog, Owned;
    more := LogOnlyExtended(turns, tasks, events, Rows(turns, events), |Rows(turns, events)|, payload, stamp);
  }

  // ------------------------------------------------------- a second application

  lemma {:induction false} MoreAddsNoRow(turns: Turns, turns': Turns, events: Events, more: Events)
    requires turns'.Keys == turns.Keys
    requires forall e | e in more :: e.kind.LifecycleReconciled?
    ensures TerminalRows(turns', events + more) == TerminalRows(turns, events)
    decreases |more|, |events|
  {
    if more != [] {
      var init := more[..|more| - 1];
      assert (events + more)[..|events + more| - 1] == events + init;
      assert more[|more| - 1] in more;
      MoreAddsNoRow(turns, turns', events, init);
      hide RowKey;
    } else {
      assert events + more == events;
      SameRows(turns, turns', events);
    }
  }

  lemma {:induction false} SameRows(turns: Turns, turns': Turns, events: Events)
    requires turns'.Keys == turns.Keys
    ensures TerminalRows(turns', events) == TerminalRows(turns, events)
  {
    if events != [] {
      SameRows(turns, turns', events[..|events| - 1]);
      hide RowKey, TerminalEvent;
    }
  }

  /** A row that has been repaired, or needed nothing, needs nothing to be written again. */
  ghost predicate Repaired(turns: Turns, tasks: Tasks, events: Events, e: Event)
    requires e.turn in turns
  {
    InLine(turns, tasks, e)
    || (&& RepairedTurn(turns[e.turn], e) == turns[e.turn] && RepairedTasks(tasks, e) == tasks
        && FindKey(events, e.conversation, Reconciled(e.turn, StatusOf(e.kind))).Some?)
  }

  lemma RepairedTurnStays(t: Turn, e: Event)
    ensures RepairedTurn(RepairedTurn(t, e), e) == RepairedTurn(t, e)
    ensures RepairedTurn(t, e).task == t.task
  {
  }

  lemma RepairedTaskStays(k: Task, e: Event)
    ensures RepairedTask(RepairedTask(k, e), e) == RepairedTask(k, e)
  {
  }

  lemma FirstRowsAreRepaired(
    turns: Turns, tasks: Tasks, events: Events, rows: Events, payload: Event -> Json, stamp: Stamp, turn: TurnId)
    requires RowsMatch(turns, rows) && TasksUnique(turns) && turn in turns && FirstRow(rows, turn, |rows|).Some?
    ensures var d := RepairUpTo(turns, tasks, events, rows, |rows|, payload, stamp);
      var e := FirstRow(rows, turn, |rows|).value;
      d.turns.Keys == turns.Keys && e.turn == turn && Repaired(d.turns, d.tasks, d.events, e)
  {
    var d := RepairUpTo(turns, tasks, events, rows, |rows|, payload, stamp);
    var e := FirstRow(rows, turn, |rows|).value;
    RowsMatchMeans(turns, rows);
    TurnsSettle(turns, tasks, events, rows, |rows|, payload, stamp);
    TasksSettle(turns, tasks, events, rows, |rows|, payload, stamp);
    KeysLog(turns, tasks, events, rows, |rows|, payload, stamp);
    FirstRowMeans(rows, turn, |rows|);
    hide RepairUpTo, FirstRow, FindKey, RepairedTurn, RepairedTask, StatusOf, TasksUnique;
    assert e in rows;
    RepairedTurnStays(turns[turn], e);
    if turns[turn].task.Some? && turns[turn].task.value in tasks {
      RepairedTaskStays(tasks[turns[turn].task.value], e);
    }
  }

  lemma RepairedStepIsNothing(turns: Turns, tasks: Tasks, d: Desk, e: Event, payload: Event -> Json, stamp: Stamp)
    requires d.turns == turns && d.tasks == tasks && e.turn in turns && Repaired(turns, tasks, d.events, e)
    ensures var d' := RepairStep(turns, tasks, d, e, payload, stamp);
      d'.turns == turns && d'.tasks == tasks && d'.events == d.events
  {
    hide InLine, FindKey, RepairedTurn, RepairedTasks, StatusOf;
  }

  lemma SeenStepIsNothing(turns: Turns, tasks: Tasks, d: Desk, e: Event, payload: Event -> Json, stamp: Stamp)
    requires e.turn in d.seen
    ensures RepairStep(turns, tasks, d, e, payload, stamp) == d
  {
  }

  ghost predicate AllRepaired(turns: Turns, tasks: Tasks, events: Events, rows: Events) {
    KnownRows(turns, rows)
    && forall t | t in turns && FirstRow(rows, t, |rows|).Some? ::
         var e := FirstRow(rows, t, |rows|).value; e.turn == t && Repaired(turns, tasks, events, e)
  }

  lemma {:induction false} RepairingNothing(
    turns: Turns, tasks: Tasks, events: Events, rows: Events, n: nat, payload: Event -> Json, stamp: Stamp)
    requires n <= |rows| && AllRepaired(turns, tasks, events, rows)
    ensures var d := RepairUpTo(turns, tasks, events, rows, n, payload, stamp);
      d.turns == turns && d.tasks == tasks && d.events == events
  {
    hide *;
    if n == 0 {
      RepairStart(turns, tasks, events, rows, payload, stamp);
    } else {
      var d := RepairUpTo(turns, tasks, events, rows, n - 1, payload, stamp);
      RepairingNothing(turns, tasks, events, rows, n - 1, payload, stamp);
      AllRepairedMeans(turns, tasks, events, rows, n - 1);
      TurnsSettle(turns, tasks, events, rows, n - 1, payload, stamp);
      RepairUnfold(turns, tasks, events, rows, n - 1, payload, stamp);
      if rows[n - 1].turn in d.seen {
        SeenStepIsNothing(turns, tasks, d, rows[n - 1], payload, stamp);
      } else {
        UnseenIsFirst(turns, tasks, rows, n - 1, d);
        RepairedStepIsNothing(turns, tasks, d, rows[n - 1], payload, stamp);
      }
    }
  }

  lemma RepairStart(turns: Turns, tasks: Tasks, events: Events, rows: Events, payload: Event -> Json, stamp: Stamp)
    ensures RepairUpTo(turns, tasks, events, rows, 0, payload, stamp) == Desk(turns, tasks, events, {})
  {
  }

  lemma AllRepairedMeans(turns: Turns, tasks: Tasks, events: Events, rows: Events, n: nat)
    requires n < |rows| && AllRepaired(turns, tasks, events, rows)
    ensures KnownRows(turns, rows) && rows[n].turn in turns
    ensures FirstRow(rows, rows[n].turn, |rows|) == Some(rows[n]) ==> Repaired(turns, tasks, events, rows[n])
  {
    hide Repaired, FirstRow;
    assert rows[n] in rows;
  }

  lemma UnseenIsFirst(turns: Turns, tasks: Tasks, rows: Events, n: nat, d: Desk)
    requires n < |rows| && TurnsSettled(turns, tasks, rows, n, d) && rows[n].turn in turns && rows[n].turn !in d.seen
    ensures FirstRow(rows, rows[n].turn, |rows|) == Some(rows[n])
  {
    hide FirstRow, InLine;
    assert FirstRow(rows, rows[n].turn, n).None?;
    FirstRowStep(rows, rows[n].turn, n);
    FirstRowStays(rows, rows[n].turn, n + 1, |rows|);
  }

  lemma {:induction false} FirstRowStays(rows: Events, turn: TurnId, n: nat, m: nat)
    requires n <= m <= |rows| && FirstRow(rows, turn, n).Some?
    ensures FirstRow(rows, turn, m) == FirstRow(rows, turn, n)
    decreases m
  {
    if n < m { FirstRowStays(rows, turn, n, m - 1); }
  }

  /** Reconciling a second time changes nothing at all: no turn, no task, no event. */
  lemma ReconcilingTwice(
    turns: Turns, tasks: Tasks, events: Events, payload: Event -> Json, stamp: Stamp, payload': Event -> Json, stamp': Stamp)
    requires SoundLog(turns, events) && TasksMatch(turns, events) && TasksUnique(turns)
    ensures var d := Reconciliation(turns, tasks, events, payload, stamp);
      var d' := Reconciliation(d.turns, d.tasks, d.events, payload', stamp');
      d'.turns == d.turns && d'.tasks == d.tasks && d'.events == d.events
  {
    hide *;
    var rows := Rows(turns, events);
    var d := Reconciliation(turns, tasks, events, payload, stamp);
    ReconciliationIs(turns, tasks, events, payload, stamp);
    ReconciliationIs(d.turns, d.tasks, d.events, payload', stamp');
    RowsFit(turns, events);
    RowsMatchMeans(turns, rows);
    SettledKeys(turns, tasks, events, rows, payload, stamp);
    var more := ReconcilingOnlyAdds(turns, tasks, events, payload, stamp);
    RowsAgain(turns, d.turns, events, more);
    AllAreRepaired(turns, tasks, events, rows, payload, stamp);
    RepairingNothing(d.turns, d.tasks, d.events, rows, |rows|, payload', stamp');
  }

  lemma ReconciliationIs(turns: Turns, tasks: Tasks, events: Events, payload: Event -> Json, stamp: Stamp)
    ensures Reconciliation(turns, tasks, events, payload, stamp)
         == RepairUpTo(turns, tasks, events, Rows(turns, events), |Rows(turns, events)|, payload, stamp)
  {
    hide Rows, RepairUpTo;
  }

  lemma SettledKeys(turns: Turns, tasks: Tasks, events: Events, rows: Events, payload: Event -> Json, stamp: Stamp)
    requires KnownRows(turns, rows)
    ensures RepairUpTo(turns, tasks, events, rows, |rows|, payload, stamp).turns.Keys == turns.Keys
  {
    TurnsSettle(turns, tasks, events, rows, |rows|, payload, stamp);
    hide RepairUpTo, FirstRow, InLine;
  }

  lemma RowsAgain(turns: Turns, turns': Turns, events: Events, more: Events)
    requires turns'.Keys == turns.Keys && forall e | e in more :: e.kind.LifecycleReconciled?
    ensures Rows(turns', events + more) == Rows(turns, events)
  {
    MoreAddsNoRow(turns, turns', events, more);
    hide TerminalRows;
  }

  lemma AllAreRepaired(turns: Turns, tasks: Tasks, events: Events, rows: Events, payload: Event -> Json, stamp: Stamp)
    requires RowsMatch(turns, rows) && TasksUnique(turns)
    ensures var d := RepairUpTo(turns, tasks, events, rows, |rows|, payload, stamp);
      AllRepaired(d.turns, d.tasks, d.events, rows)
  {
    RowsMatchMeans(turns, rows);
    SettledKeys(turns, tasks, events, rows, payload, stamp);
    hide RepairUpTo, FirstRow, Repaired, RowsMatch, TasksUnique;
    var d := RepairUpTo(turns, tasks, events, rows, |rows|, payload, stamp);
    forall t | t in d.turns && FirstRow(rows, t, |rows|).Some?
      ensures FirstRow(rows, t, |rows|).value.turn == t && Repaired(d.turns, d.tasks, d.events, FirstRow(rows, t, |rows|).value)
    {
      FirstRowsAreRepaired(turns, tasks, events, rows, payload, stamp, t);
    }
  }

  // ------------------------------------------------------------- finalization

  /** A turn shows the status its last terminal event tells. */
  ghost predicate Agrees(turns: Turns, events: Events, turn: TurnId)
    requires turn in turns
  {
    LastTerminal(events, turn).Some? ==> turns[turn].status == StatusOf(LastTerminal(events, turn).value.kind)
  }

  /**
    `finalize_lifecycle` leaves turn and log in agreement exactly when its event
    was new, or the turn's last terminal event already told the same status.
    Repeating an older key with another event in between does not.
   */
  lemma FinalizeAgreesExactly(turns: Turns, events: Events, d: Draft, status: Status, error: string, at: Time, id: string, logged: Time)
    requires d.turn in turns && d.key.Some? && status == StatusOf(d.kind)
    requires d.kind.TurnCompleted? || d.kind.TurnFailed? || d.kind.TurnCanceled? || d.kind.TurnInterrupted?
    requires LastTerminal(events, d.turn).Some?
    ensures Agrees(turns[d.turn := FinalizedTurn(turns[d.turn], status, error, at)], LogWith(events, d, id, logged), d.turn) <==>
      || FindKey(events, d.conversation, d.key.value).None?
      || StatusOf(LastTerminal(events, d.turn).value.kind) == status
  {
    hide FindKey, MaxSeq;
    var e := Placed(events, d, id, logged);
    assert (events + [e])[..|events|] == events;
    assert LastTerminal(events + [e], d.turn) == Some(e);
  }
}
