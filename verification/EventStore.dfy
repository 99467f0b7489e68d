/**
  The append-only conversation log: one numbered sequence per conversation,
  idempotent appends by key, and the lifecycle writes that move an event, its
  turn and its task in one transaction.
 */
module EventStore {
  import opened JsonValue
  import opened Tables
  import opened TaskQueue

  type Events = seq<Event>
  type Turns = map<TurnId, Turn>

  // ------------------------------------------------------------ reading rows

  /** `COALESCE(MAX(seq), 0)` over a conversation. */
  function MaxSeq(events: Events, conversation: ConversationId): nat {
    if events == [] then 0
    else
      var last, before := events[|events| - 1], MaxSeq(events[..|events| - 1], conversation);
      if last.conversation == conversation && last.seqNo > before then last.seqNo else before
  }

  /** `COUNT(*)` over a conversation. */
  function CountIn(events: Events, conversation: ConversationId): nat {
    if events == [] then 0
    else
      CountIn(events[..|events| - 1], conversation) + (if events[|events| - 1].conversation == conversation then 1 else 0)
  }

  predicate HasKey(e: Event, conversation: ConversationId, key: EventKey) {
    e.conversation == conversation && e.key == Some(key)
  }

  /** The row with this key in this conversation. */
  function FindKey(events: Events, conversation: ConversationId, key: EventKey): Option<Event> {
    if events == [] then None
    else if HasKey(events[0], conversation, key) then Some(events[0])
    else FindKey(events[1..], conversation, key)
  }

  // --------------------------------------------------------------- appending

  /** An event before it has a place in the log. */
  datatype Draft = Draft(
    conversation: ConversationId, turn: TurnId, task: Option<TaskId>, kind: EventKind, visible: bool,
    key: Option<EventKey>, payload: Json)

  function Placed(events: Events, d: Draft, id: string, at: Time): Event {
    Event(id, d.conversation, d.turn, d.task, MaxSeq(events, d.conversation) + 1, d.kind, d.visible, d.key, d.payload, at)
  }

  datatype AppendResult =
    | Appended(event: Event)
    | Existing(event: Event)
    | TurnNotFound
    | QuotaExceeded
    | KeyTaken

  function WithTask(d: Draft, turns: Turns): Draft
    requires d.turn in turns
  {
    d.(task := if d.task.Some? then d.task else turns[d.turn].task)
  }

  /** What `_append_event` answers. */
  function AppendOutcome(
    turns: Turns, events: Events, d: Draft, idempotent: bool, id: string, at: Time, quota: nat): AppendResult
  {
    var existing := if d.key.Some? then FindKey(events, d.conversation, d.key.value) else None;
    if idempotent && existing.Some? then Existing(existing.value)
    else if d.turn !in turns || turns[d.turn].conversation != d.conversation then TurnNotFound
    else if CountIn(events, d.conversation) >= quota then QuotaExceeded
    else if existing.Some? then KeyTaken
    else Appended(Placed(events, WithTask(d, turns), id, at))
  }

  function LogAfter(events: Events, r: AppendResult): Events {
    if r.Appended? then events + [r.event] else events
  }

  /** `_append_event`, its unique index on conversation and key included. */
  method AppendEvent(db: Database, d: Draft, idempotent: bool, id: string, at: Time, quota: nat) returns (r: AppendResult)
    modifies db`events
    ensures r == AppendOutcome(db.turns, old(db.events), d, idempotent, id, at, quota)
    ensures db.events == LogAfter(old(db.events), r)
  {
    var existing := None;
    if d.key.Some? { existing := FindKey(db.events, d.conversation, d.key.value); }
    if idempotent && existing.Some? { return Existing(existing.value); }
    if d.turn !in db.turns || db.turns[d.turn].conversation != d.conversation { return TurnNotFound; }
    var effectiveTask := if d.task.Some? then d.task else db.turns[d.turn].task;
    if CountIn(db.events, d.conversation) >= quota { return QuotaExceeded; }
    if existing.Some? { return KeyTaken; }
    var event := Placed(db.events, d.(task := effectiveTask), id, at);
    db.events := db.events + [event];
    return Appended(event);
  }

  // ------------------------------------------------------- idempotent appends

  /** Fresh identities and times, by the position an event gets. */
  datatype Stamp = Stamp(id: nat -> string, at: nat -> Time)

  /** A keyed event is placed once.  Lifecycle writes do this without asking the quota. */
  function LogWith(events: Events, d: Draft, id: string, at: Time): Events {
    if d.key.Some? && FindKey(events, d.conversation, d.key.value).Some? then events else events + [Placed(events, d, id, at)]
  }

  function Logged(events: Events, d: Draft, stamp: Stamp): Events {
    LogWith(events, d, stamp.id(|events|), stamp.at(|events|))
  }

  /** One idempotent append with a task of its own turn; false when the conversation's quota is used up. */
  method LogOnce(db: Database, d: Draft, quota: nat, stamp: Stamp) returns (ok: bool)
    requires d.key.Some? && d.turn in db.turns && db.turns[d.turn].conversation == d.conversation
    requires d.task.None? ==> db.turns[d.turn].task.None?
    modifies db`events
    ensures ok ==> db.events == Logged(old(db.events), d, stamp)
    ensures !ok ==> db.events == old(db.events)
  {
    hide FindKey, CountIn, MaxSeq;
    var n := |db.events|;
    var r := AppendEvent(db, d, true, stamp.id(n), stamp.at(n), quota);
    ok := r.Appended? || r.Existing?;
  }

  /** An event of the conversation carries the key. */
  ghost predicate Taken(events: Events, d: Draft) {
    exists e :: e in events && e.conversation == d.conversation && d.key != None && e.key == d.key
  }

  /** The new event says what the draft says, for the draft's task or else the turn's, under the next number. */
  ghost predicate Follows(turns: Turns, events: Events, d: Draft, id: string, at: Time, e: Event)
    requires d.turn in turns
  {
    && e.conversation == d.conversation && e.turn == d.turn && e.kind == d.kind && e.visible == d.visible && e.key == d.key
    && e.payload == d.payload && e.id == id && e.createdAt == at
    && e.task == (if d.task == None then turns[d.turn].task else d.task)
    && (forall x | x in events && x.conversation == d.conversation :: x.seqNo < e.seqNo)
    && (e.seqNo == 1 || exists x :: x in events && x.conversation == d.conversation && x.seqNo + 1 == e.seqNo)
  }

  lemma {:induction false} MaxIsGreatest(events: Events, conversation: ConversationId)
    ensures forall x | x in events && x.conversation == conversation :: x.seqNo <= MaxSeq(events, conversation)
    ensures MaxSeq(events, conversation) == 0 || exists x :: x in events && x.conversation == conversation && x.seqNo == MaxSeq(events, conversation)
  {
    if events != [] {
      var init, last := events[..|events| - 1], events[|events| - 1];
      MaxIsGreatest(init, conversation);
      assert events == init + [last];
    }
  }

  /**
    What an append answers: the event under its key when asked to, whatever the
    quota; else a refusal for a turn that is not of the conversation, for a full
    conversation, for a taken key; and else a new event.
   */
  lemma AppendsExactly(turns: Turns, events: Events, d: Draft, idempotent: bool, id: string, at: Time, quota: nat)
    ensures var r := AppendOutcome(turns, events, d, idempotent, id, at, quota);
      if idempotent && Taken(events, d) then
        r.Existing? && r.event in events && r.event.conversation == d.conversation && r.event.key == d.key
      else if !(d.turn in turns && turns[d.turn].conversation == d.conversation) then r == TurnNotFound
      else if |set i | 0 <= i < |events| && events[i].conversation == d.conversation| >= quota then r == QuotaExceeded
      else if Taken(events, d) then r == KeyTaken
      else r.Appended? && Follows(turns, events, d, id, at, r.event)
  {
    if d.key.Some? { FindKeyMeans(events, d.conversation, d.key.value); }
    MaxIsGreatest(events, d.conversation);
    CountIsCount(events, d.conversation);
    hide MaxSeq, FindKey, CountIn;
  }

  lemma {:induction false} CountIsCount(events: Events, conversation: ConversationId)
    ensures CountIn(events, conversation) == |set i | 0 <= i < |events| && events[i].conversation == conversation|
  {
    var all := set i | 0 <= i < |events| && events[i].conversation == conversation;
    if events != [] {
      var init, last := events[..|events| - 1], events[|events| - 1];
      CountIsCount(init, conversation);
      var some := set i | 0 <= i < |init| && init[i].conversation == conversation;
      assert all == some + if last.conversation == conversation then {|init|} else {};
    } else {
      assert all == {};
    }
  }

  // ---------------------------------------------------------------- lifecycle

  predicate IdentityMatches(
    tasks: Tasks, turns: Turns, conversation: ConversationId, turn: TurnId, task: TaskId, user: string)
  {
    && turn in turns && turns[turn].conversation == conversation && turns[turn].task == Some(task) && turns[turn].user == user
    && task in tasks && tasks[task].user == user
  }

  lemma MatchedExists(tasks: Tasks, turns: Turns, conversation: ConversationId, turn: TurnId, task: TaskId, user: string)
    ensures IdentityMatches(tasks, turns, conversation, turn, task, user) ==> turn in turns && task in tasks
  {
  }

  function StartedTurn(t: Turn, at: Time): Turn {
    t.(status := Running, startedAt := if t.startedAt.Some? then t.startedAt else Some(at), finishedAt := None, errorMessage := "")
  }

  function FinalizedTurn(t: Turn, status: Status, error: string, at: Time): Turn {
    t.(status := status, finishedAt := Some(at), errorMessage := error)
  }

  function StartDraft(conversation: ConversationId, turn: TurnId, task: TaskId, payload: Json): Draft {
    Draft(conversation, turn, Some(task), TurnStarted, false, Some(TurnStart(turn)), payload)
  }

  /** The turn runs: since its first start, not ended, without an error. */
  ghost predicate TurnRuns(t: Turn, at: Time, t': Turn) {
    && t' == t.(status := t'.status, startedAt := t'.startedAt, finishedAt := t'.finishedAt, errorMessage := t'.errorMessage)
    && t'.status == Running && t'.finishedAt == None && t'.errorMessage == ""
    && t'.startedAt == (if t.startedAt == None then Some(at) else t.startedAt)
  }

  ghost predicate TaskRuns(t: Task, at: Time, t': Task) {
    && t' == t.(status := t'.status, startedAt := t'.startedAt, finishedAt := t'.finishedAt, errorMessage := t'.errorMessage)
    && t'.status == Running && t'.finishedAt == None && t'.errorMessage == ""
    && t'.startedAt == (if t.startedAt == None then Some(at) else t.startedAt)
  }

  /** The row ended: with this status, time and error, and otherwise as it was. */
  ghost predicate TurnEnds(t: Turn, status: Status, error: string, at: Time, t': Turn) {
    t' == t.(status := status, finishedAt := Some(at), errorMessage := error)
  }

  ghost predicate TaskEnds(t: Task, status: Status, error: string, at: Time, t': Task) {
    t' == t.(status := status, finishedAt := Some(at), errorMessage := error)
  }

  /** The user's own turn of the user's own task. */
  ghost predicate OwnPair(tasks: Tasks, turns: Turns, conversation: ConversationId, turn: TurnId, task: TaskId, user: string) {
    && turn in turns && turns[turn].conversation == conversation && turns[turn].user == user && turns[turn].task == Some(task)
    && task in tasks && tasks[task].user == user
  }

  lemma StartMeans(tasks: Tasks, turns: Turns, conversation: ConversationId, turn: TurnId, task: TaskId, user: string, at: Time)
    ensures IdentityMatches(tasks, turns, conversation, turn, task, user) <==> OwnPair(tasks, turns, conversation, turn, task, user)
    ensures OwnPair(tasks, turns, conversation, turn, task, user) ==>
      TurnRuns(turns[turn], at, StartedTurn(turns[turn], at)) && TaskRuns(tasks[task], at, StartedTask(tasks[task], at))
  {
  }

  lemma FinalMeans(t: Turn, k: Task, status: Status, error: string, at: Time)
    ensures TurnEnds(t, status, error, at, FinalizedTurn(t, status, error, at))
    ensures TaskEnds(k, status, error, at, FinalizedTask(k, status, error, at))
  {
  }

  /** A lifecycle event is written once for its key: hidden from the model, for this turn and this task. */
  ghost predicate LifecycleLogged(
    events: Events, conversation: ConversationId, turn: TurnId, task: TaskId, kind: EventKind, key: EventKey, payload: Json, after: Events)
  {
    if exists e :: e in events && e.conversation == conversation && e.key == Some(key) then after == events
    else
      && |after| == |events| + 1 && events < after
      && var e := after[|events|];
         && e.conversation == conversation && e.turn == turn && e.task == Some(task) && e.kind == kind && !e.visible
         && e.key == Some(key) && e.payload == payload
         && forall x | x in events && x.conversation == conversation :: x.seqNo < e.seqNo
  }

  lemma LifecycleIsLogged(
    events: Events, conversation: ConversationId, turn: TurnId, task: TaskId, kind: EventKind, key: EventKey, payload: Json, id: string, at: Time)
    ensures LifecycleLogged(events, conversation, turn, task, TurnStarted, TurnStart(turn), payload,
                            LogWith(events, StartDraft(conversation, turn, task, payload), id, at))
    ensures LifecycleLogged(events, conversation, turn, task, kind, key, payload,
                            LogWith(events, EndDraft(conversation, turn, task, kind, key, payload), id, at))
  {
    FindKeyMeans(events, conversation, TurnStart(turn));
    FindKeyMeans(events, conversation, key);
    MaxIsGreatest(events, conversation);
    hide FindKey, MaxSeq;
  }

  /** `start_lifecycle`. */
  method StartLifecycle(
    db: Database, conversation: ConversationId, turn: TurnId, task: TaskId, user: string, payload: Json, id: string, at: Time)
    returns (found: bool)
    modifies db`events, db`turns, db`tasks
    ensures found == IdentityMatches(old(db.tasks), old(db.turns), conversation, turn, task, user)
    ensures found <==> OwnPair(old(db.tasks), old(db.turns), conversation, turn, task, user)
    ensures !found ==> db.events == old(db.events) && db.turns == old(db.turns) && db.tasks == old(db.tasks)
    ensures found ==>
      && db.events == LogWith(old(db.events), StartDraft(conversation, turn, task, payload), id, at)
      && db.turns == old(db.turns)[turn := StartedTurn(old(db.turns)[turn], at)]
      && db.tasks == old(db.tasks)[task := StartedTask(old(db.tasks)[task], at)]
    ensures found ==>
      && turn in old(db.turns) && turn in db.turns && task in old(db.tasks) && task in db.tasks
      && TurnRuns(old(db.turns)[turn], at, db.turns[turn]) && TaskRuns(old(db.tasks)[task], at, db.tasks[task])
  {
    StartMeans(db.tasks, db.turns, conversation, turn, task, user, at);
    hide FindKey, MaxSeq, Placed, StartedTask, StartedTurn, IdentityMatches, OwnPair, TurnRuns, TaskRuns;
    MatchedExists(db.tasks, db.turns, conversation, turn, task, user);
    if !IdentityMatches(db.tasks, db.turns, conversation, turn, task, user) { return false; }
    if FindKey(db.events, conversation, TurnStart(turn)).None? {
      db.events := db.events + [Placed(db.events, StartDraft(conversation, turn, task, payload), id, at)];
    }
    db.turns := db.turns[turn := StartedTurn(db.turns[turn], at)];
    db.tasks := db.tasks[task := StartedTask(db.tasks[task], at)];
    return true;
  }

  datatype FinalizeResult = Finalized | NotTerminal | NoSuchTurn

  function EndDraft(
    conversation: ConversationId, turn: TurnId, task: TaskId, kind: EventKind, key: EventKey, payload: Json): Draft
  {
    Draft(conversation, turn, Some(task), kind, false, Some(key), payload)
  }

  /** `finalize_lifecycle`. */
  method FinalizeLifecycle(
    db: Database, conversation: ConversationId, turn: TurnId, task: TaskId, user: string,
    kind: EventKind, key: EventKey, payload: Json, status: Status, error: string, id: string, finishedAt: Time, at: Time)
    returns (r: FinalizeResult)
    modifies db`events, db`turns, db`tasks
    ensures r.NotTerminal? <==> !Terminal(status)
    ensures r.Finalized? <==> Terminal(status) && IdentityMatches(old(db.tasks), old(db.turns), conversation, turn, task, user)
    ensures !r.Finalized? ==> db.events == old(db.events) && db.turns == old(db.turns) && db.tasks == old(db.tasks)
    ensures r.Finalized? ==>
      && db.events == LogWith(old(db.events), EndDraft(conversation, turn, task, kind, key, payload), id, at)
      && db.turns == old(db.turns)[turn := FinalizedTurn(old(db.turns)[turn], status, error, finishedAt)]
      && db.tasks == old(db.tasks)[task := FinalizedTask(old(db.tasks)[task], status, error, finishedAt)]
    ensures r.Finalized? ==>
      && turn in old(db.turns) && turn in db.turns && task in old(db.tasks) && task in db.tasks
      && TurnEnds(old(db.turns)[turn], status, error, finishedAt, db.turns[turn])
    ensures r.Finalized? ==> TaskEnds(old(db.tasks)[task], status, error, finishedAt, db.tasks[task])
  {
    hide FindKey, MaxSeq, Placed, FinalizedTask, FinalizedTurn, IdentityMatches, Terminal, TurnEnds, TaskEnds;
    if !Terminal(status) { return NotTerminal; }
    MatchedExists(db.tasks, db.turns, conversation, turn, task, user);
    if !IdentityMatches(db.tasks, db.turns, conversation, turn, task, user) { return NoSuchTurn; }
    var ended, done := FinalizedTurn(db.turns[turn], status, error, finishedAt), FinalizedTask(db.tasks[task], status, error, finishedAt);
    FinalMeans(db.turns[turn], db.tasks[task], status, error, finishedAt);
    if FindKey(db.events, conversation, key).None? {
      db.events := db.events + [Placed(db.events, EndDraft(conversation, turn, task, kind, key, payload), id, at)];
    }
    db.turns := db.turns[turn := ended];
    db.tasks := db.tasks[task := done];
    return Finalized;
  }

  // ----------------------------------------------------- what every log keeps

  /** Each event carries the next number of its conversation, counting from 1. */
  ghost predicate Dense(events: Events) {
    forall i | 0 <= i < |events| :: events[i].seqNo == CountIn(events[..i], events[i].conversation) + 1
  }

  /** A key names one event of a conversation. */
  ghost predicate KeysUnique(events: Events) {
    forall i, j | 0 <= i < j < |events| && events[i].conversation == events[j].conversation && events[i].key.Some? ::
      events[i].key != events[j].key
  }

  /** Every event belongs to a turn of its conversation. */
  ghost predicate Owned(turns: Turns, events: Events) {
    forall e | e in events :: e.turn in turns && turns[e.turn].conversation == e.conversation
  }

  ghost predicate SoundLog(turns: Turns, events: Events) {
    Dense(events) && KeysUnique(events) && Owned(turns, events)
  }

  lemma {:induction false} MaxIsCount(events: Events, conversation: ConversationId)
    requires Dense(events)
    ensures MaxSeq(events, conversation) == CountIn(events, conversation)
  {
    if events != [] {
      var before, last := events[..|events| - 1], events[|events| - 1];
      assert forall i | 0 <= i < |before| :: before[..i] == events[..i];
      MaxIsCount(before, conversation);
      if last.conversation == conversation {
        assert last.seqNo == CountIn(events[..|events| - 1], conversation) + 1;
      }
    }
  }

  lemma {:induction false} FindKeyMeans(events: Events, conversation: ConversationId, key: EventKey)
    ensures FindKey(events, conversation, key).Some? ==>
      FindKey(events, conversation, key).value in events && HasKey(FindKey(events, conversation, key).value, conversation, key)
    ensures FindKey(events, conversation, key).None? ==> forall e | e in events :: !HasKey(e, conversation, key)
  {
    if events != [] { FindKeyMeans(events[1..], conversation, key); }
  }

  lemma DenseOneMore(events: Events, e: Event)
    requires Dense(events) && e.seqNo == CountIn(events, e.conversation) + 1
    ensures Dense(events + [e])
  {
    var longer := events + [e];
    hide CountIn;
    assert forall i | 0 <= i < |events| :: longer[..i] == events[..i];
    assert longer[..|events|] == events;
  }

  lemma KeysOneMore(events: Events, e: Event)
    requires KeysUnique(events)
    requires e.key.Some? ==> forall x | x in events :: !HasKey(x, e.conversation, e.key.value)
    ensures KeysUnique(events + [e])
  {
    var longer := events + [e];
    forall i, j | 0 <= i < j < |longer| && longer[i].conversation == longer[j].conversation && longer[i].key.Some?
      ensures longer[i].key != longer[j].key
    {
      if j == |events| && e.key.Some? { assert events[i] in events && !HasKey(events[i], e.conversation, e.key.value); }
    }
  }

  /** Placing an event whose key is free keeps the log sound. */
  lemma PlacedKeepsSound(turns: Turns, events: Events, d: Draft, id: string, at: Time)
    requires SoundLog(turns, events) && d.turn in turns && turns[d.turn].conversation == d.conversation
    requires d.key.Some? ==> FindKey(events, d.conversation, d.key.value).None?
    ensures SoundLog(turns, events + [Placed(events, d, id, at)])
  {
    MaxIsCount(events, d.conversation);
    if d.key.Some? { FindKeyMeans(events, d.conversation, d.key.value); }
    hide MaxSeq, CountIn, FindKey, Dense, KeysUnique, HasKey;
    DenseOneMore(events, Placed(events, d, id, at));
    KeysOneMore(events, Placed(events, d, id, at));
  }

  lemma AppendKeepsSound(turns: Turns, events: Events, d: Draft, idempotent: bool, id: string, at: Time, quota: nat)
    requires SoundLog(turns, events)
    ensures SoundLog(turns, LogAfter(events, AppendOutcome(turns, events, d, idempotent, id, at, quota)))
  {
    hide SoundLog, FindKey, CountIn, Placed;
    if AppendOutcome(turns, events, d, idempotent, id, at, quota).Appended? {
      PlacedKeepsSound(turns, events, WithTask(d, turns), id, at);
    }
  }

  lemma LifecycleKeepsSound(turns: Turns, turns': Turns, events: Events, d: Draft, id: string, at: Time)
    requires SoundLog(turns, events) && d.turn in turns && turns[d.turn].conversation == d.conversation
    requires turns.Keys <= turns'.Keys && forall t | t in turns :: turns'[t].conversation == turns[t].conversation
    ensures SoundLog(turns', LogWith(events, d, id, at))
  {
    hide FindKey, CountIn, Placed, Dense, KeysUnique;
    if !(d.key.Some? && FindKey(events, d.conversation, d.key.value).Some?) {
      PlacedKeepsSound(turns, events, d, id, at);
    }
  }

  lemma LoggedKeepsSound(turns: Turns, events: Events, d: Draft, stamp: Stamp)
    requires SoundLog(turns, events) && d.turn in turns && turns[d.turn].conversation == d.conversation
    ensures SoundLog(turns, Logged(events, d, stamp))
  {
    hide SoundLog, LogWith;
    LifecycleKeepsSound(turns, turns, events, d, stamp.id(|events|), stamp.at(|events|));
  }

  lemma {:induction false} FindKeyAppend(events: Events, more: Events, conversation: ConversationId, key: EventKey)
    ensures FindKey(events + more, conversation, key)
      == if FindKey(events, conversation, key).Some? then FindKey(events, conversation, key) else FindKey(more, conversation, key)
  {
    if events == [] { assert events + more == more; }
    else {
      assert (events + more)[1..] == events[1..] + more;
      FindKeyAppend(events[1..], more, conversation, key);
    }
  }

  lemma FindKeyOneMore(events: Events, e: Event, conversation: ConversationId, key: EventKey)
    ensures FindKey(events + [e], conversation, key).Some? <==> FindKey(events, conversation, key).Some? || HasKey(e, conversation, key)
  {
    FindKeyAppend(events, [e], conversation, key);
    assert [e][1..] == [];
  }

  /**
    Idempotence, for good: once a keyed event is in the log, the same append
    answers with that event and writes nothing, whatever was appended since.
   */
  lemma AppendOnce(
    turns: Turns, events: Events, more: Events, d: Draft, id: string, at: Time, quota: nat,
    turns': Turns, d': Draft, id': string, at': Time, quota': nat)
    requires d.key.Some? && d'.key == d.key && d'.conversation == d.conversation
    requires AppendOutcome(turns, events, d, true, id, at, quota).Appended?
    ensures var first := AppendOutcome(turns, events, d, true, id, at, quota);
      var later := LogAfter(events, first) + more;
      AppendOutcome(turns', later, d', true, id', at', quota') == Existing(first.event)
  {
    var first := AppendOutcome(turns, events, d, true, id, at, quota);
    FindKeyAppend(events, [first.event], d.conversation, d.key.value);
    FindKeyAppend(events + [first.event], more, d.conversation, d.key.value);
  }

  // ------------------------------------------------------------------- a run

  /** The writes of the store, as they reach the log. */
  datatype Write =
    | Append(draft: Draft, idempotent: bool, id: string, at: Time, quota: nat)
    | Lifecycle(draft: Draft, id: string, at: Time)

  function Written(turns: Turns, events: Events, w: Write): Events {
    match w
    case Append(d, idempotent, id, at, quota) => LogAfter(events, AppendOutcome(turns, events, d, idempotent, id, at, quota))
    case Lifecycle(d, id, at) =>
      if d.turn in turns && turns[d.turn].conversation == d.conversation then LogWith(events, d, id, at) else events
  }

  function LogOf(turns: Turns, writes: seq<Write>): Events {
    if writes == [] then [] else Written(turns, LogOf(turns, writes[..|writes| - 1]), writes[|writes| - 1])
  }

  /** Whatever is written in whatever order, the log stays dense, uniquely keyed and owned. */
  lemma {:induction false} EveryLogSound(turns: Turns, writes: seq<Write>)
    ensures SoundLog(turns, LogOf(turns, writes))
  {
    if writes != [] {
      hide SoundLog, AppendOutcome, LogWith;
      var w, before := writes[|writes| - 1], LogOf(turns, writes[..|writes| - 1]);
      EveryLogSound(turns, writes[..|writes| - 1]);
      match w
      case Append(d, idempotent, id, at, quota) => AppendKeepsSound(turns, before, d, idempotent, id, at, quota);
      case Lifecycle(d, id, at) =>
        if d.turn in turns && turns[d.turn].conversation == d.conversation {
          LifecycleKeepsSound(turns, turns, before, d, id, at);
        }
    } else {
      assert Dense([]) && KeysUnique([]) && Owned(turns, []);
    }
  }

  /** Nothing written is ever changed, moved or renumbered. */
  lemma {:induction false} LogOnlyGrows(turns: Turns, writes: seq<Write>, n: nat)
    requires n <= |writes|
    ensures LogOf(turns, writes[..n]) <= LogOf(turns, writes)
    decreases |writes|
  {
    if n < |writes| {
      var init := writes[..|writes| - 1];
      assert init[..n] == writes[..n];
      LogOnlyGrows(turns, init, n);
      hide AppendOutcome, Placed;
    } else {
      assert writes[..n] == writes;
    }
  }

  /** In a dense log a later event of the same conversation has the greater number. */
  lemma {:induction false} LaterIsGreater(events: Events, i: nat, j: nat)
    requires Dense(events) && i < j < |events| && events[i].conversation == events[j].conversation
    ensures events[i].seqNo < events[j].seqNo
  {
    CountGrows(events, events[i].conversation, i, j);
  }

  lemma {:induction false} CountGrows(events: Events, conversation: ConversationId, i: nat, j: nat)
    requires i < j <= |events| && events[i].conversation == conversation
    ensures CountIn(events[..i], conversation) < CountIn(events[..j], conversation)
    decreases j
  {
    assert events[..j][..j - 1] == events[..j - 1];
    if i < j - 1 { CountGrows(events, conversation, i, j - 1); }
  }
}
