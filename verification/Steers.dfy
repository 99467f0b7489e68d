/**
  Steering messages: admitted once per key, and delivered into the log exactly
  once and in order, in the same commit that marks them consumed.
 */
module Steers {
  import opened JsonValue
  import opened Tables
  import opened TaskQueue
  import opened EventStore
  import opened ContextEvents

  type Messages = seq<Message>

  // --------------------------------------------------------------- admission

  predicate SameKey(m: Message, task: TaskId, key: MessageKey) {
    m.task == task && m.key == key
  }

  function FindMessage(messages: Messages, task: TaskId, key: MessageKey): Option<Message> {
    if messages == [] then None
    else if SameKey(messages[0], task, key) then Some(messages[0])
    else FindMessage(messages[1..], task, key)
  }

  datatype Admission =
    | NoSuchTask
    | TaskEnded
    | TaskStopping
    | KeyConflict
    | PauseUnavailable
    | Known(message: Message)
    | Created(message: Message)

  /** What `admit_task_message` answers. */
  function AdmitOutcome(
    tasks: Tasks, messages: Messages, task: TaskId, user: string, key: MessageKey, kind: MessageType, payload: Json): Admission
  {
    if task !in tasks || tasks[task].user != user then NoSuchTask
    else
      match FindMessage(messages, task, key)
      case Some(m) => if m.kind == kind && m.payload == payload then Known(m) else KeyConflict
      case None =>
        if Terminal(tasks[task].status) then TaskEnded
        else if tasks[task].cancelRequested then TaskStopping
        else if kind.PauseMessage? && !(tasks[task].status.Queued? || tasks[task].status.Running?) then PauseUnavailable
        else Created(Message(NextMessageId(messages), task, key, kind, payload, false))
  }

  /** `admit_task_message` with `_insert_task_message`: any answer but a new message leaves everything as it was. */
  method AdmitTaskMessage(
    db: Database, task: TaskId, user: string, key: MessageKey, kind: MessageType, payload: Json) returns (r: Admission)
    modifies db`messages, db`tasks
    ensures r == AdmitOutcome(old(db.tasks), old(db.messages), task, user, key, kind, payload)
    ensures db.messages == if r.Created? then old(db.messages) + [r.message] else old(db.messages)
    ensures db.tasks ==
      if r.Created? && kind.PauseMessage? then AfterAdmitPause(old(db.tasks), task, user) else old(db.tasks)
  {
    if task !in db.tasks || db.tasks[task].user != user { return NoSuchTask; }
    var row := db.tasks[task];
    var existing := FindMessage(db.messages, task, key);
    if existing.None? && Terminal(row.status) { return TaskEnded; }
    if existing.None? && row.cancelRequested { return TaskStopping; }
    if existing.Some? {
      if existing.value.kind != kind || existing.value.payload != payload { return KeyConflict; }
      return Known(existing.value);
    }
    var message := Message(NextMessageId(db.messages), task, key, kind, payload, false);
    if kind.PauseMessage? {
      if !(row.status.Queued? || row.status.Running?) { return PauseUnavailable; }
      if row.status.Queued? {
        db.tasks := db.tasks[task := row.(status := Paused, pauseRequested := false)];
      } else {
        db.tasks := db.tasks[task := row.(pauseRequested := true)];
      }
    }
    db.messages := db.messages + [message];
    return Created(message);
  }

  // ---------------------------------------------------------------- delivery

  function FirstTruthy(payload: Json, keys: seq<string>): Option<Json> {
    if keys == [] then None
    else
      match Get(payload, keys[0])
      case Some(v) => if Truthy(v) then Some(v) else FirstTruthy(payload, keys[1..])
      case None => FirstTruthy(payload, keys[1..])
  }

  /** The text a steer carries; None when it is empty. */
  function SteerText(codec: Codec, payload: Json): Option<string> {
    match FirstTruthy(payload, ["text", "prompt", "content"])
    case Some(v) => Some(ShowText(codec, v))
    case None => None
  }

  predicate PendingSteer(m: Message, task: TaskId) {
    m.task == task && m.kind.Steer? && !m.consumed
  }

  function PendingSteers(messages: Messages, task: TaskId): Messages {
    if messages == [] then []
    else
      var last := messages[|messages| - 1];
      PendingSteers(messages[..|messages| - 1], task) + if PendingSteer(last, task) then [last] else []
  }

  function SteersConsumed(messages: Messages, task: TaskId): Messages {
    seq(|messages|, i requires 0 <= i < |messages| =>
      if messages[i].task == task && messages[i].kind.Steer? then messages[i].(consumed := true) else messages[i])
  }

  function SteerDraft(conversation: ConversationId, turn: TurnId, task: TaskId, id: MessageId, text: string): Draft {
    Draft(conversation, turn, Some(task), UserMessage, true, Some(Steered(task, id)),
          Obj(map["message_id" := Str("steer:" + Decimal(task) + ":" + Decimal(id)), "content" := Str(text),
                  "source" := Str("task_message"), "message_type" := Str("steer"), "task_message_id" := Int(id)]))
  }

  /** The log after the first `n` pending steers went into it. */
  function Delivered(
    codec: Codec, events: Events, conversation: ConversationId, turn: TurnId, task: TaskId, pending: Messages, n: nat, stamp: Stamp): Events
    requires n <= |pending|
  {
    if n == 0 then events
    else
      var before := Delivered(codec, events, conversation, turn, task, pending, n - 1, stamp);
      match SteerText(codec, pending[n - 1].payload)
      case None => before
      case Some(text) => Logged(before, SteerDraft(conversation, turn, task, pending[n - 1].id, text), stamp)
  }

  function TextsOf(codec: Codec, pending: Messages, n: nat): seq<string>
    requires n <= |pending|
  {
    if n == 0 then []
    else
      match SteerText(codec, pending[n - 1].payload)
      case None => TextsOf(codec, pending, n - 1)
      case Some(text) => TextsOf(codec, pending, n - 1) + [text]
  }

  method SelectPending(messages: Messages, task: TaskId) returns (pending: Messages)
    ensures pending == PendingSteers(messages, task)
  {
    pending := [];
    for i := 0 to |messages|
      invariant pending == PendingSteers(messages[..i], task)
    {
      assert messages[..i + 1][..i] == messages[..i];
      if messages[i].task == task && messages[i].kind.Steer? && !messages[i].consumed { pending := pending + [messages[i]]; }
    }
    assert messages[..|messages|] == messages;
  }

  /** `consume_steers`: one transaction, so a failing append leaves every steer unconsumed. */
  method ConsumeSteers(codec: Codec, db: Database, task: TaskId, turn: TurnId, user: string, quota: nat, stamp: Stamp)
    returns (ok: bool, texts: seq<string>)
    modifies db`events, db`messages
    ensures !ok ==> db.events == old(db.events) && db.messages == old(db.messages)
    ensures ok ==>
      && turn in db.turns && db.turns[turn].task == Some(task) && db.turns[turn].user == user
      && var pending := PendingSteers(old(db.messages), task);
         && db.events == Delivered(codec, old(db.events), db.turns[turn].conversation, turn, task, pending, |pending|, stamp)
         && texts == TextsOf(codec, pending, |pending|)
         && db.messages == SteersConsumed(old(db.messages), task)
  {
    hide FindKey, MaxSeq, CountIn;
    if turn !in db.turns || db.turns[turn].task != Some(task) || db.turns[turn].user != user { return false, []; }
    var conversation := db.turns[turn].conversation;
    var rollback := db.events;
    var pending := SelectPending(db.messages, task);
    hide PendingSteers, Logged, SteerText, SteersConsumed, SteerDraft;
    SteerDraftFits(conversation, turn, task);
    texts := [];
    for i := 0 to |pending|
      invariant db.messages == old(db.messages)
      invariant db.events == Delivered(codec, rollback, conversation, turn, task, pending, i, stamp)
      invariant texts == TextsOf(codec, pending, i)
    {
      var text := SteerText(codec, pending[i].payload);
      if text.Some? {
        var done := LogOnce(db, SteerDraft(conversation, turn, task, pending[i].id, text.value), quota, stamp);
        if !done {
          db.events := rollback;
          return false, [];
        }
        texts := texts + [text.value];
      }
    }
    db.messages := SteersConsumed(db.messages, task);
    return true, texts;
  }

  lemma SteerDraftFits(conversation: ConversationId, turn: TurnId, task: TaskId)
    ensures forall id: MessageId, text: string :: var d := SteerDraft(conversation, turn, task, id, text);
      d.key.Some? && d.turn == turn && d.conversation == conversation && d.task == Some(task)
  {
    hide Decimal;
  }

  // -------------------------------------------------------------------- runs

  datatype Box = Box(messages: Messages, events: Events)

  datatype Move =
    | Admit(message: Message)
    | Consume(index: nat)
    | Deliver(task: TaskId, turn: TurnId, conversation: ConversationId, stamp: Stamp)
    | Write(draft: Draft, id: string, at: Time)

  predicate SteerKey(key: Option<EventKey>) {
    key.Some? && key.value.Steered?
  }

  /** The moves of the program: a new message, a message of another type consumed, a delivery, any other event. */
  ghost predicate Allowed(b: Box, move: Move) {
    match move
    case Admit(m) => m.id == NextMessageId(b.messages) && !m.consumed && FindMessage(b.messages, m.task, m.key).None?
    case Consume(at) => at < |b.messages| && !b.messages[at].kind.Steer?
    case Deliver(_, _, _, _) => true
    case Write(d, _, _) => !SteerKey(d.key)
  }

  function AfterMove(codec: Codec, b: Box, move: Move): Box {
    match move
    case Admit(m) => b.(messages := b.messages + [m])
    case Consume(at) => if at < |b.messages| then b.(messages := b.messages[at := b.messages[at].(consumed := true)]) else b
    case Deliver(task, turn, conversation, stamp) =>
      var pending := PendingSteers(b.messages, task);
      Box(SteersConsumed(b.messages, task), Delivered(codec, b.events, conversation, turn, task, pending, |pending|, stamp))
    case Write(d, id, at) => b.(events := LogWith(b.events, d, id, at))
  }

  ghost predicate SteerRun(codec: Codec, boxes: seq<Box>, moves: seq<Move>) {
    && |boxes| == |moves| + 1
    && boxes[0] == Box([], [])
    && forall i | 0 <= i < |moves| :: Allowed(boxes[i], moves[i]) && boxes[i + 1] == AfterMove(codec, boxes[i], moves[i])
  }

  // ---------------------------------------------------- what runs keep: tables

  /** Message numbers grow along the table. */
  ghost predicate Numbered(messages: Messages) {
    forall i, j | 0 <= i < j < |messages| :: messages[i].id < messages[j].id
  }

  ghost predicate KeysOnce(messages: Messages) {
    forall i, j | 0 <= i < j < |messages| :: !SameKey(messages[i], messages[j].task, messages[j].key)
  }

  /** Of one task's steers, no consumed one stands behind a pending one. */
  ghost predicate InTurn(messages: Messages) {
    forall i, j | 0 <= i < j < |messages| && messages[i].task == messages[j].task && messages[i].kind.Steer? && messages[j].kind.Steer? ::
      messages[j].consumed ==> messages[i].consumed
  }

  ghost predicate SoundTable(messages: Messages) {
    Numbered(messages) && KeysOnce(messages) && InTurn(messages)
  }

  lemma {:induction false} FindMessageMeans(messages: Messages, task: TaskId, key: MessageKey)
    ensures FindMessage(messages, task, key).None? ==> forall m | m in messages :: !SameKey(m, task, key)
    ensures FindMessage(messages, task, key).Some? ==> SameKey(FindMessage(messages, task, key).value, task, key)
  {
    if messages != [] { FindMessageMeans(messages[1..], task, key); }
  }

  lemma AdmitKeepsTable(messages: Messages, m: Message)
    requires SoundTable(messages) && m.id == NextMessageId(messages) && !m.consumed
    requires FindMessage(messages, m.task, m.key).None?
    ensures SoundTable(messages + [m])
  {
    FindMessageMeans(messages, m.task, m.key);
    hide FindMessage, NextMessageId;
    var longer := messages + [m];
    forall i, j | 0 <= i < j < |longer|
      ensures longer[i].id < longer[j].id && !SameKey(longer[i], longer[j].task, longer[j].key)
    {
      assert longer[i] == messages[i] && messages[i] in messages;
    }
  }

  lemma ConsumeKeepsTable(messages: Messages, messages': Messages)
    requires SoundTable(messages) && |messages'| == |messages|
    requires forall i | 0 <= i < |messages| :: messages'[i] in {messages[i], messages[i].(consumed := true)}
    requires InTurn(messages')
    ensures SoundTable(messages')
  {
    forall i, j | 0 <= i < j < |messages'|
      ensures messages'[i].id < messages'[j].id && !SameKey(messages'[i], messages'[j].task, messages'[j].key)
    {
      assert messages[i].id < messages[j].id && !SameKey(messages[i], messages[j].task, messages[j].key);
    }
  }

  lemma MoveKeepsTable(codec: Codec, b: Box, move: Move)
    requires SoundTable(b.messages) && Allowed(b, move)
    ensures SoundTable(AfterMove(codec, b, move).messages)
  {
    hide FindMessage, NextMessageId, Delivered, PendingSteers;
    match move
    case Admit(m) => AdmitKeepsTable(b.messages, m);
    case Consume(at) =>
      OtherKeepsInTurn(b.messages, at);
      ConsumeKeepsTable(b.messages, b.messages[at := b.messages[at].(consumed := true)]);
    case Deliver(task, _, _, _) =>
      DeliveryKeepsInTurn(b.messages, task);
      ConsumeKeepsTable(b.messages, SteersConsumed(b.messages, task));
    case Write(_, _, _) =>
  }

  lemma OtherKeepsInTurn(messages: Messages, at: nat)
    requires InTurn(messages) && at < |messages| && !messages[at].kind.Steer?
    ensures InTurn(messages[at := messages[at].(consumed := true)])
  {
  }

  lemma DeliveryKeepsInTurn(messages: Messages, task: TaskId)
    requires InTurn(messages)
    ensures InTurn(SteersConsumed(messages, task))
  {
  }

  // ------------------------------------------- what runs keep: each steer once

  /** The steers of a task in the log: number and text, in log order. */
  function InLog(events: Events, task: TaskId): seq<(MessageId, string)> {
    if events == [] then []
    else
      var last := events[|events| - 1];
      InLog(events[..|events| - 1], task)
      + if SteerKey(last.key) && last.key.value.task == task then [(last.key.value.message, TextAt(last.payload, "content"))] else []
  }

  function Receipt(codec: Codec, m: Message): seq<(MessageId, string)> {
    match SteerText(codec, m.payload)
    case Some(text) => [(m.id, text)]
    case None => []
  }

  /** The consumed non-empty steers of a task, in admission order. */
  function Receipts(codec: Codec, messages: Messages, task: TaskId): seq<(MessageId, string)> {
    if messages == [] then []
    else
      var last := messages[|messages| - 1];
      Receipts(codec, messages[..|messages| - 1], task)
      + if last.task == task && last.kind.Steer? && last.consumed then Receipt(codec, last) else []
  }

  function ReceiptsOf(codec: Codec, pending: Messages, n: nat): seq<(MessageId, string)>
    requires n <= |pending|
  {
    if n == 0 then [] else ReceiptsOf(codec, pending, n - 1) + Receipt(codec, pending[n - 1])
  }

  lemma {:induction false} ReceiptIds(codec: Codec, messages: Messages, task: TaskId)
    ensures forall r | r in Receipts(codec, messages, task) ::
      exists i :: 0 <= i < |messages| && messages[i].id == r.0 && messages[i].consumed && messages[i].task == task
  {
    if messages != [] {
      var init := messages[..|messages| - 1];
      ReceiptIds(codec, init, task);
      hide SteerText, Receipts;
      ReceiptsUnfold(codec, messages, task);
      forall r | r in Receipts(codec, messages, task)
        ensures exists i :: 0 <= i < |messages| && messages[i].id == r.0 && messages[i].consumed && messages[i].task == task
      {
        if r in Receipts(codec, init, task) {
          var i :| 0 <= i < |init| && init[i].id == r.0 && init[i].consumed && init[i].task == task;
          assert messages[i] == init[i];
        } else {
          assert messages[|messages| - 1].id == r.0;
        }
      }
    }
  }

  lemma ReceiptsUnfold(codec: Codec, messages: Messages, task: TaskId)
    requires messages != []
    ensures var last := messages[|messages| - 1];
      Receipts(codec, messages, task) == Receipts(codec, messages[..|messages| - 1], task)
        + (if last.task == task && last.kind.Steer? && last.consumed then Receipt(codec, last) else [])
  {
    hide Receipt;
  }

  /** A steer is in the log under its key exactly when it is among the log's steers. */
  lemma {:induction false} KeyInLog(events: Events, conversation: ConversationId, task: TaskId, id: MessageId)
    requires FindKey(events, conversation, Steered(task, id)).Some?
    ensures exists r :: r in InLog(events, task) && r.0 == id
  {
    FindKeyMeans(events, conversation, Steered(task, id));
    var e := FindKey(events, conversation, Steered(task, id)).value;
    var i :| 0 <= i < |events| && events[i] == e;
    hide FindKey;
    SteerInLog(events, task, i);
  }

  lemma {:induction false} SteerInLog(events: Events, task: TaskId, i: nat)
    requires i < |events| && SteerKey(events[i].key) && events[i].key.value.task == task
    ensures exists r :: r in InLog(events, task) && r.0 == events[i].key.value.message
  {
    var init, last := events[..|events| - 1], events[|events| - 1];
    if i < |init| {
      SteerInLog(init, task, i);
      var r :| r in InLog(init, task) && r.0 == events[i].key.value.message;
      assert r in InLog(events, task);
    } else {
      assert (last.key.value.message, TextAt(last.payload, "content")) in InLog(events, task);
    }
  }

  lemma InLogOneMore(events: Events, e: Event, task: TaskId)
    ensures InLog(events + [e], task) == InLog(events, task)
      + if SteerKey(e.key) && e.key.value.task == task then [(e.key.value.message, TextAt(e.payload, "content"))] else []
  {
    assert (events + [e])[..|events|] == events;
  }

  /** A steer that is still pending is not in the log. */
  ghost predicate Undelivered(events: Events, task: TaskId, pending: Messages, from: nat) {
    forall k, r | from <= k < |pending| && r in InLog(events, task) :: r.0 != pending[k].id
  }

  lemma DraftEvent(events: Events, conversation: ConversationId, turn: TurnId, task: TaskId, id: MessageId, text: string, stamp: Stamp)
    ensures var e := Placed(events, SteerDraft(conversation, turn, task, id, text), stamp.id(|events|), stamp.at(|events|));
      e.key == Some(Steered(task, id)) && TextAt(e.payload, "content") == text
  {
    hide MaxSeq;
  }

  /** Delivering a pending steer adds its receipt to the log of its task. */
  lemma DeliverOne(
    events: Events, conversation: ConversationId, turn: TurnId, task: TaskId, id: MessageId, text: string, stamp: Stamp, other: TaskId)
    requires forall r | r in InLog(events, task) :: r.0 != id
    ensures var after := Logged(events, SteerDraft(conversation, turn, task, id, text), stamp);
      InLog(after, other) == if other == task then InLog(events, other) + [(id, text)] else InLog(events, other)
  {
    var d := SteerDraft(conversation, turn, task, id, text);
    var e := Placed(events, d, stamp.id(|events|), stamp.at(|events|));
    DraftEvent(events, conversation, turn, task, id, text, stamp);
    if FindKey(events, conversation, Steered(task, id)).Some? { KeyInLog(events, conversation, task, id); }
    hide FindKey, InLog, TextAt, Placed;
    InLogOneMore(events, e, other);
  }

  /** After `n` deliveries the log of the task has grown by their receipts, and no other task's has. */
  ghost predicate DeliveredSays(
    codec: Codec, events: Events, conversation: ConversationId, turn: TurnId, task: TaskId, pending: Messages, n: nat, stamp: Stamp)
    requires n <= |pending|
  {
    forall other: TaskId ::
      InLog(Delivered(codec, events, conversation, turn, task, pending, n, stamp), other)
      == if other == task then InLog(events, other) + ReceiptsOf(codec, pending, n) else InLog(events, other)
  }

  lemma StillPending(codec: Codec, events: Events, task: TaskId, pending: Messages, n: nat)
    requires n < |pending| && Numbered(pending) && Undelivered(events, task, pending, 0)
    ensures forall r | r in InLog(events, task) + ReceiptsOf(codec, pending, n) :: r.0 != pending[n].id
  {
    ReceiptsBefore(codec, pending, n);
    hide InLog, ReceiptsOf;
    forall r | r in InLog(events, task) + ReceiptsOf(codec, pending, n) ensures r.0 != pending[n].id {
      if r in ReceiptsOf(codec, pending, n) {
        var k :| 0 <= k < n && pending[k].id == r.0;
      }
    }
  }

  lemma DeliveredUnfold(
    codec: Codec, events: Events, conversation: ConversationId, turn: TurnId, task: TaskId, pending: Messages, n: nat, stamp: Stamp)
    requires n < |pending|
    ensures var before := Delivered(codec, events, conversation, turn, task, pending, n, stamp);
      var after := Delivered(codec, events, conversation, turn, task, pending, n + 1, stamp);
      match SteerText(codec, pending[n].payload)
      case None => after == before && ReceiptsOf(codec, pending, n + 1) == ReceiptsOf(codec, pending, n)
      case Some(text) =>
        && after == Logged(before, SteerDraft(conversation, turn, task, pending[n].id, text), stamp)
        && ReceiptsOf(codec, pending, n + 1) == ReceiptsOf(codec, pending, n) + [(pending[n].id, text)]
  {
    hide SteerText, Logged;
  }

  lemma DeliverNext(
    codec: Codec, events: Events, conversation: ConversationId, turn: TurnId, task: TaskId, pending: Messages, n: nat, stamp: Stamp)
    requires n < |pending| && Numbered(pending) && Undelivered(events, task, pending, 0)
    requires DeliveredSays(codec, events, conversation, turn, task, pending, n, stamp)
    ensures DeliveredSays(codec, events, conversation, turn, task, pending, n + 1, stamp)
  {
    StillPending(codec, events, task, pending, n);
    DeliveredUnfold(codec, events, conversation, turn, task, pending, n, stamp);
    hide InLog, ReceiptsOf, Delivered, SteerText, Logged, Numbered, Undelivered;
    var before := Delivered(codec, events, conversation, turn, task, pending, n, stamp);
    var text := SteerText(codec, pending[n].payload);
    assert InLog(before, task) == InLog(events, task) + ReceiptsOf(codec, pending, n);
    if text.Some? {
      forall other: TaskId
        ensures InLog(Delivered(codec, events, conversation, turn, task, pending, n + 1, stamp), other)
          == if other == task then InLog(events, other) + ReceiptsOf(codec, pending, n + 1) else InLog(events, other)
      {
        DeliverOne(before, conversation, turn, task, pending[n].id, text.value, stamp, other);
        JoinAfter(InLog(events, task), ReceiptsOf(codec, pending, n), [(pending[n].id, text.value)]);
      }
    }
  }

  lemma {:induction false} DeliverAll(
    codec: Codec, events: Events, conversation: ConversationId, turn: TurnId, task: TaskId, pending: Messages, n: nat, stamp: Stamp)
    requires n <= |pending| && Numbered(pending) && Undelivered(events, task, pending, 0)
    ensures DeliveredSays(codec, events, conversation, turn, task, pending, n, stamp)
  {
    if n == 0 {
      hide InLog;
      assert forall other: TaskId :: InLog(events, other) + [] == InLog(events, other);
    } else {
      hide *;
      DeliverAll(codec, events, conversation, turn, task, pending, n - 1, stamp);
      DeliverNext(codec, events, conversation, turn, task, pending, n - 1, stamp);
    }
  }

  lemma {:induction false} ReceiptsBefore(codec: Codec, pending: Messages, n: nat)
    requires n <= |pending|
    ensures forall r | r in ReceiptsOf(codec, pending, n) :: exists k :: 0 <= k < n && pending[k].id == r.0
  {
    if n > 0 {
      ReceiptsBefore(codec, pending, n - 1);
      hide SteerText;
    }
  }

  // -------------------------------------- consuming: pending become receipts

  lemma {:induction false} PendingFrom(messages: Messages, task: TaskId)
    requires Numbered(messages)
    ensures Numbered(PendingSteers(messages, task))
    ensures forall m | m in PendingSteers(messages, task) :: m in messages && PendingSteer(m, task)
  {
    if messages != [] {
      var init, last := messages[..|messages| - 1], messages[|messages| - 1];
      PendingFrom(init, task);
      assert messages == init + [last];
      var p := PendingSteers(init, task);
      assert forall i | 0 <= i < |p| :: p[i] in p;
    }
  }

  lemma ConsumedPrefix(messages: Messages, task: TaskId)
    requires messages != []
    ensures SteersConsumed(messages, task)[..|messages| - 1] == SteersConsumed(messages[..|messages| - 1], task)
  {
  }

  lemma PendingUnfold(messages: Messages, task: TaskId)
    requires messages != []
    ensures var last := messages[|messages| - 1];
      PendingSteers(messages, task) == PendingSteers(messages[..|messages| - 1], task) + (if PendingSteer(last, task) then [last] else [])
  {
  }

  lemma ConsumedUnfold(codec: Codec, messages: Messages, task: TaskId)
    requires messages != []
    ensures var last := messages[|messages| - 1];
      Receipts(codec, SteersConsumed(messages, task), task)
      == Receipts(codec, SteersConsumed(messages[..|messages| - 1], task), task)
         + (if last.task == task && last.kind.Steer? then Receipt(codec, last) else [])
  {
    ConsumedPrefix(messages, task);
    ReceiptsUnfold(codec, SteersConsumed(messages, task), task);
    SameReceipt(codec, messages[|messages| - 1], true);
    hide Receipt, Receipts;
  }

  lemma SameReceipt(codec: Codec, m: Message, consumed: bool)
    ensures Receipt(codec, m.(consumed := consumed)) == Receipt(codec, m)
  {
  }

  lemma NoneToReceive(codec: Codec, pending: Messages)
    requires pending == []
    ensures ReceiptsOf(codec, pending, |pending|) == []
  {
  }

  lemma OneMoreToReceive(codec: Codec, pending: Messages, m: Message)
    ensures ReceiptsOf(codec, pending + [m], |pending| + 1) == ReceiptsOf(codec, pending, |pending|) + Receipt(codec, m)
  {
    hide Receipt;
    ReceiptsPrefix(codec, pending, pending + [m], |pending|);
  }

  /** Consuming a task's steers turns exactly the pending ones, in order, into receipts. */
  lemma {:induction false} PendingBecomeReceipts(codec: Codec, messages: Messages, task: TaskId)
    requires InTurn(messages)
    ensures var pending := PendingSteers(messages, task);
      Receipts(codec, SteersConsumed(messages, task), task) == Receipts(codec, messages, task) + ReceiptsOf(codec, pending, |pending|)
  {
    if messages == [] {
      assert SteersConsumed(messages, task) == [];
      NoneToReceive(codec, PendingSteers(messages, task));
    } else {
      PendingBecomeReceipts(codec, messages[..|messages| - 1], task);
      hide *;
      LastBecomesReceipt(codec, messages, task);
    }
  }

  lemma LastBecomesReceipt(codec: Codec, messages: Messages, task: TaskId)
    requires messages != [] && InTurn(messages)
    requires var init := messages[..|messages| - 1]; var pending := PendingSteers(init, task);
      Receipts(codec, SteersConsumed(init, task), task) == Receipts(codec, init, task) + ReceiptsOf(codec, pending, |pending|)
    ensures var pending := PendingSteers(messages, task);
      Receipts(codec, SteersConsumed(messages, task), task) == Receipts(codec, messages, task) + ReceiptsOf(codec, pending, |pending|)
  {
    hide Receipt, Receipts, InTurn, PendingSteers, SteersConsumed, ReceiptsOf;
    var init, last := messages[..|messages| - 1], messages[|messages| - 1];
    var pending := PendingSteers(init, task);
    ConsumedUnfold(codec, messages, task);
    ReceiptsUnfold(codec, messages, task);
    PendingUnfold(messages, task);
    if PendingSteer(last, task) {
      OneMoreToReceive(codec, pending, last);
      JoinAfter(Receipts(codec, init, task), ReceiptsOf(codec, pending, |pending|), Receipt(codec, last));
    } else if last.task == task && last.kind.Steer? {
      ConsumedMeansNothingPending(messages, task);
      NoneToReceive(codec, pending);
      NoneToReceive(codec, PendingSteers(messages, task));
      JoinNothing(Receipts(codec, init, task));
      JoinNothing(Receipts(codec, messages, task));
    } else {
      assert PendingSteers(messages, task) == pending;
      JoinNothing(Receipts(codec, init, task));
      JoinNothing(Receipts(codec, SteersConsumed(init, task), task));
    }
  }

  lemma JoinNothing<T>(a: seq<T>)
    ensures a + [] == a
  {
  }

  lemma JoinAfter<T>(a: seq<T>, b: seq<T>, c: seq<T>)
    ensures (a + b) + c == a + (b + c)
  {
  }

  lemma {:induction false} ReceiptsPrefix(codec: Codec, a: Messages, b: Messages, n: nat)
    requires n <= |a| <= |b| && a == b[..|a|]
    ensures ReceiptsOf(codec, a, n) == ReceiptsOf(codec, b, n)
  {
    if n > 0 {
      ReceiptsPrefix(codec, a, b, n - 1);
      hide Receipt;
    }
  }

  lemma {:induction false} NonePending(messages: Messages, task: TaskId)
    requires forall i | 0 <= i < |messages| :: !PendingSteer(messages[i], task)
    ensures PendingSteers(messages, task) == []
  {
    if messages != [] { NonePending(messages[..|messages| - 1], task); }
  }

  lemma ConsumedMeansNothingPending(messages: Messages, task: TaskId)
    requires messages != [] && InTurn(messages)
    requires messages[|messages| - 1].task == task && messages[|messages| - 1].kind.Steer? && messages[|messages| - 1].consumed
    ensures PendingSteers(messages[..|messages| - 1], task) == []
  {
    NonePending(messages[..|messages| - 1], task);
  }

  lemma {:induction false} OtherReceipts(codec: Codec, messages: Messages, task: TaskId, other: TaskId)
    requires other != task
    ensures Receipts(codec, SteersConsumed(messages, task), other) == Receipts(codec, messages, other)
  {
    if messages != [] {
      ConsumedPrefix(messages, task);
      OtherReceipts(codec, messages[..|messages| - 1], task, other);
      hide Receipt;
    }
  }

  lemma {:induction false} OtherConsumed(codec: Codec, messages: Messages, at: nat, task: TaskId)
    requires at < |messages| && !messages[at].kind.Steer?
    ensures Receipts(codec, messages[at := messages[at].(consumed := true)], task) == Receipts(codec, messages, task)
  {
    var changed := messages[at := messages[at].(consumed := true)];
    var init := messages[..|messages| - 1];
    if at < |init| {
      OtherConsumed(codec, init, at, task);
      assert changed[..|changed| - 1] == init[at := init[at].(consumed := true)];
    } else {
      assert changed[..|changed| - 1] == init;
    }
    hide Receipt;
  }

  // --------------------------------------------------------------- the theorem

  /** The steers of a task in the log are exactly its consumed non-empty steers, in admission order. */
  ghost predicate ExactlyOnce(codec: Codec, b: Box) {
    forall task: TaskId :: InLog(b.events, task) == Receipts(codec, b.messages, task)
  }

  lemma PendingUndelivered(codec: Codec, b: Box, task: TaskId)
    requires SoundTable(b.messages) && ExactlyOnce(codec, b)
    ensures Undelivered(b.events, task, PendingSteers(b.messages, task), 0)
  {
    var pending := PendingSteers(b.messages, task);
    PendingFrom(b.messages, task);
    ReceiptIds(codec, b.messages, task);
    hide PendingSteers, InLog, Receipts, KeysOnce, InTurn;
    forall k, r | 0 <= k < |pending| && r in InLog(b.events, task) ensures r.0 != pending[k].id {
      assert pending[k] in pending;
      assert r in Receipts(codec, b.messages, task);
      var i :| 0 <= i < |b.messages| && b.messages[i].id == r.0 && b.messages[i].consumed && b.messages[i].task == task;
      var j :| 0 <= j < |b.messages| && b.messages[j] == pending[k];
      if i < j { assert b.messages[i].id < b.messages[j].id; }
      if j < i { assert b.messages[j].id < b.messages[i].id; }
    }
  }

  lemma DeliverKeepsExact(codec: Codec, b: Box, task: TaskId, turn: TurnId, conversation: ConversationId, stamp: Stamp, other: TaskId)
    requires SoundTable(b.messages) && ExactlyOnce(codec, b)
    ensures var b' := AfterMove(codec, b, Deliver(task, turn, conversation, stamp));
      InLog(b'.events, other) == Receipts(codec, b'.messages, other)
  {
    var pending := PendingSteers(b.messages, task);
    PendingUndelivered(codec, b, task);
    PendingFrom(b.messages, task);
    hide PendingSteers, InLog, Receipts, Numbered, KeysOnce, InTurn, SteersConsumed, Delivered, Undelivered, ReceiptsOf;
    DeliverAll(codec, b.events, conversation, turn, task, pending, |pending|, stamp);
    if other == task { PendingBecomeReceipts(codec, b.messages, task); }
    else { OtherReceipts(codec, b.messages, task, other); }
  }

  lemma AdmitKeepsReceipts(codec: Codec, messages: Messages, m: Message, task: TaskId)
    requires !m.consumed
    ensures Receipts(codec, messages + [m], task) == Receipts(codec, messages, task)
  {
    hide Receipt;
    assert (messages + [m])[..|messages|] == messages;
  }

  lemma WriteKeepsInLog(events: Events, d: Draft, id: string, at: Time, task: TaskId)
    requires !SteerKey(d.key)
    ensures InLog(LogWith(events, d, id, at), task) == InLog(events, task)
  {
    hide FindKey, MaxSeq, InLog;
    InLogOneMore(events, Placed(events, d, id, at), task);
  }

  lemma MoveKeepsExact(codec: Codec, b: Box, move: Move, task: TaskId)
    requires SoundTable(b.messages) && ExactlyOnce(codec, b) && Allowed(b, move)
    ensures InLog(AfterMove(codec, b, move).events, task) == Receipts(codec, AfterMove(codec, b, move).messages, task)
  {
    assert InLog(b.events, task) == Receipts(codec, b.messages, task);
    hide SoundTable, ExactlyOnce, InLog, Receipts, PendingSteers, SteersConsumed, Delivered, FindMessage, NextMessageId, LogWith;
    match move
    case Admit(m) => AdmitKeepsReceipts(codec, b.messages, m, task);
    case Consume(at) => OtherConsumed(codec, b.messages, at, task);
    case Deliver(t, turn, conversation, stamp) => DeliverKeepsExact(codec, b, t, turn, conversation, stamp, task);
    case Write(d, id, at) => WriteKeepsInLog(b.events, d, id, at, task);
  }

  /** Exactly once and in order: in every run the steers in the log are the consumed non-empty steers, in admission order. */
  lemma {:induction false} SteersExactlyOnce(codec: Codec, boxes: seq<Box>, moves: seq<Move>, i: nat)
    requires SteerRun(codec, boxes, moves) && i < |boxes|
    ensures SoundTable(boxes[i].messages) && ExactlyOnce(codec, boxes[i])
  {
    if i > 0 {
      hide SoundTable, AfterMove, Allowed;
      SteersExactlyOnce(codec, boxes, moves, i - 1);
      var b, move := boxes[i - 1], moves[i - 1];
      assert Allowed(b, move) && boxes[i] == AfterMove(codec, b, move);
      MoveKeepsTable(codec, b, move);
      forall task: TaskId ensures InLog(boxes[i].events, task) == Receipts(codec, boxes[i].messages, task) {
        MoveKeepsExact(codec, b, move, task);
      }
    }
  }

  /** The numbers of a task's receipts grow, so no steer is delivered twice. */
  lemma {:induction false} ReceiptsIncrease(codec: Codec, messages: Messages, task: TaskId)
    requires Numbered(messages)
    ensures forall i, j | 0 <= i < j < |Receipts(codec, messages, task)| ::
      Receipts(codec, messages, task)[i].0 < Receipts(codec, messages, task)[j].0
  {
    if messages != [] {
      var init, last := messages[..|messages| - 1], messages[|messages| - 1];
      ReceiptsIncrease(codec, init, task);
      ReceiptIds(codec, init, task);
      ReceiptsUnfold(codec, messages, task);
      var before, after := Receipts(codec, init, task), Receipts(codec, messages, task);
      hide Receipts, SteerText;
      forall i, j | 0 <= i < j < |after| ensures after[i].0 < after[j].0 {
        if j >= |before| {
          assert after[j].0 == last.id;
          assert before[i] in before;
        }
      }
    }
  }

  /** Retrying a key adds nothing: the same message is recognised, another one refused. */
  lemma RetryAddsNothing(
    tasks: Tasks, messages: Messages, task: TaskId, user: string, key: MessageKey, kind: MessageType, payload: Json, m: Message)
    requires m in messages && SameKey(m, task, key)
    ensures !AdmitOutcome(tasks, messages, task, user, key, kind, payload).Created?
  {
    FindMessageMeans(messages, task, key);
    hide FindMessage;
  }
}
