/**
  What becomes of a message sent to a running task, told from the tables and
  the log: which messages are admitted, and what the model reads of a steer.
 */
module SteerDelivery {
  import opened JsonValue
  import opened Tables
  import opened TaskQueue
  import opened EventStore
  import opened ContextEvents
  import opened Steers

  // --------------------------------------------------------------- admission

  ghost predicate OnePerKey(messages: Messages) {
    forall a, b | a in messages && b in messages && a.task == b.task && a.key == b.key :: a == b
  }

  lemma RunsHaveOnePerKey(messages: Messages)
    requires KeysOnce(messages)
    ensures OnePerKey(messages)
  {
    forall a, b | a in messages && b in messages && a.task == b.task && a.key == b.key ensures a == b {
      var i :| 0 <= i < |messages| && messages[i] == a;
      var j :| 0 <= j < |messages| && messages[j] == b;
    }
  }

  lemma {:induction false} FoundMessage(messages: Messages, task: TaskId, key: MessageKey)
    ensures match FindMessage(messages, task, key)
      case Some(m) => m in messages && m.task == task && m.key == key
      case None => forall m | m in messages :: !(m.task == task && m.key == key)
  {
    if messages != [] {
      FoundMessage(messages[1..], task, key);
      assert messages == [messages[0]] + messages[1..];
    }
  }

  /**
    A key that the task has seen is known when type and payload are those it
    came with, and a conflict when not, whatever became of the task; a new key
    is turned away from a task that ended or is stopping, and a pause from one
    that can not pause.  What is admitted gets a number above all others.
   */
  lemma AdmitsExactly(
    tasks: Tasks, messages: Messages, task: TaskId, user: string, key: MessageKey, kind: MessageType, payload: Json)
    requires OnePerKey(messages)
    ensures var r := AdmitOutcome(tasks, messages, task, user, key, kind, payload);
      if !(task in tasks && tasks[task].user == user) then r == NoSuchTask
      else if exists m :: m in messages && m.task == task && m.key == key then
        && (r.Known? <==> Message(if r.Known? then r.message.id else 0, task, key, kind, payload, if r.Known? then r.message.consumed else false) in messages)
        && (r.Known? || r == KeyConflict)
        && (r == KeyConflict <==> exists m :: m in messages && m.task == task && m.key == key && !(m.kind == kind && m.payload == payload))
      else if tasks[task].status in {Succeeded, Failed, Canceled, Status.Interrupted} then r == TaskEnded
      else if tasks[task].cancelRequested then r == TaskStopping
      else if kind == PauseMessage && tasks[task].status !in {Queued, Running} then r == PauseUnavailable
      else
        && r.Created? && r.message == Message(r.message.id, task, key, kind, payload, false)
        && forall m | m in messages :: m.id < r.message.id
  {
    FoundMessage(messages, task, key);
    hide FindMessage, NextMessageId;
    var found := FindMessage(messages, task, key);
    if found.Some? { assert found.value in messages; }
  }

  /** Admitting a pause parks a queued task at once and asks a running one; no other row changes. */
  lemma AdmittedPause(tasks: Tasks, messages: Messages, task: TaskId, user: string, key: MessageKey, payload: Json)
    requires AdmitOutcome(tasks, messages, task, user, key, PauseMessage, payload).Created?
    ensures var after := AfterAdmitPause(tasks, task, user);
      && task in tasks && after == tasks[task := after[task]]
      && after[task] == (if tasks[task].status.Queued? then tasks[task].(status := Paused, pauseRequested := false)
                         else tasks[task].(pauseRequested := true))
  {
    hide FindMessage, NextMessageId;
  }

  // ---------------------------------------------------------------- delivery

  /** The value whose text a steer carries: the first under the three keys that counts as true. */
  ghost predicate Carries(payload: Json, v: Json) {
    var text, prompt, content := ValueAt(payload, "text"), ValueAt(payload, "prompt"), ValueAt(payload, "content");
    Truthy(v) && (v == text || (!Truthy(text) && (v == prompt || (!Truthy(prompt) && v == content))))
  }

  predicate HasText(payload: Json) {
    Truthy(ValueAt(payload, "text")) || Truthy(ValueAt(payload, "prompt")) || Truthy(ValueAt(payload, "content"))
  }

  function Spelled(codec: Codec, v: Json): string {
    match v
    case Str(s) => s
    case _ => codec.show(v)
  }

  lemma CarriesExactly(codec: Codec, payload: Json) returns (v: Json)
    ensures SteerText(codec, payload).Some? <==> HasText(payload)
    ensures HasText(payload) ==> Carries(payload, v) && SteerText(codec, payload) == Some(Spelled(codec, v))
  {
    hide Truthy;
    var keys := ["text", "prompt", "content"];
    assert keys[1..] == ["prompt", "content"] && keys[1..][1..] == ["content"] && keys[1..][1..][1..] == [];
    v := Null;
    if Truthy(ValueAt(payload, "text")) { v := ValueAt(payload, "text"); }
    else if Truthy(ValueAt(payload, "prompt")) { v := ValueAt(payload, "prompt"); }
    else if Truthy(ValueAt(payload, "content")) { v := ValueAt(payload, "content"); }
    FirstTruthyIs(payload, keys);
    FirstTruthyIs(payload, keys[1..]);
    FirstTruthyIs(payload, keys[1..][1..]);
    FirstTruthyIs(payload, []);
    hide FirstTruthy, ValueAt;
  }

  lemma FirstTruthyIs(payload: Json, keys: seq<string>)
    ensures FirstTruthy(payload, keys)
      == if keys == [] then None
         else if Truthy(ValueAt(payload, keys[0])) then Some(ValueAt(payload, keys[0])) else FirstTruthy(payload, keys[1..])
  {
  }

  /** The event a steer becomes: words of the user in the turn that reads them. */
  ghost predicate SteerEvent(e: Event, conversation: ConversationId, turn: TurnId, task: TaskId, id: MessageId, text: string) {
    && e.kind == UserMessage && e.visible && e.conversation == conversation && e.turn == turn && e.task == Some(task)
    && Get(e.payload, "content") == Some(Str(text))
    && Get(e.payload, "source") == Some(Str("task_message")) && Get(e.payload, "message_type") == Some(Str("steer"))
    && Get(e.payload, "task_message_id") == Some(Int(id))
    && Get(e.payload, "message_id") == Some(Str("steer:" + Decimal(task) + ":" + Decimal(id)))
  }

  lemma PlacedSteer(events: Events, conversation: ConversationId, turn: TurnId, task: TaskId, id: MessageId, text: string, stamp: Stamp)
    ensures var d := SteerDraft(conversation, turn, task, id, text);
      && d.key == Some(Steered(task, id)) && d.conversation == conversation
      && SteerEvent(Placed(events, d, stamp.id(|events|), stamp.at(|events|)), conversation, turn, task, id, text)
  {
    hide MaxSeq, Decimal;
  }

  /** The event says what the message carries. */
  ghost predicate Became(codec: Codec, e: Event, conversation: ConversationId, turn: TurnId, task: TaskId, m: Message) {
    exists v :: Carries(m.payload, v) && SteerEvent(e, conversation, turn, task, m.id, Spelled(codec, v))
  }

  /** What the delivery of the first `n` pending steers adds: an event for each that carries a text, and that text. */
  ghost predicate Adds(
    codec: Codec, conversation: ConversationId, turn: TurnId, task: TaskId, pending: Messages, n: nat, more: Events, texts: seq<string>)
    requires n <= |pending|
  {
    && |more| == |texts|
    && (forall i | 0 <= i < |more| :: Get(more[i].payload, "content") == Some(Str(texts[i])))
    && (forall e | e in more :: exists k :: 0 <= k < n && Became(codec, e, conversation, turn, task, pending[k]))
    && (forall k | 0 <= k < n && HasText(pending[k].payload) ::
          exists e :: e in more && Became(codec, e, conversation, turn, task, pending[k]))
  }

  lemma NotYetThere(codec: Codec, events: Events, conversation: ConversationId, turn: TurnId, task: TaskId, pending: Messages, n: nat, stamp: Stamp)
    requires n < |pending| && Numbered(pending) && Undelivered(events, task, pending, 0)
    ensures FindKey(Delivered(codec, events, conversation, turn, task, pending, n, stamp), conversation, Steered(task, pending[n].id)).None?
  {
    hide FindKey, InLog, ReceiptsOf, Delivered, Numbered, Undelivered;
    var before := Delivered(codec, events, conversation, turn, task, pending, n, stamp);
    DeliverAll(codec, events, conversation, turn, task, pending, n, stamp);
    StillPending(codec, events, task, pending, n);
    assert InLog(before, task) == InLog(events, task) + ReceiptsOf(codec, pending, n);
    if FindKey(before, conversation, Steered(task, pending[n].id)).Some? { KeyInLog(before, conversation, task, pending[n].id); }
  }

  lemma TextsUnfold(codec: Codec, pending: Messages, n: nat)
    requires n < |pending|
    ensures TextsOf(codec, pending, n + 1) == TextsOf(codec, pending, n)
      + (match SteerText(codec, pending[n].payload) case Some(text) => [text] case None => [])
  {
    hide SteerText;
  }

  lemma {:induction false} DeliveryAdds(
    codec: Codec, events: Events, conversation: ConversationId, turn: TurnId, task: TaskId, pending: Messages, n: nat, stamp: Stamp)
    returns (more: Events)
    requires n <= |pending| && Numbered(pending) && Undelivered(events, task, pending, 0)
    ensures Delivered(codec, events, conversation, turn, task, pending, n, stamp) == events + more
    ensures Adds(codec, conversation, turn, task, pending, n, more, TextsOf(codec, pending, n))
  {
    hide *;
    if n == 0 {
      NothingAdded(codec, events, conversation, turn, task, pending, stamp);
      more := [];
    } else {
      more := DeliveryAdds(codec, events, conversation, turn, task, pending, n - 1, stamp);
      NotYetThere(codec, events, conversation, turn, task, pending, n - 1, stamp);
      more := OneDelivered(codec, events, conversation, turn, task, pending, n - 1, stamp, more);
    }
  }

  lemma OneDelivered(
    codec: Codec, events: Events, conversation: ConversationId, turn: TurnId, task: TaskId, pending: Messages, n: nat, stamp: Stamp,
    before: Events) returns (more: Events)
    requires n < |pending| && Delivered(codec, events, conversation, turn, task, pending, n, stamp) == events + before
    requires FindKey(events + before, conversation, Steered(task, pending[n].id)).None?
    requires Adds(codec, conversation, turn, task, pending, n, before, TextsOf(codec, pending, n))
    ensures Delivered(codec, events, conversation, turn, task, pending, n + 1, stamp) == events + more
    ensures Adds(codec, conversation, turn, task, pending, n + 1, more, TextsOf(codec, pending, n + 1))
  {
    DeliveredUnfold(codec, events, conversation, turn, task, pending, n, stamp);
    TextsUnfold(codec, pending, n);
    var v := CarriesExactly(codec, pending[n].payload);
    var text := SteerText(codec, pending[n].payload);
    hide Adds, FindKey, Carries, SteerText, Spelled, HasText, Delivered, ReceiptsOf, TextsOf, Logged, SteerDraft;
    if text.Some? {
      var e := OneEvent(codec, events + before, conversation, turn, task, pending[n], v, stamp);
      OneMoreAdds(codec, conversation, turn, task, pending, n, before, TextsOf(codec, pending, n), e, text.value);
      more := before + [e];
      assert events + before + [e] == events + more;
    } else {
      NoMoreAdds(codec, conversation, turn, task, pending, n, before, TextsOf(codec, pending, n));
      more := before;
      assert TextsOf(codec, pending, n) + [] == TextsOf(codec, pending, n);
    }
  }

  lemma NothingAdded(
    codec: Codec, events: Events, conversation: ConversationId, turn: TurnId, task: TaskId, pending: Messages, stamp: Stamp)
    ensures Delivered(codec, events, conversation, turn, task, pending, 0, stamp) == events + []
    ensures Adds(codec, conversation, turn, task, pending, 0, [], TextsOf(codec, pending, 0))
  {
    hide Became, HasText, Get;
  }

  lemma OneEvent(codec: Codec, log: Events, conversation: ConversationId, turn: TurnId, task: TaskId, m: Message, v: Json, stamp: Stamp)
    returns (e: Event)
    requires FindKey(log, conversation, Steered(task, m.id)).None? && Carries(m.payload, v)
    ensures Logged(log, SteerDraft(conversation, turn, task, m.id, Spelled(codec, v)), stamp) == log + [e]
    ensures Became(codec, e, conversation, turn, task, m) && Get(e.payload, "content") == Some(Str(Spelled(codec, v)))
  {
    var d := SteerDraft(conversation, turn, task, m.id, Spelled(codec, v));
    PlacedSteer(log, conversation, turn, task, m.id, Spelled(codec, v), stamp);
    e := Placed(log, d, stamp.id(|log|), stamp.at(|log|));
    SteerContent(e, conversation, turn, task, m.id, Spelled(codec, v));
    hide FindKey, Placed, SteerDraft, Carries, Spelled, SteerEvent, Get;
  }

  lemma NoMoreAdds(
    codec: Codec, conversation: ConversationId, turn: TurnId, task: TaskId, pending: Messages, n: nat, more: Events, texts: seq<string>)
    requires n < |pending| && Adds(codec, conversation, turn, task, pending, n, more, texts) && !HasText(pending[n].payload)
    ensures Adds(codec, conversation, turn, task, pending, n + 1, more, texts)
  {
    hide Became, HasText, Get;
  }

  lemma SteerContent(e: Event, conversation: ConversationId, turn: TurnId, task: TaskId, id: MessageId, text: string)
    requires SteerEvent(e, conversation, turn, task, id, text)
    ensures Get(e.payload, "content") == Some(Str(text))
  {
  }

  lemma OneMoreAdds(
    codec: Codec, conversation: ConversationId, turn: TurnId, task: TaskId, pending: Messages, n: nat, more: Events, texts: seq<string>,
    e: Event, text: string)
    requires n < |pending| && Adds(codec, conversation, turn, task, pending, n, more, texts)
    requires Became(codec, e, conversation, turn, task, pending[n]) && Get(e.payload, "content") == Some(Str(text))
    ensures Adds(codec, conversation, turn, task, pending, n + 1, more + [e], texts + [text])
  {
    hide Became, HasText, Get;
    var longer := more + [e];
    forall x | x in longer ensures exists k :: 0 <= k < n + 1 && Became(codec, x, conversation, turn, task, pending[k]) {
      if x in more { var k :| 0 <= k < n && Became(codec, x, conversation, turn, task, pending[k]); }
    }
    forall k | 0 <= k < n + 1 && HasText(pending[k].payload)
      ensures exists x :: x in longer && Became(codec, x, conversation, turn, task, pending[k])
    {
      if k < n {
        var x :| x in more && Became(codec, x, conversation, turn, task, pending[k]);
        assert x in longer;
      } else {
        assert e in longer;
      }
    }
  }

  lemma {:induction false} PendingExactly(messages: Messages, task: TaskId)
    ensures forall m :: m in PendingSteers(messages, task) <==> Waits(messages, task, m)
  {
    if messages != [] {
      var init, last := messages[..|messages| - 1], messages[|messages| - 1];
      PendingExactly(init, task);
      assert messages == init + [last];
    }
  }

  /** The steers of a task that wait to be read. */
  ghost predicate Waits(messages: Messages, task: TaskId, m: Message) {
    m in messages && m.task == task && m.kind == Steer && !m.consumed
  }

  /** All that a delivery does to the two tables. */
  ghost predicate DeliveredAll(codec: Codec, b: Box, task: TaskId, turn: TurnId, conversation: ConversationId, b': Box) {
    && b.events <= b'.events
    && (var more := b'.events[|b.events|..];
        && (forall m | Waits(b.messages, task, m) && HasText(m.payload) ::
              exists e :: e in more && Became(codec, e, conversation, turn, task, m))
        && (forall e | e in more :: exists m :: Waits(b.messages, task, m) && Became(codec, e, conversation, turn, task, m)))
    && |b'.messages| == |b.messages|
    && forall j | 0 <= j < |b.messages| ::
         b'.messages[j] == if b.messages[j].task == task && b.messages[j].kind == Steer then b.messages[j].(consumed := true) else b.messages[j]
  }

  /**
    In every run a delivery makes each waiting steer of the task that carries a
    text words of the user in the turn's log, adds nothing else, and consumes
    the steers of this task and no other message.
   */
  lemma SteersAreRead(codec: Codec, boxes: seq<Box>, moves: seq<Move>, i: nat)
    requires SteerRun(codec, boxes, moves) && i < |moves| && moves[i].Deliver?
    ensures DeliveredAll(codec, boxes[i], moves[i].task, moves[i].turn, moves[i].conversation, boxes[i + 1])
  {
    SteersExactlyOnce(codec, boxes, moves, i);
    var b, move := boxes[i], moves[i];
    assert boxes[i + 1] == AfterMove(codec, b, move);
    hide *;
    DeliveryIsAll(codec, b, move.task, move.turn, move.conversation, move.stamp);
  }

  lemma DeliveryIsAll(codec: Codec, b: Box, task: TaskId, turn: TurnId, conversation: ConversationId, stamp: Stamp)
    requires SoundTable(b.messages) && ExactlyOnce(codec, b)
    ensures DeliveredAll(codec, b, task, turn, conversation, AfterMove(codec, b, Deliver(task, turn, conversation, stamp)))
  {
    var pending := PendingSteers(b.messages, task);
    PendingUndelivered(codec, b, task);
    PendingFrom(b.messages, task);
    PendingExactly(b.messages, task);
    hide ExactlyOnce, SoundTable, PendingSteers, Delivered, Numbered, Undelivered, Adds, Became, HasText, Waits;
    var more := DeliveryAdds(codec, b.events, conversation, turn, task, pending, |pending|, stamp);
    AddsAll(codec, b.messages, task, turn, conversation, pending, more, TextsOf(codec, pending, |pending|));
    assert (b.events + more)[|b.events|..] == more;
  }

  lemma AddsAll(
    codec: Codec, messages: Messages, task: TaskId, turn: TurnId, conversation: ConversationId, pending: Messages, more: Events, texts: seq<string>)
    requires Adds(codec, conversation, turn, task, pending, |pending|, more, texts)
    requires forall m :: m in pending <==> Waits(messages, task, m)
    ensures forall m | Waits(messages, task, m) && HasText(m.payload) ::
      exists e :: e in more && Became(codec, e, conversation, turn, task, m)
    ensures forall e | e in more :: exists m :: Waits(messages, task, m) && Became(codec, e, conversation, turn, task, m)
  {
    hide Became, HasText, Waits;
    forall m | Waits(messages, task, m) && HasText(m.payload)
      ensures exists e :: e in more && Became(codec, e, conversation, turn, task, m)
    {
      assert m in pending;
      var k :| 0 <= k < |pending| && pending[k] == m;
    }
    forall e | e in more ensures exists m :: Waits(messages, task, m) && Became(codec, e, conversation, turn, task, m) {
      var k :| 0 <= k < |pending| && Became(codec, e, conversation, turn, task, pending[k]);
      assert pending[k] in pending;
    }
  }
}
