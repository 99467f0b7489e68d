/**
  The rows of the SQLite database behind the task queue and the conversation
  log, and the database itself as one mutable object.

  Text identifiers appear as numbers where only equality and order matter; a
  NULL or empty text column is the empty string.
 */
module Tables {
  import opened JsonValue

  type TaskId = nat
  type TurnId = nat
  type ConversationId = nat
  type MessageId = nat
  type Token = nat
  type Time = int

  datatype Status =
    | Queued | Running | AwaitingApproval | Paused
    | Succeeded | Failed | Canceled | Interrupted

  predicate Terminal(s: Status) {
    s.Succeeded? || s.Failed? || s.Canceled? || s.Interrupted?
  }

  predicate Active(s: Status) {
    s.Queued? || s.Running? || s.AwaitingApproval? || s.Paused?
  }

  /** The two statuses under which a worker may hold a lease. */
  predicate Holding(s: Status) {
    s.Running? || s.AwaitingApproval?
  }

  datatype Task = Task(
    user: string,
    project: string,
    conversation: Option<ConversationId>,
    createdAt: Time,
    status: Status,
    cancelRequested: bool,
    pauseRequested: bool,
    parent: Option<TaskId>,
    role: string,
    writeLockKey: string,
    contextLockKey: string,
    claimOwner: Option<string>,
    claimToken: Option<Token>,
    lease: Option<Time>,
    heartbeatAt: Option<Time>,
    attempt: nat,
    startedAt: Option<Time>,
    finishedAt: Option<Time>,
    errorMessage: string,
    recoveryRoot: Option<TaskId>,
    recoverySource: Option<TaskId>,
    recoveryAttempt: nat)

  datatype Turn = Turn(
    conversation: ConversationId,
    task: Option<TaskId>,
    user: string,
    project: string,
    status: Status,
    createdAt: Time,
    startedAt: Option<Time>,
    finishedAt: Option<Time>,
    errorMessage: string)

  datatype EventKind =
    | UserMessage | AssistantMessage | ToolCall | ToolResult
    | ContextCheckpoint | CheckpointInvalidated
    | SystemNote | RecoveryNote
    | TurnStarted | TurnCompleted | TurnFailed | TurnCanceled | TurnInterrupted
    | Changes | Usage | ApprovalResolved | LifecycleReconciled
    | OtherKind(name: string)

  /** The formats of `event_key`; identifiers hold no colon, so they never collide. */
  datatype EventKey =
    | TurnPrompt(turn: TurnId)
    | TurnStart(turn: TurnId)
    | TurnEnd(turn: TurnId, kind: EventKind)
    | RecoveredResult(turn: TurnId, call: string)
    | RecoveredInterruption(turn: TurnId)
    | RecoveryResume(turn: TurnId)
    | Steered(task: TaskId, message: MessageId)
    | Reconciled(turn: TurnId, status: Status)
    | AssistantOf(reply: string)
    | CallOf(call: string)
    | ResultOf(call: string)
    | UsageOf(reply: string)
    | ApprovalOf(approval: string)
    | CheckpointAt(conversation: ConversationId, covers: int)
    | InvalidatedCheckpoint(checkpoint: string)
    | Legacy(conversation: ConversationId, index: nat, kind: EventKind)
    | Named(text: string)

  datatype Event = Event(
    id: string,
    conversation: ConversationId,
    turn: TurnId,
    task: Option<TaskId>,
    seqNo: nat,
    kind: EventKind,
    visible: bool,
    key: Option<EventKey>,
    payload: Json,
    createdAt: Time)

  datatype MessageType = Steer | FollowUp | CancelMessage | PauseMessage | ResumeMessage

  datatype MessageKey = PauseOf(task: TaskId) | ResumeOf(task: TaskId) | ClientKey(text: string)

  datatype Message = Message(
    id: MessageId,
    task: TaskId,
    key: MessageKey,
    kind: MessageType,
    payload: Json,
    consumed: bool)

  /** One SQLite file.  Every method that takes a Database is one transaction. */
  class Database {
    var tasks: map<TaskId, Task>
    var dependencies: set<(TaskId, TaskId)>
    var turns: map<TurnId, Turn>
    var events: seq<Event>
    var messages: seq<Message>

    constructor ()
      ensures tasks == map[] && dependencies == {} && turns == map[] && events == [] && messages == []
    {
      tasks, dependencies, turns, events, messages := map[], {}, map[], [], [];
    }
  }
}
