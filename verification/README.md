# The durable queue, its log and the transcripts made from it

This project models the part of the agent service that has to survive restarts
and proves what it keeps. It follows the program's own parts.

**Task queue** (`Tables`, `TaskQueue`, `QueueRuns`, `CancelCascade`). Workers
claim tasks under leases with fresh tokens; users pause, resume and cancel them.
Each transaction is one method on a `Database` object and one function on its
tables. `QueueRuns` is the state machine over these steps; its theorems hold in
every reachable state. Three hypotheses appear as named predicates: heartbeats
are sent only while the sender's lease lives (`HeartbeatKeepsExclusiveExactly`
says exactly why), lifecycle writes come from a worker that still holds its
task, and a main lock key belongs to a row without parent.

**Event log** (`EventStore`, `Steers`, `SteerDelivery`, `CrashRecovery`,
`RecoveredContext`, `RecoveryRestart`, `RecoveryOutcome`, `Reconcile`,
`Evidence`, `EvidenceTotals`, `LegacyTurns`). Append-only, numbered per
conversation, idempotent by key. Crash recovery is modelled commit by commit, so
that a crash can be placed between any two of them; the evidence a worker keeps
in memory is an object whose contents always equal a fold over the log.

**Log to transcript** (`ContextEvents`, `SelectedEvents`, `Sorting`,
`Exchanges`, `MessageParts`, `ProviderMessages`, `OpenAiTranscript`,
`AnthropicTranscript`, `ProviderEquivalence`, `TranscriptContents`,
`Checkpoints`, `CheckpointRuns`, `CheckpointFacts`). Events are grouped, calls
paired with results, history cut at checkpoints, and two provider formats
emitted.

**Model loop** (`Compaction`, `TurnCompaction`, `AgentLoop`, `AnthropicLoop`,
`PausedTurns`, `RefusedCalls`, `LoopReplies`, `CompactionTexts`). Transcripts
are compacted again and again while the loop appends to them. Model replies,
tool results, steers and interruptions are arbitrary functions of the response
index, so the theorems quantify over all of them. `PausedTurns` follows one turn
through many runs of either loop over the same growing log.

**Recovery of tasks, index and limiter** (`RecoveryChain`, `RecoveryTerms`,
`RepoIndex`, `Limiter`).

Most operations are proved against a function on the tables, and the theorems
about runs are proved of that function. `TranscriptContents`, `RecoveryOutcome`,
`SteerDelivery`, `EvidenceTotals`, `RecoveryTerms`, `CheckpointFacts`,
`RefusedCalls`, `LoopReplies`, `CompactionTexts`, `MessageParts` and
`SelectedEvents` say what comes of it in terms of rows, payload keys and texts.

The code is modelled as it is. Where a natural claim is false of it, a lemma
names a concrete case and another says exactly when the claim holds:

- a late heartbeat breaks exclusion (`LateHeartbeatBreaksExclusion`);
- the two formats render an input differently that decodes twice
  (`NullInputDiffers`, `BackEndsAgreeUnlessTwiceEncoded`), because the OpenAI form decodes
  the arguments once more on the way to text;
- Anthropic compaction can orphan an answer that a note has joined
  (`MixedAnswerIsOrphaned`, `CompactsSafelyExactly`);
- a call that raises leaves no record, so the next run makes it again and the
  calls of a turn can exceed its limit (`LostCallsAddUp`,
  `CallsWithinTotalExactly`);
- a lease that runs out between two passes of crash recovery changes what the
  second one does (`LapseShows`, `RestartableExactly`);
- a crash loses the report of turns that were already recovered, though not
  their events (`ReportSurvivesExactly`);
- a checkpoint loses events of turns that interleave (`InterleavedEventIsLost`,
  `LosesNothingExactly`), and its key can lead to an older event that no longer
  stands (`SameKeyNoLongerStands`);
- call and result keys are per conversation, so a reused call id is counted for
  the wrong turn (`ReusedIdMiscounts`, `TotalsFollowTheLogExactly`);
- lifecycle writes replace a terminal status without looking at it
  (`TerminalLeftExactly`, `TerminalIsFinalExactly`);
- finalizing again under an older key leaves turn and log apart
  (`FinalizeAgreesExactly`);
- removing a file leaves its symbol, reference and text rows
  (`AbsentAgreesExactly`);
- recovery reads a call's id under one key only (`OtherKeyIsMissed`).

How things are represented: text identifiers are numbers where only equality and
order matter; NULL and the empty text are one in the text columns of tasks and
turns; event keys are a datatype, since their formats never collide; times are
whole numbers, and exact reals in the limiter; JSON is a datatype, while
encoding, decoding and sorting of keys are arbitrary functions collected in
`Codec`. The clock, fresh identifiers and claim tokens are parameters. A `Stamp`
supplies the id and time an event gets at its place in the log.

## Model

| member | source | states |
|---|---|---|
| TaskQueue.ClaimNextTask | agent/database.py:1447-1569 | a claim takes the least claimable row by creation time and id, and gives None exactly when no row is claimable; what it grants is valid for its worker and token up to the end of the lease and no longer |
| TaskQueue.HeartbeatTask | agent/database.py:1571-1593 | a renewal is accepted for the owner of a held task, expired lease or not; from then on the claim is valid to the end of a lease that starts now, and nothing else changes |
| TaskQueue.ClaimIsValid | agent/database.py:1595-1610 | true exactly for the owner with the current token while the lease lives |
| TaskQueue.ReleaseTask | agent/database.py:1612-1652 | the owner alone gives a task back, and its row carries no claim from then on; parking a task that was asked to stop cancels it instead |
| TaskQueue.RequestCancel | agent/database.py:1374-1404 | an accepted request leaves the flag set on the row; a parked task ends at once without a claim, any other keeps status and claim, and no other row changes |
| TaskQueue.PauseTask | agent/database.py:1734-1781 | queued tasks park, running ones are asked, a pending cancel wins, and the request message is stored once |
| TaskQueue.ResumeTask | agent/database.py:1783-1805 | only a parked task without a pending cancel goes back to the queue, without any claim, and its pause messages are consumed |
| TaskQueue.RecoverTasks | agent/database.py:815-862 | a restart fails every running or waiting task without a surviving claim and leaves all others their status |
| QueueRuns.SingleWriter | agent/database.py:1447-1652 | on every run with a non-decreasing clock, timely heartbeats, writes by holders and well-formed keys, no two tasks with the same effective lock key hold live leases together |
| QueueRuns.ClaimGrants | agent/database.py:1530-1610 | what a claim grants is valid at every time up to the end of its lease, at once and for the worker and token it was made with, on a row that was claimable |
| QueueRuns.BlocksSeesSameLock | agent/database.py:1466-1511 | the two conflict queries of a claim together see every live holder of the same effective key |
| QueueRuns.BlocksExactly | agent/database.py:1466-1511 | another task blocks a claim exactly when it holds a live lease under the same lock |
| QueueRuns.KeylessBlocksExactly | agent/database.py:1487-1511 | a main task without a key waits for live holders of its project's main lock and for keyless tasks there with a role but no parent; a keyless child waits for nobody |
| QueueRuns.NothingClaimedMeansWaiting | agent/database.py:1447-1569 | when a claim finds nothing, each queued task with a key, and each running one whose lease is over, waits for a live holder of the same lock or for a dependency |
| QueueRuns.HeartbeatKeepsExclusiveExactly | agent/database.py:1571-1593 | an accepted heartbeat keeps exclusion if and only if the sender's lease was live or nobody else holds its lock |
| QueueRuns.LateHeartbeatBreaksExclusion | agent/database.py:1571-1593 | a concrete table in which a late heartbeat gives two tasks the same lock |
| QueueRuns.ReplacedTokenIsDead | agent/database.py:1571-1652 | once a token is no longer its task's, it never again passes validation, heartbeat or release, on any task, in any later state |
| QueueRuns.TokenBelongsToOneTask | agent/database.py:1530-1569 | from the moment a row carries a token no other row ever carries it |
| QueueRuns.CancelNeverLost | agent/database.py:1374-1805 | under every interleaving a cancel flag once set is set in all later states |
| QueueRuns.AcceptedCancelLasts | agent/database.py:1374-1404 | an accepted cancel leaves the task flagged in every later state of a run, or canceled when it was parked |
| QueueRuns.PausedIsNeverFlagged | agent/database.py:1612-1781 | in no reachable state is a task parked with a cancel pending |
| QueueRuns.TerminalIsFinal | agent/database.py:1374-1805 | in every run a terminal status is never left |
| QueueRuns.TerminalLeftExactly | agent/database.py:1612-1652 | a step leaves a terminal status exactly when it is a lifecycle write, or a release by the owner, with another status |
| QueueRuns.TerminalIsFinalExactly | agent/database.py:1374-1805 | in any run, whoever writes, terminal statuses are final if and only if no lifecycle write or release replaces one |
| QueueRuns.ClaimHistory | agent/database.py:1455-1569 | the claim history lists each claimed task once, with all its dependencies succeeded and claimed before it |
| QueueRuns.ClaimedTasksHadTheirDependencies | agent/database.py:1512-1527 | in every reachable state each task ever claimed has all its dependencies succeeded, if dependencies are added before the first claim |
| QueueRuns.CycleIsNeverClaimed | agent/database.py:1807-1814 | no task on a dependency cycle is ever claimed |
| CancelCascade.RequestCancelCascade | agent/database.py:1417-1431 | it ends on cyclic parent links too; exactly the user's active tasks reachable from the start are reported, each once, and each of them is flagged, or ended when it was parked |
| CancelCascade.ListChildren | agent/database.py:1406-1415 | exactly the user's direct children, oldest first |
| CancelCascade.CancelStops | agent/database.py:1374-1431 | the row of each task that a cascade cancels is flagged, or ended when it was parked |
| ContextEvents.SelectContextEvents | agent/conversation_context.py:14-72 | the selection is the log cut at its last valid checkpoint and filtered to what a model may see |
| SelectedEvents.SelectedExactly | agent/conversation_context.py:14-72 | an event is selected exactly when it is of a kind a model may see and the last valid checkpoint does not cover it, or is that checkpoint |
| SelectedEvents.CheckpointSays | agent/conversation_context.py:551-556 | a checkpoint says its summary, or else the first other text that is not blank |
| SelectedEvents.NoteSays | agent/conversation_context.py:559-564 | a note says the first of its texts that is not blank |
| SelectedEvents.StrippedExactly | agent/conversation_context.py:551-564 | stripping takes blanks off both ends and nothing else |
| SelectedEvents.PiecesJoin | agent/conversation_context.py:536-548 | a content list reads as its text blocks in order, with nothing between them |
| Exchanges.AssistantGroups | agent/conversation_context.py:276-288 | each group holds exactly the spoken events with its key, in order |
| MessageParts.SameMessageExactly | agent/conversation_context.py:291-296 | two events belong to one message exactly when they name the same message, or name none and go by the same id, number or place |
| Exchanges.PairedToolCallIds | agent/conversation_context.py:452-469 | exactly the ids with a call that some later result answers |
| Exchanges.PairedToolResults | agent/conversation_context.py:472-484 | every paired id gets the payload of its first result |
| Exchanges.GroupTextBlocks | agent/conversation_context.py:369-410 | the texts of a message in stable block order |
| Exchanges.GroupToolCalls | agent/conversation_context.py:413-449 | the showable calls of a message, each id once, in stable block order |
| Exchanges.GroupCallIds | agent/conversation_context.py:413-449 | a message shows exactly the showable ids of its group, none twice |
| MessageParts.BlockIsAdded | agent/conversation_context.py:380-399 | an entry of a block list adds its text under the index it stores, or else the next free one, and without a text nothing |
| MessageParts.MemberIsAdded | agent/conversation_context.py:400-409 | an event without a block list adds its one text under the next free index |
| MessageParts.FallbackIsFree | agent/conversation_context.py:369-410 | throughout a message the index in waiting is one past the greatest used |
| MessageParts.ShowableExactly | agent/conversation_context.py:413-432 | a call can be shown exactly when it has a name and an id that a later result answers |
| MessageParts.InputIs | agent/conversation_context.py:433-447 | its input is the value under input, else under arguments, else an empty object, a text that is JSON decoded |
| MessageParts.CallPlace | agent/conversation_context.py:433-447 | it stands under its stored block index, or else under its place in the list |
| OpenAiTranscript.OpenAiAssistantMessage | agent/conversation_context.py:299-327 | the message of a group, or none when it says nothing |
| OpenAiTranscript.AppendResults | agent/conversation_context.py:487-504 | the not yet answered ids get their answers, in order, each once |
| OpenAiTranscript.BuildChat | agent/conversation_context.py:75-146 | the loop gives the transcript of the selected events, and its last branch never emits anything |
| OpenAiTranscript.BuildOpenAiMessages | agent/conversation_context.py:75-146 | the transcript of the selection, with the prompt unless it ends with it |
| OpenAiTranscript.WellOrderedExactly | agent/conversation_context.py:75-146 | for every event list each call is answered at once and in order, with no stray answer, if and only if no call id is shown under two messages |
| OpenAiTranscript.AnsweredExactlyOnce | agent/conversation_context.py:75-146 | for every event list the answers are exactly the showable ids, each once |
| OpenAiTranscript.ShownExactlyOnce | agent/conversation_context.py:75-146 | without reuse every paired named call appears exactly once |
| AnthropicTranscript.AnthropicAssistantMessage | agent/conversation_context.py:330-366 | texts and calls interleaved by block index, with the ids of the calls in order |
| AnthropicTranscript.AppendResultBlocks | agent/conversation_context.py:507-528 | one user message with the answers that are new, or none |
| AnthropicTranscript.BuildAnthropicMessages | agent/conversation_context.py:149-232 | the conversation of the selection, with the prompt unless the last user text is it |
| AnthropicTranscript.BuildTurns | agent/conversation_context.py:149-232 | the loop gives the conversation of the selected events, and its last branch never emits anything |
| AnthropicTranscript.UsersNeverAdjacent | agent/conversation_context.py:628-645 | two user messages never stand next to each other |
| AnthropicTranscript.AnsweredTurnsExactly | agent/conversation_context.py:149-232 | for every event list each call is answered in the very next message, with no stray result, if and only if no call id is shown under two messages |
| ProviderEquivalence.BackEndsAgreeExactly | agent/conversation_context.py:75-232 | for every event list both formats say the same texts, notes, calls and results in the same order, if and only if no shown call has an input that decodes twice to something else |
| ProviderEquivalence.InterleavingKeepsBoth | agent/conversation_context.py:330-366 | interleaving texts and calls by block index changes neither the text nor the order of the calls |
| ProviderEquivalence.BackEndsAgreeUnlessTwiceEncoded | agent/conversation_context.py:577-592 | with an injective rendering they agree if and only if no shown call stores a text that decodes to null, or to a text that decodes again to something else |
| ProviderEquivalence.ObjectInputsAgree | agent/conversation_context.py:413-449 | logs whose call inputs are objects, as both loops write them, always agree |
| ProviderEquivalence.NullInputDiffers | agent/conversation_context.py:577-592 | a log of three events, with the input text null, on which the two outputs differ |
| ProviderEquivalence.PromptAgreesExactly | agent/conversation_context.py:613-673 | without a turn id both drop a repeated prompt alike, unless the log ends with a note that reads like the prompt |
| ProviderEquivalence.BuildProviderChat | agent/conversation_context.py:235-273 | with a turn id the prompt is added exactly when the turn's log does not hold it, otherwise unless the history ends with it |
| ProviderEquivalence.BuildProviderTurns | agent/conversation_context.py:235-273 | the same for the Anthropic form, where users never become adjacent |
| ProviderEquivalence.ProviderHistoryFormed | agent/conversation_context.py:235-273 | from a log without reused call ids the OpenAI history is well-formed and the Anthropic one answered |
| ProviderEquivalence.ProviderHistorySays | agent/conversation_context.py:235-273 | both histories of a turn say what the selected log says, and then the prompt if the turn's log lacks it |
| TranscriptContents.ChatTellsResult | agent/conversation_context.py:472-606 | the OpenAI transcript answers each shown call with the text of its first result: the model output when there is any, else content, output, structured output, error type, in this order |
| TranscriptContents.TurnsTellResult | agent/conversation_context.py:472-606 | the Anthropic conversation answers it with the same text, marked as an error exactly when the result says it failed |
| TranscriptContents.CallIsShown | agent/conversation_context.py:413-449 | a shown call appears in both formats with its own id, name and input |
| TranscriptContents.TextIsShown | agent/conversation_context.py:369-410 | an assistant message that stores one text says this text in both formats |
| TranscriptContents.BlocksInOrder | agent/conversation_context.py:413-449 | calls of one message stand in the order of their stored block indices |
| TranscriptContents.PlainInOrder | agent/conversation_context.py:75-232 | user texts, notes and checkpoints appear in both formats, word for word and in the order of the log |
| TranscriptContents.UserTextsAreSaid | agent/conversation_context.py:75-146 | every user message of a transcript is the text of a user's event |
| Compaction.OpenAiUnits | agent/compact.py:84-108 | the units of a transcript |
| Compaction.ChatUnitsConcat | agent/compact.py:84-108 | the units put together are the input |
| Compaction.FormedUnits | agent/compact.py:84-108 | in a well-formed transcript each unit is a message with exactly its answers |
| Compaction.ShrinkOpenAiMessage | agent/compact.py:41-75 | long outputs and arguments are replaced, nothing else, and the flag is never false for a changed message |
| Compaction.DropCountIsLeast | agent/compact.py:181-190 | no more units are dropped than needed to fit, and never a protected one |
| Compaction.CompactOpenAiMessages | agent/compact.py:154-195 | the result is the input with droppable units shrunk and the least number of them gone; the flag tells a smaller result or a dropped unit |
| Compaction.CompactionKeepsFormed | agent/compact.py:154-195 | a well-formed transcript stays well-formed, whatever the limits |
| Compaction.CompactionKeepsRecent | agent/compact.py:154-195 | the system prompt and the newest protected units are unchanged |
| Compaction.CompactionFitsOrIsLeast | agent/compact.py:154-195 | the result fits, or only the system prompt, the marker and the protected units are left |
| Compaction.CompactionKeepsOrder | agent/compact.py:154-195 | behind the marker stands a stretch from the end of the input, each message as it was or shrunk in place |
| Compaction.CompactionKeepsMarkerFirst | agent/compact.py:181-190 | however often it is compacted, a transcript has its marker at most right behind the system prompt |
| Compaction.MarkerAtMostOnce | agent/compact.py:181-190 | so no more than one marker is ever left |
| CompactionTexts.ShrunkIsCut | agent/compact.py:41-75 | an output longer than 400 keeps its first 200 characters and a note; arguments longer than 300 give way to their length and their first twenty keys; ids, names and texts stay |
| CompactionTexts.PiecesExactly | agent/compact.py:172-179 | exactly the units in front of the kept newest ones are cut down like this |
| CompactionTexts.DroppedExactly | agent/compact.py:181-190 | past the limit the right number of units goes: one less would not fit, and the rest fits unless the kept units alone are left |
| CompactionTexts.WithinLimitStays | agent/compact.py:165-167 | within the limit nothing changes |
| CompactionTexts.FirstUnitIs | agent/compact.py:84-108 | in any transcript a unit is a message with the run of answers to its own calls, and no more |
| CompactionTexts.SizeIs | agent/compact.py:8-16 | what a message counts: its text and the text its calls are sent as |
| TurnCompaction.AnthropicUnits | agent/compact.py:111-151 | the units of an Anthropic conversation |
| TurnCompaction.TurnUnitsConcat | agent/compact.py:136-151 | the units put together are the input |
| TurnCompaction.SafeToDropExactly | agent/compact.py:111-151 | for an answered conversation every cut between units leaves an answered one if and only if no answer shares its message with other blocks |
| TurnCompaction.CompactsSafelyExactly | agent/compact.py:198-236 | an answered conversation stays answered under all limits if and only if no answer shares its message with other blocks |
| TurnCompaction.CompactAnthropicMessages | agent/compact.py:198-236 | as for OpenAI, over units of messages with content blocks |
| TurnCompaction.CompactedAnsweredExactly | agent/compact.py:198-236 | the result is answered exactly when what is left of the input is |
| TurnCompaction.CompactionKeepsAnswered | agent/compact.py:198-236 | an answered conversation with pure answers stays answered, whatever the limits |
| TurnCompaction.CompactionKeepsPure | agent/compact.py:198-236 | pure answers stay pure |
| TurnCompaction.MarkerTouchesUser | agent/compact.py:226-231 | the marker makes two user messages adjacent exactly when the first message left is the user's |
| TurnCompaction.MixedAnswerIsOrphaned | agent/compact.py:198-236 | a note that joined an answer: dropping the call leaves the result behind |
| CompactionTexts.BlocksAreCut | agent/compact.py:211-220 | old results lose their end in the same way, and nothing else changes |
| CompactionTexts.TurnsDroppedExactly | agent/compact.py:222-231 | and the right number of units goes |
| AgentLoop.HandleCalls | agent/loop.py:936-1225 | the answers to the calls of one reply, until one is interrupted |
| AgentLoop.WorkIsBalanced | agent/loop.py:936-1225 | malformed arguments, retry refusals and automatic builds included, the answers are exactly the answers to the calls made, as a multiset |
| AgentLoop.AnswerReply | agent/loop.py:774-1225 | what one reply does to the message list and the counters |
| AgentLoop.RunOpenAi | agent/loop.py:676-1229 | each request is the one before, answered, steered and compacted; replies are numbered from the resumed offset up to the turn limit, a reply that leaves no record ends the run, and the outcome says why it ended |
| RefusedCalls.ReplyIgnoresUndecoded | agent/loop.py:366-376 | what the loop makes of a reply does not depend on the tool of a call whose arguments do not decode to an object |
| RefusedCalls.RunIgnoresUndecoded | agent/loop.py:936-965 | nor does a whole run: such a call is never executed |
| RefusedCalls.UndecodedIsRefused | agent/loop.py:936-965 | it is answered with a refusal and counts as no edit, no failed build and no automatic build |
| RefusedCalls.DecodedIsRun | agent/loop.py:966-1225 | a call that decodes is answered with what its tool gave, and counted as the edit or the failed build it is |
| RefusedCalls.EditBringsBuild | agent/loop.py:966-1225 | with automatic builds a successful edit is followed by a build of its own, answered behind it |
| RefusedCalls.ExhaustedIsRefused | agent/loop.py:966-1225 | once as many builds failed as the limit allows, a further one is refused whatever its tool would do |
| LoopReplies.NudgesExactly | agent/loop.py:855-911 | before the turn limit and at most twice, a reply without calls is nudged when it asks for a download, or when no edit was made and it claims one or owes one |
| LoopReplies.PlainReplyExactly | agent/loop.py:855-911 | a reply without calls ends the run unless it is nudged; the nudge stands behind it and is counted |
| LoopReplies.LostReplyStops | agent/loop.py:728-766 | a call that fails, or whose reply leaves no record, ends the run |
| LoopReplies.CallsAreExchanged | agent/loop.py:912-1225 | a reply with calls adds one message with its text and all calls, each with its own id, name and decoded arguments, and then the answers |
| LoopReplies.ProgressExactly | agent/loop.py:337-351 | a turn resumes with the ids of its recorded replies and of its successful edits |
| AgentLoop.EveryRequestFormed | agent/loop.py:710-1229 | at every model call of every run the message list is well-formed |
| AgentLoop.OneMarkerPerRequest | agent/loop.py:710-1229 | every request begins with the system prompt and holds at most one marker |
| AgentLoop.EveryCallWithinBudgets | agent/loop.py:855-1092 | failed builds stay within the retry limit plus the automatic ones, and nudges within two |
| AgentLoop.ResumeProgress | agent/loop.py:337-351 | the numbers of distinct replies and of distinct successful edits |
| AgentLoop.StartFormed | agent/loop.py:710-713 | the system prompt before a well-formed history is well-formed |
| AnthropicLoop.ReadBlocks | agent/loop.py:1345-1403 | content, calls and text of a reply |
| AnthropicLoop.HandleToolUses | agent/loop.py:1481-1762 | the results for the calls of one reply, until one is interrupted |
| AnthropicLoop.RunAnthropic | agent/loop.py:1232-1766 | each request is the one before, answered, steered and compacted, with replies numbered up to the turn limit |
| RefusedCalls.BlocksIgnoreUnusable | agent/loop.py:1481-1762 | in the Anthropic loop too the tool of an input that is no object is never consulted |
| RefusedCalls.UnusableIsRefused | agent/loop.py:1481-1762 | and its result is a refusal, marked as an error, that counts as nothing |
| RefusedCalls.UsableIsRun | agent/loop.py:1481-1762 | a usable input is answered with what its tool gave, and counted as the edit or the failed build it is |
| RefusedCalls.EditBringsBuildUse | agent/loop.py:1481-1762 | with automatic builds a successful edit is followed by a build here too |
| RefusedCalls.ExhaustedUseIsRefused | agent/loop.py:1481-1762 | and a build after too many failed ones is refused |
| LoopReplies.PlainBlocksExactly | agent/loop.py:1417-1480 | a reply without calls ends the run unless it is nudged, as in the other loop |
| LoopReplies.UsesAreExchanged | agent/loop.py:1481-1762 | a reply with calls adds its content, the automatic builds included, and all results in one user message |
| LoopReplies.ContentIs | agent/loop.py:1345-1403 | block by block that content is what the reply says and calls, an empty object standing for an input that is none |
| LoopReplies.SpokenIsJoined | agent/loop.py:1348-1360 | the text the nudges look at is the texts of the blocks that are not blank, trimmed, one under the other |
| AnthropicLoop.EveryRequestProper | agent/loop.py:1266-1766 | at every model call each call is answered in the very next message and answers are unmixed, provided the history it started from was so |
| PausedTurns.RunAgent | agent/loop.py:185-288 | a run starts from the rebuilt history and the progress of its turn in the log, and is one of the provider's own loop from there |
| PausedTurns.EveryRequestFromLogFormed | agent/loop.py:112-155 | when the selected log shows no call id under two messages, every OpenAI request of the run that starts from it is well-formed |
| PausedTurns.EveryRequestFromLogProper | agent/loop.py:112-155 | the same for Anthropic, each call answered in the next message, when the rebuilt answers are also unmixed |
| PausedTurns.KeptCount | agent/loop.py:728-933 | a run leaves one record for each of its calls except a lost last one, and never goes past the turn limit |
| PausedTurns.KeptExactly | agent/loop.py:728-766 | a call is kept when the model answered and the answer reached the log, whichever loop made it |
| PausedTurns.RepliesAreCounted | agent/loop.py:328-351 | in every history of runs over one growing log the loops' message ids in it are as many as the recorded replies, and the next offset is their number and that of the other messages |
| PausedTurns.NextReplyIsAppended | agent/jobs.py:1186-1196 | the record of a reply past the offset never meets an event under its key |
| PausedTurns.RepliesNeverExceedTotal | agent/loop.py:43-45 | one provider's recorded replies for a turn, counted across all pauses and switches, never exceed its turn limit |
| PausedTurns.CallsAreRepliesAndLosses | agent/loop.py:728-766 | its calls are exactly its recorded replies and the runs whose last call left no record |
| PausedTurns.CallsWithinTotalExactly | agent/loop.py:43-45 | its calls stay within the turn limit if and only if the lost ones are no more than the replies left over, and exceed it by at most the lost ones |
| PausedTurns.LostCallsAddUp | agent/loop.py:337-351 | with a turn limit of one and a model that never answers, n runs make n calls and record none: two calls already exceed it |
| EventStore.AppendEvent | agent/conversation_events.py:875-981 | an append answers with the new event, the one already under its key, or an error that writes nothing |
| EventStore.AppendOnce | agent/conversation_events.py:900-912 | once a keyed event is in the log every later append under its key answers with it and writes nothing |
| EventStore.AppendsExactly | agent/conversation_events.py:875-981 | when an append finds the key, refuses, or adds an event: the refusals by turn, quota and key in this order, and of the new event every field |
| EventStore.StartLifecycle | agent/conversation_events.py:518-628 | event, turn and task move together or not at all, and the event is written once |
| EventStore.FinalizeLifecycle | agent/conversation_events.py:387-516 | only terminal statuses are accepted; event, turn and task move together or not at all |
| EventStore.LifecycleIsLogged | agent/conversation_events.py:387-628 | a lifecycle event is written once for its key, hidden from the model, for this turn and task, above all others |
| EventStore.EveryLogSound | agent/conversation_events.py:387-981 | whatever is written, each conversation is numbered 1, 2, 3 and so on, keys are unique and events belong to turns of their conversation |
| EventStore.LogOnlyGrows | agent/conversation_events.py:875-981 | nothing written is ever changed, moved or renumbered |
| CrashRecovery.SelectStale | agent/database.py:870-882 | exactly the turns that say they run while their task does not, oldest first |
| CrashRecovery.ScanTurn | agent/database.py:899-919 | the calls of a turn, each id once, and the ids with a result behind their call |
| CrashRecovery.CloseTurn | agent/database.py:884-984 | one turn's open calls get their results and the turn its interruption, or the log is left at a commit between |
| CrashRecovery.RecoverStaleTurns | agent/database.py:864-1015 | a run that gets through recovers every stale turn; one that meets the event quota leaves a crash point |
| CrashRecovery.TurnIsClosed | agent/database.py:884-984 | recovering a turn leaves none of its calls open |
| CrashRecovery.Restartable | agent/database.py:864-1015 | the second phase, stopped after any commit and run again, leaves the turns and the log of one uninterrupted run, up to ids and times |
| CrashRecovery.CrashesLeaveNoTrace | agent/database.py:864-1015 | the same after any number of crashed attempts at the second phase |
| RecoveryRestart.RecoverInterrupted | agent/database.py:815-1015 | the tasks of dead workers fail in the first transaction, the stale turns are selected from its result and recovered commit by commit |
| RecoveryRestart.RestartableExactly | agent/database.py:815-1015 | the whole, stopped any number of times anywhere, between its phases too, leaves the tasks, turns and log of one undisturbed pass, up to ids and times, if and only if no lease that protected a task at the start has run out by the end |
| RecoveryRestart.LapseShows | agent/database.py:821-831 | a lease that runs out in between shows in the task table: the later pass takes the claim away |
| RecoveryOutcome.TurnAdditions | agent/database.py:884-984 | recovering a turn adds, for each call that was open and in their order, a result that says it was lost, and then the event that ends the turn as interrupted |
| RecoveryOutcome.RecoveredRowIs | agent/database.py:884-1000 | the row of a recovered turn says interrupted, now, with the reason, and is otherwise as it was |
| RecoveryOutcome.ReportedExactly | agent/database.py:986-1014 | a recovered turn is reported for another attempt exactly when it has a task that nobody stopped and that was recovered less than three times |
| RecoveryOutcome.OpenExactly | agent/database.py:899-919 | a call is open exactly when no result of its id stands behind its first event in the turn |
| RecoveryOutcome.EndsInterrupted | agent/database.py:864-1015 | after recovery the highest-numbered terminal event of each recovered turn says it was interrupted, when no earlier attempt was made |
| RecoveryOutcome.ReconciledByKind | agent/database.py:53-98 | reconciliation leaves a turn with the status that the kind of its highest-numbered terminal event names, and its task with the same, or failed for interrupted |
| RecoveryOutcome.RecoveredTurnsStayInterrupted | agent/database.py:815-1015 | so the next reconciliation leaves each recovered turn interrupted, and its task failed |
| RecoveryOutcome.CrashesEndInterrupted | agent/database.py:815-1015 | and likewise after any number of crashed attempts |
| RecoveryOutcome.NothingStaleIsLeft | agent/database.py:864-1015 | after recovery every turn that says it runs has a task that is active, and turns that were not stale are as they were |
| RecoveryOutcome.LostCallIsTold | agent/database.py:933-970 | in the rebuilt history the model reads of a call lost in the crash that it was not completed |
| CrashRecovery.ReportSurvivesExactly | agent/database.py:986-1015 | the second run reports all recoverable turns if and only if none of those finished before the crash was recoverable |
| CrashRecovery.WritesKeepHonest | agent/conversation_events.py:875-981 | in every log written from nothing, a recovered result's key stands behind the call it closes, because no other write uses such keys |
| CrashRecovery.RunClosesAll | agent/database.py:884-984 | after a run no recovered turn has an open call |
| RecoveredContext.TurnEventsInOrder | agent/conversation_events.py:785-804 | in a sound log the events of a turn read in log order |
| RecoveredContext.SelectionKeepsLater | agent/conversation_context.py:14-72 | the selection keeps, behind each call it selects, every later result |
| RecoveredContext.RecoveredCallsArePaired | agent/conversation_context.py:452-469 | after recovery each selected call of a recovered turn has its result in the selection, so rebuilding drops none |
| RecoveredContext.OtherKeyIsMissed | agent/database.py:899-912 | a call that names its id under the key id is seen by the context but not by recovery |
| Steers.AdmitTaskMessage | agent/database.py:1659-1699 | a message is admitted once per key; every refusal, conflict or repetition leaves all tables as they were |
| Steers.ConsumeSteers | agent/conversation_events.py:704-734 | all pending steers enter the log and are consumed, or, when an append fails, none is |
| Steers.SteersExactlyOnce | agent/conversation_events.py:704-734 | in every run the steers of a task in the log are exactly its consumed non-empty steers, in admission order |
| Steers.ReceiptsIncrease | agent/conversation_events.py:716-719 | their numbers grow, so none is delivered twice |
| Steers.RetryAddsNothing | agent/database.py:1659-1667 | retrying a key never creates a message |
| SteerDelivery.AdmitsExactly | agent/database.py:1659-1699 | a used key is known with the type and payload it came with and a conflict with others; a new one is refused exactly for a task that ended or is stopping, or a pause that can not be, and else makes an unconsumed message numbered above all others |
| SteerDelivery.AdmittedPause | agent/database.py:1691-1698 | admitting a pause parks a queued task and asks a running one, and changes no other row |
| SteerDelivery.DeliveryAdds | agent/conversation_events.py:704-734 | the texts that a delivery returns are those of the events it adds, one for each pending steer with a text, in order |
| SteerDelivery.SteersAreRead | agent/conversation_events.py:704-734 | in every run a delivery makes each waiting steer of the task that carries a text words of the user in the turn's log, adds nothing else, and consumes the steers of this task alone |
| Reconcile.ReconcileLifecycle | agent/database.py:51-149 | the three tables after reconciliation |
| Reconcile.EventsDecide | agent/database.py:51-149 | each turn with a terminal event agrees with its highest-numbered one, and so does its task, failed standing for interrupted |
| Reconcile.FirstRowIsLast | agent/database.py:62-79 | the first row read for a turn is its highest-numbered terminal event |
| Reconcile.ReconcilingOnlyAdds | agent/database.py:100-140 | no event is changed or renumbered and the numbering stays dense |
| Reconcile.ReconcilingTwice | agent/database.py:51-149 | a second application changes no turn, no task and no event |
| Reconcile.RowsAfterwards | agent/database.py:80-99 | the rows of a turn and its task are as they were without a terminal event or when they show its status already, and else are brought to it, lose their claim and keep the time at which they ended |
| RecoveryChain.RecoveryStateOf | agent/database.py:1289-1321 | the oldest child, and whether a first one may be made |
| RecoveryChain.LastAttempt | agent/jobs.py:763-766 | the greatest attempt of an origin |
| RecoveryChain.EnqueueRecovery | agent/jobs.py:731-812 | the existing continuation, or task, turn, prompt, note and stored context with the guarded calls in one transaction, or nothing |
| RecoveryChain.AlwaysLinear | agent/jobs.py:731-812 | in every run of submissions, recoveries and queue steps whose lifecycle writes come from holders, the tasks of each origin form one chain with attempts 1..n, all but the last failed or interrupted |
| RecoveryChain.StepKeepsIdentity | agent/database.py:1374-1805 | no step of the queue changes what identifies a task, and none by a holder takes it out of a terminal status |
| RecoveryChain.AttemptIsLength | agent/jobs.py:763-766 | the last attempt of an origin is the length of its chain less one |
| RecoveryChain.OneChild | agent/database.py:1303-1307 | in every run each task has at most one child |
| RecoveryChain.RecoveringAgain | agent/jobs.py:746-750 | recovering a task with a child answers with that same child |
| RecoveryChain.GuardNeverRefuses | agent/database.py:1308-1321 | the active-branch guard never refuses a task without a child that is eligible itself |
| RecoveryChain.RecoveryReplayGuard | agent/jobs.py:843-871 | each call of the turn whose result says it was interrupted is listed once, as it was last made, by id, and no other |
| RecoveryChain.OpenCallsAreGuarded | agent/jobs.py:843-871 | after crash recovery every call that was open is in the guard of its turn |
| RecoveryTerms.RecoverableExactly | agent/database.py:1289-1321 | a task may be recovered exactly when it failed or was interrupted with its turn, nobody stopped it, nothing continues it, and no other task of its origin is at work or done |
| RecoveryTerms.RecoveryAnswers | agent/jobs.py:744-812 | a recovery answers with the oldest continuation, or makes one exactly when the task is recoverable: a queued, unclaimed and unflagged task of the same user, project and conversation, under the project's lock, one attempt further |
| RecoveryTerms.RecoveryIsTold | agent/jobs.py:788-809 | the new turn's log opens with the user's request to recover and the note on what became of the old turn |
| RecoveryTerms.ContextIsStored | agent/jobs.py:769-777 | the stored context holds the inherited choices, what is recovered and the guarded calls, and nothing else |
| RecoveryTerms.GuardedExactly | agent/jobs.py:843-871 | a call is guarded exactly when the turn made it and holds a result that says it was interrupted, with the name and the input it was last made with |
| Checkpoints.BuildStructuredState | agent/conversation_summary.py:321-431 | the facts of the events, each once |
| Checkpoints.ValidateStructuredState | agent/conversation_summary.py:434-467 | no problem is found exactly when every fact has a known source within the coverage and asks for no unknown call |
| Checkpoints.BuiltStateIsValid | agent/conversation_summary.py:321-467 | the state built from events passes validation against any source that holds them and any coverage that reaches them |
| Checkpoints.UnforcedAdvances | agent/conversation_summary.py:62-97 | a checkpoint that was not forced covers strictly more than every standing one |
| Checkpoints.SameKeyNoLongerStands | agent/conversation_summary.py:148-172 | an older event under the key of an unforced checkpoint no longer stands |
| Checkpoints.RepairInvalidCheckpoints | agent/conversation_summary.py:266-314 | only corrupt stored checkpoints are invalidated, each of them is, and nothing else is written |
| Checkpoints.OwnCheckpointNeverCorrupt | agent/conversation_summary.py:266-314 | a checkpoint made by this code is never found corrupt later, however the log has grown |
| Checkpoints.SummaryIsNotBlank | agent/conversation_summary.py:470-500 | the title keeps every formatted summary from reading as blank, so the empty check never rejects |
| Checkpoints.CreateSemanticCheckpoint | agent/conversation_summary.py:29-172 | nothing is written without a plan; otherwise repairs and then the checkpoint of the plan or, for an empty or too long summary, a rejection; the answer is the event under the key of the coverage, new unless the key was taken |
| Checkpoints.KeepsTheNewest | agent/conversation_summary.py:44-52 | a plan keeps as many turns as asked for, at least one, and exactly the newest: each of them first shows behind the first event of every turn that is not kept |
| Checkpoints.SummarisesTheRest | agent/conversation_summary.py:53-62 | it summarises exactly the events of the other turns, checkpoints apart, and covers the highest-numbered one |
| Checkpoints.KeptStandBehind | agent/conversation_summary.py:44-62 | when turns do not interleave, every kept event stands behind every event of a turn that is not kept |
| CheckpointFacts.DueExactly | agent/conversation_summary.py:44-97 | a summary is due exactly when there are more turns than the kept ones, something to summarise, and the attempt is forced or what no checkpoint covers yet has reached a threshold |
| CheckpointFacts.StateSummarises | agent/conversation_summary.py:321-431 | the state holds what the events offer, nothing else, and each of it once, from the first event that offers it |
| CheckpointFacts.FactsAreOffered | agent/conversation_summary.py:345-430 | what each kind of event offers, by category, text and further fields |
| CheckpointFacts.SqueezedExactly | agent/conversation_summary.py:335-343 | cleaning a text keeps its words and puts one space between them |
| CheckpointFacts.ProblemsExactly | agent/conversation_summary.py:434-467 | validation reports exactly what is wrong with some fact: a source that is not there, one beyond the coverage, a request for a call nobody made |
| CheckpointFacts.CorruptExactly | agent/conversation_summary.py:266-314 | repair takes a checkpoint for corrupt exactly when it stands and something is wrong with its facts against the log it covers |
| CheckpointFacts.SummaryReads | agent/conversation_summary.py:470-497 | the summary lists the facts of each category under its heading |
| CheckpointFacts.FactIsShown | agent/conversation_summary.py:489-496 | each fact stands there on a line with the number of its event |
| CheckpointFacts.CheckpointSays | agent/conversation_summary.py:148-172 | the stored checkpoint is visible and valid, with this summary and the coverage of its plan |
| CheckpointRuns.CreatedIsPicked | agent/conversation_summary.py:131-172 | the checkpoint an attempt appended is the one selection then starts from |
| CheckpointRuns.LosesNothingExactly | agent/conversation_context.py:14-72 | for any log, whatever follows the checkpoint that selection picks, each event a context may show is summarised or selected if and only if no turn kept when it was made had such an event at or below the coverage |
| CheckpointRuns.SelectedOnceInOrder | agent/conversation_context.py:36-72 | what is selected behind that checkpoint comes once, in order, and is not summarised as well |
| CheckpointRuns.InterleavedEventIsLost | agent/conversation_summary.py:49-63 | an event of a kept turn at or below the coverage is neither summarised nor selected |
| CheckpointRuns.ContiguousLosesNothing | agent/conversation_summary.py:44-62 | a checkpoint made when no turns interleave loses nothing |
| CheckpointRuns.AttemptIsStep | agent/conversation_summary.py:29-172 | what an attempt writes to a sound database is a step of the runs below |
| CheckpointRuns.EveryLogOwn | agent/conversation_summary.py:266-314 | in every run of attempts among other writes all checkpoints are the attempts' own and stand, and repair finds nothing to do |
| CheckpointRuns.CoverageStrictlyIncreases | agent/conversation_summary.py:62-97 | in every run an unforced checkpoint covers strictly more than each one made before it |
| CheckpointRuns.EveryContextLosesNothingExactly | agent/conversation_context.py:14-72 | in every reachable log the context starts from the last checkpoint and loses nothing if and only if no turn kept then had interleaved |
| CheckpointRuns.NothingToLose | agent/conversation_context.py:14-72 | without a checkpoint everything a context may show is selected |
| Evidence.TurnEvidence.constructor | agent/jobs.py:1034-1064 | a job starts with what its turn has recorded |
| Evidence.TurnEvidence.ApplyEvidence | agent/jobs.py:1042-1061 | an event is counted once |
| Evidence.TurnEvidence.OnEvent | agent/jobs.py:1169-1305 | an event and the summary it brings along are made durable first and counted only then; a failed write counts nothing |
| Evidence.CountedSameExactly | agent/jobs.py:1042-1061 | an event adds nothing exactly when it is no edit and no decision, carries no tokens and has no news about the build |
| Evidence.EmitKeepsStepExactly | agent/jobs.py:1134-1305 | an emission keeps memory and log in step exactly when the event its key leads to is this turn's, was counted before or adds nothing |
| Evidence.TotalsFollowTheLogExactly | agent/jobs.py:1034-1064 | in every run, wherever it was stopped and whatever was emitted twice, the totals in memory are at all times those of the turn's durable events if and only if every emission was harmless in that sense |
| Evidence.OwnKeysAreHarmless | agent/jobs.py:1197-1213 | a turn whose keys lead to no other turn's events only makes harmless emissions |
| Evidence.PausesChangeNothing | agent/jobs.py:1034-1064 | two runs that leave the same durable log end with the same totals, however often each was paused |
| Evidence.ReusedIdMiscounts | agent/jobs.py:1207-1213 | emitting the result of a call id that another turn used writes nothing and counts that turn's edit, until a pause and a resume set it right |
| EvidenceTotals.TotalsAreTallied | agent/jobs.py:1042-1061 | the totals are the number of successful results of the two editing tools, whether there was a build and how the last one ended, the decisions in order, and the sums of the tokens |
| EvidenceTotals.ReportIsStored | agent/jobs.py:1134-1240 | a report under a key of its own adds one event of the turn, and a build result that brings a summary adds that as a second one |
| EvidenceTotals.CallForms | agent/jobs.py:1197-1247 | calls and results are stored for the model to see, malformed calls are not, each once for its id |
| EvidenceTotals.ReplyForms | agent/jobs.py:1186-1282 | replies are stored for the model to see and their usage is not, under the message they belong to |
| EvidenceTotals.ApprovalForms | agent/jobs.py:1248-1271 | an approval is stored when it is asked for and when it is decided |
| EvidenceTotals.OtherForms | agent/jobs.py:1272-1288 | switches of provider or model are stored each time, the start and the end of a child task once, as notes that are not shown |
| EvidenceTotals.NoteForm | agent/jobs.py:1289-1297 | a skill's note is stored once per turn, kind and skill |
| EvidenceTotals.NamelessReports | agent/jobs.py:1186-1272 | a reply or a decision without its ids is refused, a call or result without one is not stored |
| EvidenceTotals.OthersAreNotStored | agent/jobs.py:1185-1298 | no other kind of report enters the log |
| LegacyTurns.NormalizeLegacyTurns | agent/database.py:624-662 | malformed entries are skipped and the others keep their index |
| LegacyTurns.ImportLegacyTurns | agent/database.py:664-804 | a conversation without events gets those of its legacy turns, any other stays as it is |
| LegacyTurns.ImportIsDense | agent/database.py:684-804 | the imported log is numbered from 1 without gaps |
| LegacyTurns.ProjectLegacyTurns | agent/conversation_events.py:806-873 | each turn's last prompt, its last final or else last answer, and its last changes, by time and row |
| LegacyTurns.RoundTrip | agent/database.py:594-804 | importing and projecting gives back each turn, redacted, as a stable sort by timestamp |
| LegacyTurns.EntriesAreRead | agent/database.py:624-662 | every entry that is an object becomes one turn, read field by field, and nothing else becomes one |
| LegacyTurns.ImportTells | agent/database.py:684-804 | the imported log tells the old turns one after the other: the prompt, the final answer, the changes if there were any, and a successful end |
| LegacyTurns.ShownPrefersFinal | agent/conversation_events.py:806-873 | a projected turn answers with its last final answer, or else with its last one |
| LegacyTurns.SecondMigrationAddsNothing | agent/database.py:606-608 | a later migration adds nothing, whatever joined the conversation since |
| RepoIndex.Index.RemoveMissing | agent/repo_index.py:267-272 | missing files lose their file row and nothing else |
| RepoIndex.Index.DeleteFileIndex | agent/repo_index.py:274-282 | a path loses its file, symbol and reference rows and its first text row |
| RepoIndex.Index.IndexFile | agent/repo_index.py:284-349 | the rows of a decodable file replace the old ones; an undecodable one leaves them |
| RepoIndex.Index.Rebuild | agent/repo_index.py:351-386 | the index built from nothing |
| RepoIndex.Index.Update | agent/repo_index.py:388-427 | the index after indexing the files whose hash changed |
| RepoIndex.UpdateAgreesWithRebuild | agent/repo_index.py:351-427 | one update agrees with a rebuild about every decodable file that is present |
| RepoIndex.IncrementalRefinesRebuild | agent/repo_index.py:267-427 | after any history of edits, updates and rebuilds the index agrees with a rebuild about every decodable file that is present |
| RepoIndex.AbsentAgreesExactly | agent/repo_index.py:267-272 | about an absent path they agree exactly when no symbol, reference or text row of it was there |
| Limiter.SlidingWindowLimiter.Check | agent/governance.py:19-28 | the queue of the key is pruned and the call accepted exactly below the limit; other keys are untouched |
| Limiter.QueueRefinesHistory | agent/governance.py:14-28 | with a non-decreasing clock the queue is exactly the accepted calls of the window |
| Limiter.RejectedExactly | agent/governance.py:24-27 | a call is rejected exactly when the full history already has the limit's worth of calls in its window |
| Limiter.AtMostPerWindow | agent/governance.py:14-28 | at most the limit's worth of accepted calls falls into any closed window of that length |

## Left out

- Routes, authentication, configuration, tool execution, provider calls and streaming: foreign calls. The loop takes their outcomes as inputs.
- SQLite, its schema and its migrations: each transaction is one step. Unique indexes are modelled where an operation relies on them.
- Columns that no property needs: provider, model, role, trace ids, result texts, attachments and the task event and outbox tables.
- Submission of a new task by request key and its quota of active tasks: one lookup before an insert, which would add only easy members.
- Permission profiles, honesty heuristics, redaction patterns, source parsing and cost tables: abstract functions or absent.
- Build receipts inside crash recovery, file checkpoints, the fallback chain of models and the final answer of a run: not part of this model.
- Model-written summaries: only the deterministic state is built; a stored state is read back by an arbitrary function.
- QueueRuns.SingleWriter: reconciliation is not a step of the queue runs, because it overwrites task statuses from the log; tasks of other kinds are assumed to enter through the queue.
- QueueRuns.TerminalIsFinal: assumes lifecycle writes by holders; the store itself does not look at the status before them, and TerminalIsFinalExactly says what finality amounts to without that assumption.
- TaskQueue.PauseTask: the payload of the stored pause and resume messages is the empty object.
- CrashRecovery.CloseTurn: reads the events of a turn in log order; TurnEventsInOrder shows that this is the order by number the query asks for.
- CrashRecovery.Restartable: only the second phase, over an unchanged task table; RestartableExactly is about both phases. In both no one else writes to the turns.
- RecoveredContext.RecoveredCallsArePaired: a call id names one call of the conversation, as the keys of the worker ensure.
- Reconcile.EventsDecide: assumes that terminal events carry the task of their turn, as all their writers make them, and that a task belongs to one turn, as the unique column ensures.
- RecoveryChain.AlwaysLinear: assumes lifecycle writes by holders, as TerminalIsFinal does.
- RecoveryChain.EnqueueRecovery: the context of the source task and the model selection are given values; the stored context is a result of the method, as task rows here have no such column.
- Checkpoints.BuildStructuredState: the choice of lines that read like constraints, the text of a call's input and the names of event kinds are arbitrary functions; an entry of a list of changes that is neither a text nor an object makes the original raise, and the model skips it.
- Checkpoints.CreateSemanticCheckpoint: the stored form of the state is an arbitrary function; of the payload only the fields that selection and repair read are kept, and the rejection of an invalid state is not a branch, as BuiltStateIsValid shows it is never taken.
- CheckpointRuns.CoverageStrictlyIncreases: checkpoints and invalidations come from attempts only, a stored state reads back as it was written, and event ids hold no colon.
- Evidence.TotalsFollowTheLogExactly: while a worker runs, no one else writes evidence of its turn.
- Evidence.TurnEvidence.OnEvent: the receipt and the report of a build are left out.
- LegacyTurns.ImportTells: message ids inside imported payloads and the columns of imported turns are not modelled.
- LegacyTurns.RoundTrip: redaction acts on the texts and the file list as given functions; identifiers of turns are assumed injective in the index.
- RepoIndex.IncrementalRefinesRebuild: collecting, ignoring and measuring files is left out; a pass takes the list of files it found, and a failed parse is an extraction without rows.
- AgentLoop.RunOpenAi: the texts the run returns are not modelled, and a reply that raises ends the run, since falling back to another model repeats the same call.
- PausedTurns.CallsWithinTotalExactly: a call of the loop counts once, however many models of its chain are tried for it.
- PausedTurns.EveryRequestFromLogProper: assumes unmixed answers in the rebuilt history, which CompactsSafelyExactly shows compaction to need.
- AgentLoop.OneMarkerPerRequest: assumes that no prompt, steer or nudge is itself the marker text.
- Steers.SteersExactlyOnce: steers are consumed only by delivery; messages of other kinds are consumed one by one.
- Steers.AdmitTaskMessage: payloads are stored as given, so the request hash compares kind and payload.
- Limiter.SlidingWindowLimiter.Check: the lock around it is left out; a check is one step.
