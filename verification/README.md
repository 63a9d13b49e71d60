# Verified models of Yomi's agent kernel and front ends

Dafny models of the parts of Yomi that repair conversation histories, run an agent's turns, watch for
runaway tool loops, lay out tables, share event pumps between windows and keep small pieces of state,
with proofs of what those parts promise. `dafny verify dfyconfig.toml` checks everything.

| files | part |
|---|---|
| `Messages`, `CloseOut`, `CloseOutLaws`, `Conservation`, `ExactlyOnce`, `Respawn`, `RespawnLaws`, `ClosedAgain`, `HistoryRepair` | closing dangling tool batches of a loaded history, once, twice, and over any number of respawns on the append-only log |
| `SegmentView` | what close-out makes of a history, segment by segment, and the histories it leaves alone |
| `CallLedger`, `RepeatedIds`, `SharedIds` | the same log when calls share an id: its growth, what close-out loses, and that every call is answered |
| `Sanitize`, `MessageBuffer` | the in-place sanitizer and the two repair passes as they run |
| `TurnProtocol`, `CancelToken`, `TurnCycle` | the agent's main loop, its turns, stop reasons, cancellation, retries and limits |
| `LoopDetect`, `LoopMeaning` | the loop sentinel |
| `TableWrap`, `TableBreak`, `TableGreedy`, `TableWords`, `TableText` | text wrapping |
| `TableRender`, `TableContent`, `TableWhole`, `TableLayout` | table drawing |
| `PumpLog`, `EventPumps` | subscribe, unsubscribe and pump cleanup under all interleavings |
| `InputHistory`, `PetRuntime`, `DottedKey`, `DeltaTracker`, `ChunkText` | helpers with state |
| `Sequences` | shared facts about sequences |

Histories are sequences of messages; a closed-out history is described by its *sources*, saying of each
message which log position it came from or which call it was made up for. The agent is a class whose
methods are the loop's arms; hooks, `Stopped` events and notes of reasons go into a ghost trace. What other
tasks, providers and tools do in one round of the loop is a parameter of that round, so a statement about
`StartLoop` holds for every behaviour of theirs. The pumps, the windows and the kernel are interleaved one
critical section at a time by an arbitrary schedule.

## Where code and documentation differ

- The comment on `close_dangling_tool_batches` calls it idempotent across respawns. For every history
  the log stops growing after the first respawn or grows for ever, by the same number of messages each time
  (`LogGrowsSteadily`). It stops exactly when, for each id, every call in a closed segment has a result in
  that segment, or all but one do and the first result in the log for the id, if there is one, is to
  spare (`SecondReadQuiet`, `LogStops`). Distinct ids are enough for that (`SecondReadSynthesizesNothing`), and so
  is a result in place for every call (`AnsweredIdsStayQuiet` is such a log); the same call made twice and
  never answered is a log that grows for ever (`RepeatedIdsKeepGrowing`).
- Even with distinct ids a result that stands ahead of its batch can make the second read order messages
  differently (`SecondReadSameHistory` says exactly when, `EarlyResultReorders` is such a log), and closing
  out the output again, or once, can lose a result that stands ahead of its batch (`ClosedAgainSame` with
  `TwoEarlyResults`, `ClosedConserves` with `EarlyResultLost`). None of this happens to logs in recording
  order (`RecordedLogsRepair`). Whether or not ids are distinct, a message is lost exactly when it is the
  first result for its id, ahead of every call for it, and each of them has another in its own segment
  (`PlacedOnce`, `ConservedExactly`).
- `process_rewind` says that it cancels a turn in flight. Inputs are taken only when idle, and no turn is
  open then, so that branch is never reached from the loop (`IdleArm` keeps the trace free of turn ends).
- A user message, a steering message or a continuation taken from the mailbox in an Idle round reaches the
  Streaming arm in the next round if and only if `max_iterations` is not 1: taking it already uses up one
  iteration (`TakeAndStream`). With a limit of 1 it is reported as out of iterations and no turn is started
  (`LimitOne`).
- The comment in `start_turn_if_needed` calls dropping a pending reason an insurance. A round drops one
  exactly when it starts a turn with a reason pending (`Iterate`), and no run does as long as compactions
  are interrupted by a cancelled token only and a tool batch that has noted a reason does not lead back to
  streaming (`StartLoop`). The protocol itself allows it (`PendingDropped`).
- A window that was told that it subscribed, and has not unsubscribed, need not follow a live pump. It does
  exactly when the pump last entered for it has not stopped and it was not forgotten in the cleanup of one
  before (`Interleave`, `FollowsIff`), hence when no pump entered for its session since has stopped
  (`FollowsUndisturbed`) and on every schedule without ends and crashes. The failures, each from the empty
  state: it joins a pump that waits to clean up (`BothGone`); the stream ends, or the pump crashes, before it
  is entered (`EndedBeforeCommit`, `CrashedBeforeCommit`); a pump that has stopped takes the place of a live
  one, because the commit never looks at its own handle (`StoppedReplacesLive`). A stopped pump does no harm
  when another is entered before it has cleaned up (`Rescued`).
- In a complete table, cells of a row beyond its columns are wrapped, and so add to the height of the row, but
  are not drawn: all ink is drawn if and only if there is none in such cells (`TableShowsAll`, with
  `SecondCellLost`). A growing table has a column for every cell and draws them all (`GrowingShowsAll`).
- `reconcile_running_sessions` announces a change whenever a running session is reported, even if nothing
  changed, because running marks are cleared before they are compared (`AnnouncedUnchanged`, with
  `AnnouncedAgain`).

## Model

| member | source | states |
|---|---|---|
| MessageBuffer.MessageBuffer.CloseDanglingToolBatches | crates/kernel/src/agent/message_buffer.rs:125-223 | the two passes, with their open batch and consumed set, produce the closed-out history and the synthesized results |
| MessageBuffer.MessageBuffer.CloseOpenBatch | crates/kernel/src/agent/message_buffer.rs:349-375 | every open call gets its unused result from elsewhere in the log, or a cancelled one |
| MessageBuffer.MessageBuffer.IndexResults | crates/kernel/src/agent/message_buffer.rs:132-153 | the index maps each id of a batch to the first result for it, and nothing else |
| MessageBuffer.MessageBuffer.Sanitize | crates/kernel/src/agent/message_buffer.rs:238-339 | the cursor scan leaves the sanitized history and looks at no more than 2n messages |
| CloseOut.NonToolOrderKept | crates/kernel/src/agent/message_buffer.rs:162-223 | for every history, messages other than results keep their order and none is lost |
| CloseOut.SourcesSettle | crates/kernel/src/agent/message_buffer.rs:162-223 | with distinct call ids the consumed set changes nothing |
| SegmentView.ClosedBySegments | crates/kernel/src/agent/message_buffer.rs:162-223 | with distinct call ids, segment by segment: messages stay where they are but for first results of other batches' calls, and behind them, in call order, stand the results of the calls left unanswered |
| SegmentView.UnchangedExactly | crates/kernel/src/agent/message_buffer.rs:102-121 | a history is left as it is if and only if every call has a result in its own segment and none has one ahead of its batch besides |
| CloseOutLaws.EveryCallAnswered | crates/kernel/src/agent/message_buffer.rs:102-105 | with distinct call ids every call of every batch has a result before the next chain-breaking message |
| ExactlyOnce.ExactlyOneEach | crates/kernel/src/agent/message_buffer.rs:162-223 | with distinct call ids every call has exactly one result before the next chain-breaking message, if and only if none had two there in the log |
| ExactlyOnce.SingleResultsStaySingle | crates/kernel/src/agent/message_buffer.rs:102-105 | with one result to a call in the log, there is one to each call after it, in its own segment |
| CloseOutLaws.SanitizeKeepsBatches | crates/kernel/src/agent/message_buffer.rs:107-112 | with no stray or repeated result, sanitizing a closed-out history drops only assistant messages without content and call list |
| Conservation.ClosedConserves | crates/kernel/src/agent/message_buffer.rs:125-223 | the output is a permutation of the log plus the synthesized results if and only if no call has its result ahead of its batch and another inside it |
| Respawn.SynthIds | crates/kernel/src/agent/message_buffer.rs:349-375 | exactly the calls without a result anywhere in the log are synthesized |
| Respawn.SynthDistinct | crates/kernel/src/agent/message_buffer.rs:349-375 | and none of them twice |
| RespawnLaws.SecondReadSynthesizesNothing | crates/kernel/src/agent/message_buffer.rs:113-121 | a respawn that reads the log with the earlier respawn's additions synthesizes nothing |
| RespawnLaws.SecondReadSameHistory | crates/kernel/src/agent/message_buffer.rs:113-121 | it sees the same history if and only if, among the calls open at the end, none with a result precedes one without |
| RespawnLaws.LogSettles | crates/kernel/src/kernel/conductor.rs:736-748 | after any number of respawns the log is the one after the first |
| ClosedAgain.ClosedAgainSynthesizesNothing | crates/kernel/src/agent/message_buffer.rs:121 | closing out a closed-out history synthesizes nothing |
| ClosedAgain.ClosedAgainSame | crates/kernel/src/agent/message_buffer.rs:121 | and changes nothing if and only if no call has two results ahead of its batch |
| HistoryRepair.OpenAtEndIs | crates/kernel/src/agent/message_buffer.rs:162-223 | the calls open at the end are the unanswered ones of the last chain-breaking message |
| HistoryRepair.RecordedLogsRepair | crates/kernel/src/agent/message_buffer.rs:102-121 | when no result stands ahead of its batch: nothing lost, close-out and respawn idempotent |
| HistoryRepair.SingleResultsMoved | crates/kernel/src/agent/message_buffer.rs:113-121 | with one result to a call, wherever it stands: nothing lost, close-out idempotent |
| HistoryRepair.EarlyResultReorders | crates/kernel/src/agent/message_buffer.rs:113-121 | a log whose second read orders messages differently |
| HistoryRepair.TwoEarlyResults | crates/kernel/src/agent/message_buffer.rs:121 | a log whose second close-out loses a result |
| HistoryRepair.EarlyResultLost | crates/kernel/src/agent/message_buffer.rs:125-223 | a log whose close-out loses a result |
| CallLedger.MadeIs | crates/kernel/src/agent/message_buffer.rs:162-223 | for every history, how many results are synthesized for an id is what its open calls and its first result leave to make up |
| CallLedger.SecondRead | crates/kernel/src/agent/message_buffer.rs:113-121 | the second read makes up for an id what the first made up before the log's last calls were closed, less one if no result was there |
| RepeatedIds.SecondReadQuiet | crates/kernel/src/agent/message_buffer.rs:113-121 | for every history, the second read synthesizes nothing if and only if no id has two calls without a result in their own closed segments, nor one that its first result cannot serve |
| RepeatedIds.LogGrowsSteadily | crates/kernel/src/agent/message_buffer.rs:113-119 | every respawn after the first appends as much as the second |
| RepeatedIds.LogStops | crates/kernel/src/agent/message_buffer.rs:113-121 | so the log stops growing after the first respawn under that condition, and otherwise never |
| RepeatedIds.RepeatedIdsKeepGrowing | crates/kernel/src/agent/message_buffer.rs:113-119 | a log that has 5 + n messages after n respawns |
| RepeatedIds.AnsweredIdsStayQuiet | crates/kernel/src/agent/message_buffer.rs:113-121 | a log that repeats an id and does not grow |
| SharedIds.PlacedOnce | crates/kernel/src/agent/message_buffer.rs:162-223 | for every history, each message of the log is in the output once, but for the first result of an id that stands ahead of all calls for it when each has enough results in its own segment |
| SharedIds.ConservedExactly | crates/kernel/src/agent/message_buffer.rs:125-223 | for every history, the output is a permutation of the log plus the synthesized results if and only if there is no such result |
| SharedIds.EveryCallHasItsOwn | crates/kernel/src/agent/message_buffer.rs:102-105 | for every history, each batch is followed in its own segment by as many results for each id as it has calls |
| Sanitize.SanitizedExactly | crates/kernel/src/agent/message_buffer.rs:225-339 | removed are exactly the empty assistants without call list, the batches with an incomplete group and the results outside complete groups |
| Sanitize.SanitizeIdempotent | crates/kernel/src/agent/message_buffer.rs:225-339 | a second run changes nothing |
| Sanitize.SanitizedWellFormed | crates/kernel/src/agent/message_buffer.rs:225-232 | in the output every batch is answered and every result belongs to one |
| Sanitize.InternalTransparent | crates/kernel/src/agent/message_buffer.rs:88-100 | hiding Internal messages before or after sanitizing gives the provider the same view |
| TurnProtocol.Alternation | crates/kernel/src/agent/agent.rs:587-598 | turn starts and ends alternate, beginning with a start |
| TurnProtocol.NothingInsideATurn | crates/kernel/src/agent/agent.rs:535-539 | no `Stopped` and no second start while a turn is open |
| TurnProtocol.WoundDownTurnReported | crates/kernel/src/agent/agent.rs:540-567 | the end of a turn is followed at once by one `Stopped` with the first reason noted since its start, or an internal failure |
| TurnProtocol.ShutdownReported | crates/kernel/src/agent/agent.rs:670-683 | a turn whose first note is a shutdown is reported as shut down, whatever is noted later |
| TurnProtocol.ProtocolExact | crates/kernel/src/agent/agent.rs:535-598 | the automaton accepts a trace if and only if each event in it is lawful after those before: which ending a hook may be told, what may be reported, and when |
| TurnProtocol.Unlawful | crates/kernel/src/agent/agent.rs:540-567 | of a turn with one note and its report, exactly the traces that announce and report that note; which ending the hook is told for each reason |
| TurnProtocol.PendingDropped | crates/kernel/src/agent/agent.rs:808-810 | a reason noted ahead of a turn is dropped by its start and never reported |
| TurnCycle.Agent.StartLoop | crates/kernel/src/agent/agent.rs:273-459 | the rounds are run one after the other until one leaves, each leading from one moment to the next; every run keeps the protocol; each time the loop comes round, Idle means no open turn and no pending reason; leaving it leaves neither; no pending reason is dropped as long as interrupted compactions come with a cancelled token and tool batches that noted a reason do not lead back to streaming |
| TurnCycle.Agent.Iterate | crates/kernel/src/agent/agent.rs:287-453 | one round: a noted reason stays until the turn is reported with it; a first attempt that is answered leads to the state and reason its reply asks for; winding down takes one round and closes and reports; nothing is streamed once the iterations are used up, and MaxIterations is noted; a pending reason is dropped exactly when a turn starts with one pending |
| TurnCycle.Agent.TakeAndStream | crates/kernel/src/agent/agent.rs:290-308 | after a user, steering or continuation input was taken in an Idle round, the next reaches the Streaming arm if and only if the limit is not 1 |
| TurnCycle.Agent.LimitOne | crates/kernel/src/agent/agent.rs:290-308 | a new agent with a limit of 1 reports its first input as out of iterations, without a turn |
| TurnCycle.Agent.PlainTurn | crates/kernel/src/agent/agent.rs:273-459 | a user message answered plainly: the turn starts, is noted, announced and reported as completed, and the agent is idle |
| TurnCycle.RunBounded | crates/kernel/src/agent/agent.rs:290-308 | at most max_iterations Streaming rounds and max_iterations times (retries + 2) attempts between Idle rounds |
| TurnCycle.Agent.RunArm | crates/kernel/src/agent/agent.rs:311-396 | each state's arm keeps trace and fields in step, and counts Streaming rounds; an answered first attempt leads to the state and reason of its reply |
| TurnCycle.Agent.IdleArm | crates/kernel/src/agent/agent.rs:312-353 | the counter is reset; a pending cancel leaves the loop; no turn is started or ended |
| TurnCycle.Agent.FinishRound | crates/kernel/src/agent/agent.rs:398-453 | the loop is left on a shutdown error only; Idle at the bottom means everything was reported |
| TurnCycle.Agent.HandleError | crates/kernel/src/agent/agent.rs:398-447 | which reason is pending and which state follows for shutdown, cancellation and failure |
| TurnCycle.Agent.HandleCancel | crates/kernel/src/agent/agent.rs:464-476 | the shutdown mark decides the reason noted, is consumed, and an earlier reason stays |
| TurnCycle.Agent.FinishTurnWindDown | crates/kernel/src/agent/agent.rs:540-567 | the hook and the `Stopped` event emitted, in this order, and what is left behind |
| TurnCycle.Agent.CompleteTurnIfNeeded | crates/kernel/src/agent/agent.rs:574-585 | the net acts when Idle with something pending only, and then leaves nothing |
| TurnCycle.Agent.StartTurnIfNeeded | crates/kernel/src/agent/agent.rs:777-818 | a turn is opened, with a clean reason slot, when none is open and there is a message to anchor it to |
| TurnCycle.Agent.ProcessRewind | crates/kernel/src/agent/agent.rs:849-938 | an open turn ends as rewound and its reason is dropped |
| TurnCycle.Agent.HandleCompactionResult | crates/kernel/src/agent/agent.rs:1386-1448 | an interrupted compaction notes the shutdown and consumes the mark; other results note nothing |
| TurnCycle.Agent.TransitionAfterStreaming | crates/kernel/src/agent/agent.rs:1574-1648 | for each finish reason, with calls or without, the next state and the reason noted: tools run exactly after a completion with calls that says so, a truncated reply is continued once per user input |
| TurnCycle.Agent.HandleStreaming | crates/kernel/src/agent/agent.rs:1091-1195 | an attempt fails with the first of: no model, no request, a cancel before the stream is open, a refusal, a cancel before the reply is complete, a reply broken off; otherwise the state and the reason are those of its own reply; a cancelled token never yields a reply; a shutdown consumed by compaction is the reason noted |
| TurnCycle.Agent.HandleStreamingWithRetry | crates/kernel/src/agent/agent.rs:1654-1722 | it ends, after at most retries + 2 attempts; the errors met are those of the attempts in turn, the reply taken is that of the last; every error but the last was worth a retry (first overflow, or within the budget and retryable or the first), the last was not unless the recovery failed; a failure other than a cancellation has noted a reason |
| TurnCycle.Agent.RetryOrFail | crates/kernel/src/agent/agent.rs:1673-1718 | either the error is worth a retry and the measure goes down, or the loop gives up, with the error and in the context that fit |
| TurnCycle.Agent.StreamingArm | crates/kernel/src/agent/agent.rs:354-375 | the turn is open before anything is streamed |
| TurnCycle.Agent.HandleInput | crates/kernel/src/agent/agent.rs:961-1022 | which inputs start streaming, cancel, or renew the automatic continuation; which fail; what a compaction leaves noted |
| CancelToken.CancelToken.Run | crates/kernel/src/agent/cancel.rs:39-71 | over any uses, a take answers true exactly when a shutdown was the last to touch the attribution |
| CancelToken.AttributedOnce | crates/kernel/src/agent/cancel.rs:50-55 | there are never more such answers than shutdowns |
| LoopDetect.Detect | crates/kernel/src/agent/loop_detect.rs:75-119 | Break if and only if some call's print is in each of the last max(2, break_at) batches, with that number as streak; otherwise a warning if and only if one is in each of the last max(2, warn_at), with its streak; 0 switches the guard, or its warnings, off; the tool named makes such a call |
| LoopDetect.RecentBatches | crates/kernel/src/agent/loop_detect.rs:128-181 | the reverse scan finds the last `depth` batches of the turn with their results |
| LoopDetect.DepthSuffices | crates/kernel/src/agent/loop_detect.rs:126-129 | looking back over break_at batches changes neither level nor tool |
| LoopDetect.BreaksWhenRepeated | crates/kernel/src/agent/loop_detect.rs:9-17 | Break is given exactly when some call with its result is in each of the last break_at batches |
| LoopDetect.WorstIsGreatest | crates/kernel/src/agent/loop_detect.rs:55-72 | no call of the last batch deserves a greater signal than the one reported, by level, tool and streak |
| LoopDetect.GreatestNamed | crates/kernel/src/agent/loop_detect.rs:55-118 | among the calls that deserve the level reported, the tool named comes last in text order, with the longest streak of its calls |
| LoopDetect.WorstNamesACall | crates/kernel/src/agent/loop_detect.rs:91-118 | the tool and streak reported belong to one call of the last batch |
| LoopDetect.EarlierTurnsForgotten | crates/kernel/src/agent/loop_detect.rs:161-176 | nothing before the message that started the turn matters |
| LoopDetect.InjectedMessagesIgnored | crates/kernel/src/agent/loop_detect.rs:18-25 | turn-internal user messages, wherever they stand, change nothing |
| LoopDetect.NoRunawayLoop | crates/kernel/src/agent/loop_detect.rs:1-30 | when Break ends the turn, no call repeats with the same result in more than max(2, break_at) batches in a row |
| LoopMeaning.BreakMeans | crates/kernel/src/agent/loop_detect.rs:1-30 | with distinct call ids, and fingerprints that tell apart the calls of this history that have results of their own, Break is given exactly when the last break_at batches made the same call and each got the same result of its own |
| LoopMeaning.SignalMeans | crates/kernel/src/agent/loop_detect.rs:1-30 | under the same conditions: when `detect` breaks and when it warns, in terms of the calls made and their own results; the tool it names is that of a call so repeated |
| TableWrap.WrapTextLine | crates/tui/src/table.rs:50-133 | the loop over characters lays out the line's words one by one |
| TableWrap.BreakLongWord | crates/tui/src/table.rs:143-166 | the chunks make up the word, none is empty, and none but the last could take in the next character |
| TableWrap.ChunksConcat | crates/tui/src/table.rs:143-166 | the chunks of a word make up the word |
| TableBreak.ChunksFewest | crates/tui/src/table.rs:143-166 | no cutting of the word into pieces that fit has fewer of them |
| TableWords.WordsAre | crates/tui/src/table.rs:62-109 | the words of a line are the runs of characters between its blanks, and nothing else |
| TableWords.LongWordApart | crates/tui/src/table.rs:68-83 | a word too long for a line takes lines of its own, and the words before and after it are set apart |
| TableWords.FittingWords | crates/tui/src/table.rs:43-140 | words that fit are set in as few lines as they can be |
| TableWords.LineTakes | crates/tui/src/table.rs:111-135 | a line takes the lines of its words, and an empty one if it has none or ends in blanks behind a word too long |
| TableText.LinesAre | crates/tui/src/table.rs:50 | the lines of a cell are those that line feeds, with or without a carriage return, end |
| TableText.CellInLines | crates/tui/src/table.rs:43-140 | a cell takes the lines of its first line, then those of its second, and so on |
| TableWrap.WrapKeepsInk | crates/tui/src/table.rs:41-140 | wrapping keeps the sequence of characters that are not blank |
| TableWrap.WrapFits | crates/tui/src/table.rs:41-140 | every line fits, from a width of 2 on |
| TableGreedy.WrapIsMinimal | crates/tui/src/table.rs:43-140 | when every word fits, the lines are a setting of the words, and no setting has fewer |
| TableRender.WrapTextToWidth | crates/tui/src/table.rs:43-140 | a whole cell is wrapped line by line, and takes a line at least |
| TableRender.WrappedSound | crates/tui/src/table.rs:43-140 | for a whole cell: blanks aside nothing is lost or added, and every line fits |
| TableRender.FormatPads | crates/tui/src/table.rs:23-38 | alignment pads to the width exactly, with blanks |
| TableRender.FormatPlaces | crates/tui/src/table.rs:23-38 | where the content stands in the padded cell for each alignment |
| TableRender.FitsScreen | crates/tui/src/table.rs:305-317 | the table fits the screen when no column had to be kept at 3 |
| TableLayout.ScaledExactly | crates/tui/src/table.rs:305-317 | each column keeps its natural width, or gets its share of the room rounded down, or 3 |
| TableRender.Natural | crates/tui/src/table.rs:287-303 | the width of the widest cell of a column, or 3 |
| TableRender.RenderRow | crates/tui/src/table.rs:352-406 | the lines of a row, in both renderers |
| TableContent.RowShowsCell | crates/tui/src/table.rs:352-405 | every line drawn shows its piece of a column's cell at the display width where the column starts, and down the lines these pieces show all of the cell |
| TableContent.RowShowsAll | crates/tui/src/table.rs:366-376 | a row is drawn with all the ink of its cells if and only if those beyond the columns have none |
| TableWhole.TableShowsAll | crates/tui/src/table.rs:321-376 | a complete table's lines show each character as often as its cells, besides the frame, if and only if no row has ink beyond the columns |
| TableWhole.SecondCellLost | crates/tui/src/table.rs:366-376 | a table with one column that loses the second cell of a row |
| TableWhole.GrowingShowsAll | crates/tui/src/table.rs:539-714 | a growing table's lines always do |
| TableRender.RenderHorizontalBorder | crates/tui/src/table.rs:408-427 | the rule drawn, in both renderers |
| TableLayout.RuleLooks | crates/tui/src/table.rs:408-427 | corners at the ends, a junction between two columns, dashes elsewhere |
| TableLayout.Corners | crates/tui/src/table.rs:329-347 | the characters of the top, middle and bottom rule |
| TableRender.RenderTable | crates/tui/src/table.rs:321-350 | the lines of a complete table, which `TableStacked` places |
| TableLayout.TableStacked | crates/tui/src/table.rs:321-350 | block under block: the top rule, the header and the rule under it, the rows in their order, the bottom rule |
| TableRender.RenderGrowing | crates/tui/src/table.rs:539-601 | the lines of a table that is still growing, which `GrowingStacked` places |
| TableLayout.GrowingStacked | crates/tui/src/table.rs:539-601 | block under block: the top rule, the rows in their order with a rule under the header and between two, the row being read, the bottom rule |
| TableRender.TableUniform | crates/tui/src/table.rs:321-427 | every line is sum of widths + 3 columns + 1 wide |
| TableRender.GrowingUniform | crates/tui/src/table.rs:539-714 | so is every line of a table that is still growing |
| EventPumps.AppState.Join | crates/gui/src/commands/chat.rs:76-91 | a session's unfinished pump is joined; the window then follows a live pump unless it is about to clean up |
| EventPumps.AppState.Spawn | crates/gui/src/commands/chat.rs:110-113 | a new pump runs under a generation never used before |
| EventPumps.AppState.Commit | crates/gui/src/commands/chat.rs:148-169 | the pump is entered, live or not: it is live exactly when it still runs; one entered meanwhile is aborted, the other subscribers are kept |
| EventPumps.AppState.Leave | crates/gui/src/commands/chat.rs:183-195 | the last subscriber takes entry and pump along, any other only itself |
| EventPumps.AppState.CleanUp | crates/gui/src/commands/chat.rs:136-146 | only the own generation's entry is evicted |
| EventPumps.AppState.Step | crates/gui/src/commands/chat.rs:67-203 | what each action leads to; one that cannot happen leaves all as it is |
| EventPumps.AppState.JoinTooLate | crates/gui/src/commands/chat.rs:76-91 | a window that joins a pump about to clean up is evicted with it |
| EventPumps.AppState.BothGone | crates/gui/src/commands/chat.rs:67-203 | that this happens, starting from no subscription |
| EventPumps.AppState.EndedBeforeCommit | crates/gui/src/commands/chat.rs:113-169 | a stream that ends before its pump is entered leaves the window without entry |
| EventPumps.AppState.CrashedBeforeCommit | crates/gui/src/commands/chat.rs:113-169 | a pump that crashes before it is entered leaves an entry without a live pump |
| EventPumps.AppState.StoppedReplacesLive | crates/gui/src/commands/chat.rs:148-168 | a stopped pump that is entered aborts the live one, and two windows are gone |
| EventPumps.AppState.Rescued | crates/gui/src/commands/chat.rs:148-168 | a window survives a stopped pump when another is entered in time |
| EventPumps.FollowsIff | crates/gui/src/commands/chat.rs:67-203 | a window told that it subscribed follows a live pump if and only if the last pump entered for it has not stopped and no cleanup forgot it |
| EventPumps.FollowsUndisturbed | crates/gui/src/commands/chat.rs:67-203 | it does while no pump entered for its session since it was told has stopped |
| EventPumps.AppState.Interleave | crates/gui/src/commands/chat.rs:67-203 | over every interleaving: no empty entry, every live pump entered or held, no more live pumps than subscribes holding one and one entry; which windows told that they subscribed follow a live pump, and that all do when nothing ends or crashes |
| EventPumps.FewLivePumps | crates/gui/src/state.rs:60-73 | a session's live pumps are at most its entry's and those held by subscribes in flight |
| InputHistory.HistoryFile.Save | crates/cli/src/storage.rs:158-190 | what one save leaves stored |
| InputHistory.KeepLastOrder | crates/cli/src/storage.rs:170-180 | entries are kept in the order of their last occurrences |
| InputHistory.SavedIs | crates/cli/src/storage.rs:158-190 | what is stored is the end of the merged list: all of it, or half of the limit when it is longer than that |
| InputHistory.StoredIsRecent | crates/cli/src/storage.rs:150-157 | after any saves: a duplicate-free end of the deduplicated list of all entries, at most the limit and at least min(distinct, limit / 2) long |
| PetRuntime.PetRuntime.RememberEvent | crates/gui/src/pet.rs:453-464 | set and order queue agree, the queue holds the last 2048 keys at most |
| PetRuntime.RememberedLongEnough | crates/gui/src/pet.rs:453-464 | an event is remembered at least until 2048 others have come |
| PetRuntime.PetRuntime.ProcessActivity | crates/gui/src/pet.rs:365-436 | a remembered event changes nothing; otherwise the requests left pending, the running mark and the notice left, and when a change is announced; request ids stay unique |
| PetRuntime.PendingAfter | crates/gui/src/pet.rs:383-425 | a request stands last and alone under its id, a resolved one goes, a session's go with its end; the others stay in their order |
| PetRuntime.PetRuntime.ReconcileRunningSessions | crates/gui/src/pet.rs:271-327 | the sessions known afterwards, the requests kept, and exactly when a change is announced |
| PetRuntime.ReportedAt | crates/gui/src/pet.rs:283-298 | a session reported is known as it was reported last |
| PetRuntime.AnnouncedUnchanged | crates/gui/src/pet.rs:276-298 | when nothing changes, a change is announced all the same if and only if some session runs |
| PetRuntime.PetRuntime.AnnouncedAgain | crates/gui/src/pet.rs:271-327 | a new runtime that announces the same running session twice |
| DottedKey.GetNestedValue | crates/cli/src/utils.rs:37-48 | the walk finds what stands under the parts of the key, however the key is split at its dots |
| DottedKey.SetNestedValue | crates/cli/src/utils.rs:51-81 | the walk that puts in missing tables and sets the value in the last leaves the table and outcome the laws below are about, for the parts of the key however it is split at its dots |
| DottedKey.SetThenGet | crates/cli/src/utils.rs:51-81 | what was written is read back |
| DottedKey.SetElsewhere | crates/cli/src/utils.rs:51-81 | keys unrelated by prefix are unchanged |
| DottedKey.FailureChangesNothing | crates/cli/src/utils.rs:60-66 | on failure the table is as before |
| DottedKey.FailsWhenBlocked | crates/cli/src/utils.rs:60-66 | it fails exactly when a scalar stands on the way |
| DottedKey.PartsOfKey | crates/cli/src/utils.rs:52 | the parts of a key have no dots, and joined by dots are the key |
| DottedKey.PartsUnique | crates/cli/src/utils.rs:52 | there are no other such parts |
| DeltaTracker.StreamCollector.HandleToolCallDelta | crates/kernel/src/agent/stream_collector.rs:122-178 | head and tail are the first and last 80 characters received; a summary is returned exactly when the estimate reaches another multiple of 4096, so no more often than that |
| DeltaTracker.BytesAre | crates/kernel/src/agent/stream_collector.rs:139 | the size of a text in UTF-8 |
| ChunkText.SplitComment | crates/kernel/src/channels/comment.rs:415-439 | the loop ends, and the chunks make up the text |
| ChunkText.ChunksFine | crates/kernel/src/channels/comment.rs:412-439 | chunks have 1 to max characters; all but the last could not have taken in all the rest, and end at the last line feed that fits or are exactly max long |
| ChunkText.ChunksUnique | crates/kernel/src/channels/comment.rs:415-439 | there is no other way to cut a text so |

## Left out

- Message ids, timestamps, token usage and the length limit applied to the text of a cancelled result.
- ExactlyOnce.ExactlyOneEach: stated for distinct call ids; of histories in which calls share an id it is shown that no call goes without a result (`EveryCallHasItsOwn`), not when there are more results than calls.
- RespawnLaws.SecondReadSameHistory and ClosedAgain.ClosedAgainSame: stated for distinct call ids; of histories in which calls share an id the growth of the log (`SecondReadQuiet`) and what is lost (`ConservedExactly`) are shown.
- TurnCycle.Agent.HandleExecuteTool: a tool batch may end in any state with any notes and any outcome, because `tool_exec.rs` is not part of this model.
- Errors of `tool_exec.rs`, the checkpoint store, hooks, the message bus and the persist pool: the trace records that a hook fires, not what it does.
- TurnCycle.Agent.HandleStreaming: contents of requests and replies, model selection and backoff times, because only their outcome moves the loop; texts of failures are told apart by what they say, not spelled out.
- Parent and child cancel tokens: a cancel that reaches the agent through its parent is a signal at a point where the agent waits.
- LoopDetect.Detect: the fingerprint is any function of name, arguments and result content, because the hash itself is not modelled; `BreakMeans` says what Break means when no two different calls of the history collide.
- TableWrap.WrapTextLine: display widths are summed per character, because the width tables for strings, which treat some sequences as one glyph, are not part of this model.
- TableRender.FitsScreen: column scaling is the exact rational floor, because the rounding of `f64` is not modelled.
- Styles and colours of table cells, and parsing Markdown into rows.
- The `active_session` mark in `subscribe` and `unsubscribe`, and what a pump forwards.
- PetRuntime.PetRuntime.ProcessActivity: expiry of notices, moods and normalization of titles, because they are single expressions.
- DottedKey.SetNestedValue: tables are values, so what a walk changes in the inner table is written back into the outer ones at the end; parsing the text into a boolean, number or string is left out.
- Reading and writing the history file, and tokens formatted for the log.
