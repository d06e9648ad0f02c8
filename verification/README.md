# Verification of the streamer's protocols and data structures

This Dafny 4.11 project models the parts of the streamer that carry real state: the message offset
index over transcripts, the per-file refresh coordinator, the turn machines of the Claude, Cursor and
Copilot runners, the terminal replay archive, session listing and pagination, and the smaller
algorithms around them. Each is proved over every run or every input, not on examples. Where a
promise does not hold of the code, the model keeps the code as it is, a lemma gives a concrete run or
input on which it fails, and another says exactly when it holds, or when what it rests on does.

`dafny verify dfyconfig.toml` checks everything.

## What is modelled

- **Offset index** (`LineSplit`, `LineScan`, `OffsetIndex`, `OffsetIndexRuns`, `OffsetIndexLimits`,
  `ConversationCacheIndex`). A transcript is a sequence of bytes, a line reducer an abstract step
  function. Both index writers and the windowed reader are compared with one full parse of the file.
  Runs mix appends (seen or missed), torn lines, truncations, replacements, backfills, lost rows, and
  meta rows that come, go and change their provider. The tables are maps in a class, its loops proved against the specification.
- **Refresh coordinator** (`RefreshCoordinator`). A step relation over reads, writes, settlements and
  scanner swaps of one file; passes and requests carry the stamps of the events that began them.
- **Turn signals** (`TurnSignal`). The escape matcher over UTF-16 code units with its carried tail.
- **Turn machines** (`ClaudeTurn`, `CursorSubmits`, `CursorTurn`, `CopilotRunner`, and the classes in
  `ClaudeSessions`, `CursorSessions`, `CopilotSessions`). Timers and promise continuations are events
  that may fire at any later step; screen readings are free inputs.
- **Replay archive** (`ClearArchive`, `ReplayArchive`). A terminal buffer of identified rows with a
  marker, scrolling, trimming, both clears and the alternate buffer.
- **Sessions** (`SessionList`, `Pagination`, `StatusSort`). The merged list, the cursor walk over a
  changing set, the order of the status strings.
- **Tails** (`TailUpdate`, `TailReader`). Batched updates of a conversation row and its tail, and the
  backward reader that fills one from a file.
- **Smaller algorithms** (`CoveredPaths`, `AutoResume`, `ExternalTails`, `Binder`).

State machines are pure step functions with an invariant kept by every step; the classes hold the
source's mutable fields and refine the steps method by method. Every method of `ClaudeSession`
(src/pty-manager.ts:482-1564), `CursorSession` (src/cursor-pty-runner.ts:178-622) and
`CopilotPtyRunner` (src/copilot-pty-runner.ts:90-419) leaves its object in the state that the machine's
function of the same name gives; only those with a loop have a row below.

## Where the code falls short of a promise

- A row dropped by `dropRowsById` or `clearAll` stays unnoticed by the file state, and a later page is
  served short (`OffsetIndexLimits.LostRowsServeShortPage`; right exactly when its rows are present, for a stateless
  reducer, and only then for any).
- A file rewritten and grown back between two looks is served by old spans
  (`OffsetIndexLimits.RegrowthServesOldSpans`; the index stays true of it exactly when both files give the
  same rows, `OffsetIndexLimits.RegrownStaysTrueIff`).
- A meta row that comes to name another provider leaves the index as it is, and the old reducer's rows are
  served to the new one (`OffsetIndexLimits.SwitchServesOldRows`; the index stays true exactly when both
  reducers give the same rows, `OffsetIndexLimits.SwitchStaysTrueIff`).
- A message that depends on one nine before it is served wrong by a window that opens between
  (`OffsetIndexLimits.NinthMessageBackIsMissed`; exactly when a window is right, `OffsetIndex.WindowIsRightIff`).
- A post-write refresh that returns to a swapped-out scanner can be handed an older parse
  (`RefreshCoordinator.ReturningWriteGetsOldParse`; exactly which write is covered,
  `RefreshCoordinator.WriteIsCoveredIff`).
- A turn that begins and ends in one chunk is not seen (`TurnSignal.OneChunkHidesAWholeTurn`; exactly when
  a chunk leads where its signals one by one do, `TurnSignal.ChunkTurnIsFoldIff`).
- A Cursor session that takes an input while running on a late-started turn can stay running with
  nothing to end it (`CursorTurn.LateSubmitIsLost`; exactly then, `CursorTurn.LosesIffSubmitsLate`).
- A Cursor session whose boot painted the busy hint keeps the hint flag, and keys sent as its first submit
  can end by turn signal with no hint since (`CursorTurn.BootHintEndsKeys`; exactly then,
  `CursorTurn.KeysNeedNoHintIff`).
- Past 10^15 ms the status strings can sort oldest first (`StatusSort.NewerFirstIff`).
- A stored tail stamp past the counter can make batching visible in the tail
  (`TailUpdate.BatchingShowsPastCounter`; exactly when it does not, `TailUpdate.BatchingDoesNotShowIff`).
- The backward reader stops at four times the tail and can miss lines
  (`TailReader.StopsBeforeQualifyingLine`; exactly when, `TailReader.StoredIsTrueTailIff`).
- A sub-agent poll can close a managed session's watcher (`ExternalTails.PollCanCloseManagedWatcher`;
  exactly which steps do, `ExternalTails.StepUnwatchesManagedIff`).

Code and comments disagree in two places; the model follows the code. The comment above
`updateFromLines` calls project context last-wins, the code is first-wins per column. The comment on
the start of late turns says a busy period Claude begins on its own opens no turn; `trackProgress`
opens a working turn on any busy signal.

## Model

| member | source | states |
|---|---|---|
| LineSplit.SplitCompleteLines | src/utils/fileIdentity.ts:44-64 | the loop over the bytes computes the fold `SplitLines`, spans at absolute places and bytes consumed |
| LineSplit.ConsumedEndsLine | src/utils/fileIdentity.ts:26-34 | consumption stops just past the last newline, never inside a torn line, and every span lies before it |
| LineSplit.SpansAreLines | src/utils/fileIdentity.ts:49-60 | every span is a whole nonempty line of the buffer at its own offset |
| LineSplit.SpansAreOrdered | src/utils/fileIdentity.ts:49-60 | spans come in file order without overlap |
| LineSplit.EveryLineHasSpan | src/utils/fileIdentity.ts:37-43 | every whole nonempty line has a span; bare newlines are consumed without one |
| LineSplit.SplitAfterPrefix | src/conversation-cache.ts:925-955 | whole lines at the front split off: the rest splits as a buffer of its own at its own offset, which is why a carry is enough |
| LineSplit.SplitOfConsumed | src/services/conversations/conversationWatcher.ts:340-352 | the consumed bytes alone give the same lines, so a torn tail changes nothing |
| LineSplit.RestHasNoLine | src/services/conversations/conversationWatcher.ts:340-352 | no complete line is left behind after a read |
| LineScan.ParsersAreLawful | src/conversation-cache.ts:712-770 | every reducer the cache can pick numbers lines by position only; only Claude's keeps state |
| LineScan.ScanAnswers | src/conversation-cache.ts:826-849 | message `k` of a full parse is the reducer's answer after lines whose messages are exactly the earlier ones |
| LineScan.RowsPointAtLines | src/conversation-cache.ts:836-846 | the bytes a row names are its message's line |
| LineScan.NumberingIgnoresState | src/conversation-cache.ts:800-867 | a scan resumed with any reducer state adds the rows and numbers the uninterrupted scan adds |
| LineScan.CodexFilterDropsLeadingRun | src/conversation-cache.ts:731-753 | the index-dependent Codex filter drops exactly the leading run of injected turns and nothing later |
| OffsetIndex.BackfillRepresents | src/conversation-cache.ts:893-971 | one backfill describes every whole line of the file and lacks no row |
| OffsetIndex.ExtendRepresents | src/conversation-cache.ts:800-867 | a contiguous read keeps the index true of the longer prefix, whatever state it resumed from, and adds exactly the new numbers |
| OffsetIndex.ExtendIsBackfill | src/conversation-cache.ts:800-867 | extending an exact index gives, field for field, what one backfill of the longer prefix gives |
| OffsetIndex.ExtendNumbersLines | src/conversation-cache.ts:795-798 | the numbers handed back for a read are those the full parse gives these lines, None for non-messages |
| OffsetIndex.WindowServesSlice | src/conversation-cache.ts:1001-1096 | a window that is served equals the slice of a full parse: always for a stateless reducer, for a stateful one that looks back at most eight messages |
| OffsetIndex.WindowIsRightIff | src/conversation-cache.ts:1047-1092 | for any reducer, a window that lacks no row is right if and only if each of its messages comes out of the reducer started fresh at the lookback as out of the full parse |
| OffsetIndex.PageIsSliceIffRowsPresent | src/conversation-cache.ts:1056-1066 | a served page is right only if every row of it is still in the table, and whenever its lookback rows are there too; for a stateless reducer if and only if its rows are |
| OffsetIndex.ServedCount | src/conversation-cache.ts:1066-1094 | a page holds one message per row of its range present, lookback or not, so a lost row makes it short |
| OffsetIndex.StaysTrueIff | src/conversation-cache.ts:1016-1036 | an index that lacks no row is true of another file of its size, or under another reducer, if and only if that reducer gives that file the same rows |
| OffsetIndexRuns.RunKeepsInvariant | src/server-wiring.ts:170-216 | over any run of appends, polls, truncations, replacements by another file, backfills, lost rows, and meta rows that come, go and change their provider while nothing could be served, the index stays true of a prefix of the file under the reducer in force, or is visibly stale; without lost rows no row is missing |
| OffsetIndexRuns.RunServesSlices | src/conversation-cache.ts:1001-1096 | after any such run from an empty index without lost rows, a served window is the slice of a full parse of the current file by the reducer in force |
| OffsetIndexRuns.RunServesWhenCovered | src/conversation-cache.ts:1016-1045 | in the same runs a window is served if and only if the meta row is there, the file is the one indexed, the index covers it whole and it holds a message |
| OffsetIndexRuns.RunServesRightPageIff | src/conversation-cache.ts:1061-1066 | in runs that may lose rows, a served page is right only if its rows are present, and whenever its lookback rows are too; for a stateless reducer if and only if its rows are |
| OffsetIndexRuns.ChoppedReadsEqualBackfill | src/services/conversations/conversationWatcher.ts:318-362 | any chopping of the same bytes into watcher reads leaves the rows, numbers and tail offset of one backfill; the stored offset too, up to trailing blank lines |
| OffsetIndexLimits.LostRowsServeShortPage | src/conversation-cache.ts:2197-2236 | counterexample: rows dropped on a tailed file, its meta row back from a rescan, one append, and the index serves that one message as the whole page |
| OffsetIndexLimits.RegrowthServesOldSpans | src/services/conversations/conversationWatcher.ts:312-325 | counterexample: a file rewritten and grown back to its indexed size between two looks is served by the old spans |
| OffsetIndexLimits.RegrownStaysTrueIff | src/services/conversations/conversationWatcher.ts:312-325 | the index stays true of a file regrown to its size if and only if both files give the same rows |
| OffsetIndexLimits.SwitchServesOldRows | src/conversation-cache.ts:1034-1041 | counterexample: an indexed file whose meta row comes to name another reducer is served as holding a message it does not |
| OffsetIndexLimits.SwitchStaysTrueIff | src/conversation-cache.ts:1034-1041 | the index stays true under another reducer if and only if that one gives the file the same rows |
| OffsetIndexLimits.NinthMessageBackIsMissed | src/conversation-cache.ts:263-267 | counterexample: a tool use nine messages back is outside the lookback and its result is served untyped |
| ConversationCacheIndex.ConversationCache.constructor | src/conversation-cache.ts:268-292 | an empty cache whose tables hold nothing |
| ConversationCacheIndex.ConversationCache.OthersKeepTheirIndex | src/conversation-cache.ts:638-660 | writing one conversation's rows leaves the index of files keyed otherwise as it was |
| ConversationCacheIndex.ConversationCache.ExtendMessageIndex | src/conversation-cache.ts:800-867 | the loop over spans, the parse-state update and the transaction together are `OffsetIndex.Extend` |
| ConversationCacheIndex.ConversationCache.AppendMessageIndexRows | src/conversation-cache.ts:648-653 | rows are upserted one by one by number |
| ConversationCacheIndex.ConversationCache.DeleteFileIndex | src/conversation-cache.ts:638-645 | rows of the conversation, the file state and the kept reducer state go, nothing else |
| ConversationCacheIndex.ConversationCache.ClearIndexParseState | src/conversation-cache.ts:869-871 | only that file's reducer state goes |
| ConversationCacheIndex.ConversationCache.RunBackfill | src/conversation-cache.ts:893-971 | the chunked walk with its carry is `OffsetIndex.Backfill` for any chunk sizes |
| ConversationCacheIndex.ConversationCache.WalkFile | src/conversation-cache.ts:914-957 | after the walk the index holds exactly the lines of the file |
| ConversationCacheIndex.ConversationCache.WalkRead | src/conversation-cache.ts:918-956 | one read of any size behind the carried torn line keeps the bytes read equal to those walked and those carried |
| ConversationCacheIndex.ConversationCache.WalkChunk | src/conversation-cache.ts:919-956 | one chunk with the carried torn line advances the walked prefix by its whole lines |
| ConversationCacheIndex.ConversationCache.ReadMessageWindow | src/conversation-cache.ts:1001-1096 | the imperative read is `OffsetIndex.Window`, declines included |
| ConversationCacheIndex.ConversationCache.OnNewLineSpans | src/server-wiring.ts:170-216 | a read extends the index, or drops it and rebuilds when the read is declined |
| ConversationCacheIndex.ConversationCache.OnTruncated | src/server-wiring.ts:290-301 | a truncation drops the index and the reducer state |
| ConversationCacheIndex.ConversationCache.DropRows | src/conversation-cache.ts:2197-2236 | rows go while the file state stays |
| RefreshCoordinator.StepKeepsInv | src/scanner-manager.ts:432-505 | every call, settlement and scanner swap keeps the coordinator invariant: one active pass, a follow-up only behind it, every queue promise live or handed over |
| RefreshCoordinator.NoWaiterIsLost | src/scanner-manager.ts:389-505 | in every run each caller's promise follows a started pass, or the follow-up of a running one, or was skipped as a read |
| RefreshCoordinator.OneActivePassPerState | src/scanner-manager.ts:71-97 | in every run no state, live or replaced, has two passes running, and a follow-up waits only behind a running pass |
| RefreshCoordinator.SettlingFreesEveryWaiter | src/scanner-manager.ts:487-505 | when the live pass settles, either way, every waiter follows a started pass and the slot is free |
| RefreshCoordinator.WriteIsCoveredIff | src/scanner-manager.ts:419-505 | in any run a post-write refresh is covered by a parse started at or after its call if and only if, when its pass starts, at the call or when its follow-up is handed over, its scanner runs no other pass for the file |
| RefreshCoordinator.WriteIsCovered | src/scanner-manager.ts:399-425 | a settled post-write refresh is covered by a parse started at or after the call, through running parses, rejections and swaps, when callers do not return to a scanner whose parse still runs |
| RefreshCoordinator.ReturningWriteGetsOldParse | src/scanner-manager.ts:432-453 | counterexample without that assumption: a returning write is handed the older parse |
| RefreshCoordinator.BurstSharesOneQueue | src/scanner-manager.ts:419-425 | any number of writes during a pass share one promise and start nothing |
| RefreshCoordinator.BurstCostsOnePass | src/scanner-manager.ts:399-425 | the whole burst then costs exactly one more pass, which all of them get |
| RefreshCoordinator.SkipIsJustified | src/scanner-manager.ts:374-397 | in every run a read is skipped only if a pass by the scanner it asked fulfilled less than the TTL before |
| RefreshCoordinator.ReadsWithinTtlStartNothing | src/scanner-manager.ts:374-397 | any number of reads within the TTL of a fulfilled pass start no parse |
| RefreshCoordinator.OtherReadsParse | src/scanner-manager.ts:374-397 | past the TTL, or with nothing fulfilled yet, a read of an idle file starts exactly one pass |
| RefreshCoordinator.RejectionDoesNotThrottle | src/scanner-manager.ts:487-500 | a rejection leaves the throttle stamp alone, a fulfilment sets it |
| RefreshCoordinator.FileRefresh.constructor | src/scanner-manager.ts:71-97 | a file nobody has asked about |
| RefreshCoordinator.FileRefresh.StartRefreshPass | src/scanner-manager.ts:455-474 | the object's new state is that of `StartPass` |
| RefreshCoordinator.FileRefresh.RefreshStateFor | src/scanner-manager.ts:432-453 | the object's new state is that of `StateFor`, the orphaned follow-up re-armed |
| RefreshCoordinator.FileRefresh.RefreshFileForRead | src/scanner-manager.ts:389-397 | the object's new state and the outcome are those of the read step |
| RefreshCoordinator.FileRefresh.RefreshFileAfterWrite | src/scanner-manager.ts:419-425 | the object's new state and the outcome are those of the write step |
| RefreshCoordinator.FileRefresh.QueueRefreshPass | src/scanner-manager.ts:476-485 | one new queue promise, which is the live state's follow-up |
| RefreshCoordinator.FileRefresh.FinishRefreshPass | src/scanner-manager.ts:487-505 | the object's new state is that of the settle step |
| TurnSignal.MatchAll | src/pty-manager.ts:1346-1350 | leftmost non-overlapping matching finds exactly the signals of the window, in order |
| TurnSignal.CarryOfWindow | src/pty-manager.ts:1351-1360 | the tail carried from a window is the tail the whole stream would leave |
| TurnSignal.CarryHoldsNoSignal | src/pty-manager.ts:1351-1360 | the carried tail holds no complete signal, so none is counted twice |
| TurnSignal.ChunkAddsItsWindow | src/pty-manager.ts:1344-1360 | a chunk adds exactly the signals that end in it |
| TurnSignal.SplitDoesNotMatter | src/pty-manager.ts:1344-1360 | for every split of the output, the signals matched over all windows are those of the unsplit stream, each once, with a tail under 7 code units |
| TurnSignal.ChunkTurnIsFoldIff | src/pty-manager.ts:1361-1373 | the turn after a chunk, which uses only its last signal, is the one all its signals give if and only if there is none, the last is busy, none is busy, or the turn was working or ending |
| TurnSignal.OneChunkHidesAWholeTurn | src/pty-manager.ts:1361-1373 | counterexample: a busy and an idle signal in one chunk leave a submitted turn submitted |
| ClaudeTurn.StepKeepsInv | src/pty-manager.ts:1344-1564 | every chunk, screen read, timer, input and stop keeps the turn invariant |
| ClaudeTurn.SettlesForAReason | src/pty-manager.ts:992-1469 | in every run a turn-signal settle finds an ending turn and no gate, after a busy and then an idle signal since the last submit; neither prompt-marker path settles while a turn is open, the turn logged being the one the settle found |
| ClaudeTurn.StepSettlesIff | src/pty-manager.ts:992-1486 | for every step and every reason: the step settles the session for that reason if and only if it is a chunk with a marker that leaves no turn open, a screen read of an ending turn with no gate or of no turn with a marker, or the boot fallback |
| ClaudeTurn.SubmittedTurnsLapse | src/pty-manager.ts:1391-1404 | a submitted turn always has a start-grace timer that lapses it and re-reads the screen |
| ClaudeTurn.LateStartsAreBounded | src/pty-manager.ts:1376-1389 | each submit revives a settled session at most once, and only within the window |
| ClaudeTurn.ChunkRevivesIff | src/pty-manager.ts:1361-1389 | a chunk revives a settled session if and only if its last signal is busy and a submit awaits its start within the window |
| ClaudeTurn.InputsAreConserved | src/pty-manager.ts:588-645 | every accepted input is pasted, waiting on its flush timer or queued, exactly once, and none stays queued after readiness |
| ClaudeTurn.StoppedStaysStopped | src/pty-manager.ts:788-820 | no late timer, read or chunk changes a stopped session |
| ClaudeSessions.ClaudeSession.TrackProgress | src/pty-manager.ts:1344-1373 | the matching loop, the carried tail, the late start and the turn together leave the state of the machine's step |
| ClaudeSessions.ClaudeSession.DeferFollowing | src/pty-manager.ts:727-740 | the loop sets one timer for each queued input but the first |
| CursorSubmits.TrySubmitKeeps | src/cursor-pty-runner.ts:319-341 | a poll keeps every chain at the part of the block of the input it was begun with, and the flush at whole blocks in queue order |
| CursorSubmits.FireKeeps | src/cursor-pty-runner.ts:361-377 | the flush loop begins the next queued input only after the previous Enter |
| CursorSubmits.FlushGoesOn | src/cursor-pty-runner.ts:361-377 | flushed bytes are a prefix of whole blocks in arrival order, and either all are written or a chain or timer continues |
| CursorSubmits.EnterWithinBound | src/cursor-pty-runner.ts:319-341 | however the PTY paints, Enter is written by the 32nd poll and exactly once |
| CursorSubmits.BusyPtyWaitsToTheBound | src/cursor-pty-runner.ts:319-341 | the bound is tight: a PTY never quiet gets Enter exactly at the 32nd 16 ms poll |
| CursorTurn.StepKeepsInv | src/cursor-pty-runner.ts:233-622 | every event keeps the invariant of the session |
| CursorTurn.BootQueueIsWritten | src/cursor-pty-runner.ts:361-377 | in every run the inputs sent during boot are queued in the order sent, reach the PTY as whole Ctrl+U, text, Enter blocks in that order and none twice, and while the session lives the flush goes on until all are written |
| CursorTurn.EachInputIsWritten | src/cursor-pty-runner.ts:298-343 | in every run each input sent past boot begins one chain, in order, as does each queued one the flush reached, and a chain writes the block of its own input, at most once; a finished one, exactly |
| CursorTurn.UserTurnsEnd | src/cursor-pty-runner.ts:288-358 | in every run a session running on user input shows the hint, has its watch armed, or has a submit in flight |
| CursorTurn.SignalEndsFollowHint | src/cursor-pty-runner.ts:564-593 | in every run a turn-signal end follows a busy hint since the last submit, except in the turn of a first submit that is of keys after a boot that painted the hint; since the last submit of text there is always one |
| CursorTurn.KeysEndUnseenIff | src/cursor-pty-runner.ts:233-252 | keys sent to a settled session can end by turn signal without any further hint if and only if the hint flag is held |
| CursorTurn.KeysNeedNoHintIff | src/cursor-pty-runner.ts:233-252 | in any run keys sent to a settled session can end so if and only if boot painted the hint and nothing was submitted since |
| CursorTurn.BootHintEndsKeys | src/cursor-pty-runner.ts:233-252 | counterexample: keys after a boot that showed the hint end by turn signal with no hint since |
| CursorTurn.EndsIffNotLost | src/cursor-pty-runner.ts:345-358 | past boot a running session has something that ends it if and only if it is not running on turn-signal without a hint |
| CursorTurn.LosesIffSubmitsLate | src/cursor-pty-runner.ts:288-296 | a step brings that about if and only if it begins a submit while the session runs on a late-started turn |
| CursorTurn.LateSubmitIsLost | src/cursor-pty-runner.ts:345-358 | counterexample: a run from spawn that ends lost |
| CursorTurn.LostStaysLost | src/cursor-pty-runner.ts:345-358 | short of a new hint, a hold or an exit, every step leaves it so |
| CursorTurn.NeverLost | src/cursor-pty-runner.ts:288-358 | no run without such a submit loses its session |
| CopilotRunner.StepKeepsInv | src/copilot-pty-runner.ts:110-382 | every start, launch, read, exit, hold and dispose keeps the runner invariant |
| CopilotRunner.FinishedExactlyOnce | src/copilot-pty-runner.ts:354-382 | in every run a session is live under its id and unfinished, or was finished exactly once |
| CopilotRunner.SpawnsOnce | src/copilot-pty-runner.ts:110-123 | in every run an id has one spawn more than finishes while live, as many otherwise |
| CopilotRunner.ConcurrentStartsJoin | src/copilot-pty-runner.ts:110-123 | starts in flight or live change nothing more |
| CopilotRunner.FinishedSessionsAreInert | src/copilot-pty-runner.ts:175-199 | a finished session's late exit, output, quiet check or watch changes nothing, so never its successor |
| CopilotRunner.CardsAreClosed | src/copilot-pty-runner.ts:221-239 | in every run an id without a session was last told of no card, and no call repeats the last |
| CopilotRunner.ClientIsToldTheScreen | src/copilot-pty-runner.ts:221-239 | after a parse of a live session the client was last told the card on screen, or that there is none |
| CopilotRunner.RestartBeginsClean | src/copilot-pty-runner.ts:366-376 | a restarted id inherits no busy row, card, watch or submit |
| CopilotSessions.CopilotPtyRunner.DisposeAll | src/copilot-pty-runner.ts:416-419 | the loop over the sessions leaves none live, each finished exactly once and no card open |
| ClearArchive.StepKeepsOrder | src/pty-shared.ts:92-127 | every repaint, scroll, clear and buffer switch keeps archive, marker and buffer in order |
| ClearArchive.ReplayIsInOrder | src/pty-shared.ts:128-137 | in every run the replay shows rows in drawing order, none twice, the archive at most 4000; the whole is at most 4000 plus `maxLines` if and only if that is positive or all of it fits 4000, as a `maxLines` of 0 cuts nothing |
| ClearArchive.CaptureIsFaithful | src/pty-shared.ts:109-127 | a capture copies the rows up to the clear as they stand, trailing blanks aside, and nothing on the alternate buffer |
| ClearArchive.NoRowVanishes | src/pty-shared.ts:92-127 | in every run each row ever drawn is in the archive or live and uncopied, unless the archive's 4000-row cap cut it, the scrollback cap took it uncopied, it was a trailing blank, or of the alternate buffer |
| ReplayArchive.ReadRowsLoop | src/pty-shared.ts:149-159 | the two loops read the rows and drop the trailing blanks |
| ReplayArchive.ReplayKeeper.constructor | src/pty-shared.ts:96-103 | an empty archive on its terminal |
| ReplayArchive.ReplayKeeper.FirstUncopiedRow | src/pty-shared.ts:105-107 | the row after a live marker, else 0 |
| ReplayArchive.ReplayKeeper.Push | src/pty-shared.ts:115-120 | copied rows appended, the oldest cut past the cap |
| ReplayArchive.ReplayKeeper.Capture | src/pty-shared.ts:109-127 | the object's new state is that of the machine's capture |
| ReplayArchive.ReplayKeeper.Read | src/pty-shared.ts:129-137 | the replay and how many of its lines are archived |
| Pagination.FindCursorBoundary | src/session-store.ts:298-312 | the scan returns the boundary of an ordered list |
| Pagination.BoundarySplits | src/session-store.ts:294-312 | in an ordered list exactly what is before the boundary is not after the cursor |
| Pagination.SortOrders | src/session-store.ts:284-292 | the comparator sorts distinct ids into one strict order |
| Pagination.ViewIs | src/session-store.ts:191-200 | the sorted view holds exactly the sessions that pass the filter, in order |
| Pagination.CursorStandsForSession | src/session-store.ts:207-212 | being after a session's cursor is coming after the session |
| Pagination.PageHolds | src/session-store.ts:200-213 | a page holds a listed session exactly once if it lies between the cursors before and after it, else not at all |
| Pagination.ListedPageHolds | src/session-store.ts:200-213 | what a page and its cursors say of a session depends only on its id and sort value, whatever else of it changes |
| Pagination.StableSessionsOnce | src/session-store.ts:191-213 | a finished walk over a changing set got every session that stayed listed under an unchanged sort value exactly once, for every positive limit, key and order; the rest of its record may change between pages |
| Pagination.PagesConcatenate | src/session-store.ts:191-213 | with no changes the pages concatenate to the sorted, filtered list |
| Pagination.ZeroLimitEndsAtOnce | src/session-store.ts:205-212 | a limit of 0 gives an empty page and ends the walk |
| SessionList.SessionStore.constructor | src/session-store.ts:16-21 | an empty store |
| SessionList.SessionStore.AddManaged | src/session-store.ts:23-25 | an id is replaced in place or added, others stay, ids stay distinct |
| SessionList.SessionStore.OwnsConversation | src/session-store.ts:110-124 | the scan answers whether a session with a process is known under the id |
| SessionList.SessionStore.List | src/session-store.ts:142-161 | the two loops compute the merged rows |
| SessionList.ListIsUnique | src/session-store.ts:133-161 | no conversation is listed twice |
| SessionList.OutsideIsListedOrOwned | src/session-store.ts:153-158 | every visible outside process has its conversation listed or owned |
| SessionList.ListedOutsideIsNotOwned | src/session-store.ts:101-124 | a listed outside process is never one of our own |
| SessionList.ManagedIsListedOrReplaced | src/session-store.ts:142-157 | a managed session is listed if and only if the filter shows it and it is no stub whose conversation runs outside; in its place that conversation is listed or owned if the filter shows it bare, and if not, no outside process is listed under it |
| StatusSort.FixedOrder | src/session-store.ts:269-271 | fixed-width decimals compare as the numbers do |
| StatusSort.StatusOrder | src/session-store.ts:253-272 | up to 10^15 ms the strings compare live before idle, then newest first, exactly |
| StatusSort.NewerFirstIff | src/session-store.ts:265-272 | for all times JavaScript dates reach, the newer of two sorts first if and only if it is not that both are past 10^15 ms, by equally many digits, or by fifteen and sixteen with the farther's first fifteen not below the nearer |
| StatusSort.PastLimitSortsOldestFirst | src/session-store.ts:265-272 | counterexample past 10^15 |
| TailUpdate.SummaryJoins | src/conversation-cache.ts:1455-1511 | scanning two batches as one joins their summaries |
| TailUpdate.NewestIsFirstGreatest | src/conversation-cache.ts:1501-1509 | the newest message is the first to reach the greatest time |
| TailUpdate.ColumnsAreFirstWins | src/conversation-cache.ts:1477-1490 | each project column is that of the first line offering it, as the code does and its own comment above the method denies |
| TailUpdate.ApplyJoins | src/conversation-cache.ts:400-423 | two batches applied in turn look like their join applied at once |
| TailUpdate.BatchingDoesNotShowIff | src/conversation-cache.ts:1442-1567 | however lines are cut into batches, count, columns, newest message and tail come out the same if and only if no stored tail is stamped past the counter, or by at least as many as batches hold messages, or what the further batches push leaves the tail as it is, or the file is indexed without a row |
| TailUpdate.BatchingShowsInTailOnly | src/conversation-cache.ts:400-423 | whatever the stamps, batching shows in the tail or nowhere |
| TailUpdate.UpdateKeepsStamps | src/conversation-cache.ts:463-471 | an update keeps every stored tail stamped at or below the counter, and the counter never falls |
| TailUpdate.TailTakesBatchIff | src/conversation-cache.ts:463-471 | a batch reaches the tail if and only if no stored tail is stamped past the counter, up to a coincidence of contents |
| TailUpdate.BatchingShowsPastCounter | src/conversation-cache.ts:463-471 | counterexample: a stamp one past the counter and two batches of one message |
| TailUpdate.TailCache.constructor | src/conversation-cache.ts:280-292 | a file the cache does not know |
| TailUpdate.TailCache.Classify | src/conversation-cache.ts:1455-1511 | the loop over the lines computes the batch summary |
| TailUpdate.TailCache.UpdateFromLines | src/conversation-cache.ts:1442-1567 | the object's new state is that of `Update` |
| TailReader.ChunkInFront | src/conversation-cache.ts:1708-1720 | a chunk read in front completes the carried partial line and leaves the later lines as they are |
| TailReader.PushParts | src/conversation-cache.ts:1717-1719 | the inner loop pushes the whole parts, last first |
| TailReader.ReadChunk | src/conversation-cache.ts:1709-1719 | one chunk read in front extends the lines held to the trailing lines of the longer suffix |
| TailReader.ReadBackward | src/conversation-cache.ts:1701-1720 | for any chunk size the loop stops at `StopAt` and holds exactly the trailing lines from there in reverse, all or at least four times the tail |
| TailReader.StopsOnTime | src/conversation-cache.ts:1708 | the reader stops at the start of the file or with four lines for each wanted, and one chunk earlier it had fewer |
| TailReader.LeftoverIsWholeIff | src/conversation-cache.ts:1721 | the leftover is a whole line if and only if nothing or a newline precedes it |
| TailReader.KeepQualifying | src/conversation-cache.ts:1726-1742 | the last qualifying lines of those read, at most `tailSize`, in file order |
| TailReader.PopulateTail | src/conversation-cache.ts:1689-1746 | what is stored is a function of the file: the last qualifying lines from the stop on |
| TailReader.StoredIsTrueTailIff | src/conversation-cache.ts:1689-1746 | stated on the file: what is stored is the tail of the whole file if and only if all of it was read, the lines past the stop hold enough, no line before it qualifies, or the fragment of the line it stopped in stands in for what is missed |
| TailReader.StopsBeforeQualifyingLine | src/conversation-cache.ts:1708 | counterexample: read in chunks of 8 for a tail of one, the reader stops a byte short of the only qualifying line and stores nothing |
| CoveredPaths.InsideIsTransitive | src/browse.ts:108-112 | inside-of is transitive |
| CoveredPaths.InsideIsAntisymmetric | src/browse.ts:108-112 | and antisymmetric |
| CoveredPaths.SiblingIsNotInside | src/browse.ts:108-112 | a sibling sharing only a name prefix is not inside |
| CoveredPaths.UniqueByLength | src/browse.ts:121 | each path once, shorter first |
| CoveredPaths.GreedyIsMinimal | src/browse.ts:122-126 | the greedy test keeps exactly the minimal paths |
| CoveredPaths.DropCoveredPaths | src/browse.ts:119-128 | the result is the minimal inputs, each once, in caller order |
| CoveredPaths.InCallerOrder | src/browse.ts:127 | the kept paths as the caller has them, each once |
| CoveredPaths.EverythingIsCovered | src/browse.ts:114-118 | every input is covered by the primary or a kept path |
| CoveredPaths.NothingKeptIsCovered | src/browse.ts:114-118 | no kept path is covered by another or by the primary |
| CoveredPaths.ResultIsLeastCover | src/browse.ts:114-118 | every cover taken from the inputs contains the result |
| CoveredPaths.ResultKeepsOrder | src/browse.ts:127 | kept paths stand in the caller's order |
| AutoResume.Preflight | src/session-registry-boot.ts:343-363 | every history is known at the end, each row worth probing is probed once in order, never more than two at a time |
| AutoResume.PlanAutoResume | src/services/sessions/autoResumeOnBoot.ts:49-67 | the first five eligible rows in repository order |
| AutoResume.ResumeAll | src/session-registry-boot.ts:439-453 | attempts start in plan order, all unless closing, never more than two in flight; resumed plus failed is started |
| AutoResume.AutoResumePreviousSessions | src/session-registry-boot.ts:332-465 | the whole of boot recovery, over any rows and interleaving |
| AutoResume.AttemptsAreDistinctAndEligible | src/services/sessions/autoResumeOnBoot.ts:28-67 | no row is attempted twice and only eligible ones are |
| ExternalTails.EvictingSparesManaged | src/external-tails.ts:215-235 | an eviction frees one place, closes no managed watcher, and closes one only for the least recently active tail |
| ExternalTails.AttachingKeeps | src/external-tails.ts:104-136 | attaching stays within the cap and takes exactly the recent, untailed, unmanaged transcripts |
| ExternalTails.SweepIs | src/external-tails.ts:272-281 | the sweep leaves exactly the tails neither adopted nor idle and closes exactly the idle ones' watchers |
| ExternalTails.NeverPastTheCap | src/external-tails.ts:104-136 | in every run at most 32 tails, one for a path |
| ExternalTails.ManagedStaysWatched | src/external-tails.ts:104-281 | in every run in which no finished sub-agent and no deletion releases a managed path that still has a tail, no managed path loses its watcher |
| ExternalTails.StepUnwatchesManagedIff | src/external-tails.ts:153-281 | a step leaves a managed path unwatched if and only if it is such a release; attaching, eviction, sweep, activity, adoption and the end of a session never do |
| ExternalTails.DetachClosesManagedIff | src/external-tails.ts:181-189 | a poll's release or a deletion closes a managed watcher if and only if the path still has a tail |
| ExternalTails.PollCanCloseManagedWatcher | src/external-tails.ts:153-176 | counterexample: a listed sub-agent adopted by a session, then polled as finished |
| ExternalTails.ExternalTailManager.constructor | src/external-tails.ts:81-85 | no tails |
| ExternalTails.ExternalTailManager.DetachExternalTail | src/external-tails.ts:181-189 | the object's new state is that of `Detach` |
| ExternalTails.ExternalTailManager.ScanForVictim | src/external-tails.ts:217-232 | the scan finds the first managed tail or the least recent one |
| ExternalTails.ExternalTailManager.EvictExternalTailsIfNeeded | src/external-tails.ts:215-235 | the object's new state is that of `MakeRoom` |
| ExternalTails.ExternalTailManager.MaybeAttachExternalTail | src/external-tails.ts:104-136 | the object's new state is that of `MaybeAttach` |
| ExternalTails.ExternalTailManager.AttachSubagentTail | src/external-tails.ts:142-150 | the object's new state is that of `AttachSubagent` |
| ExternalTails.ExternalTailManager.PollSubagentTail | src/external-tails.ts:154-172 | the object's new state is that of `PollOne` |
| ExternalTails.ExternalTailManager.SweepIdleExternalTails | src/external-tails.ts:272-281 | the object's new state is that of `Sweep` |
| Binder.StepKeepsInv | src/session-watchers.ts:391-696 | every poll, prompt, start and removal keeps bindings distinct and bound sessions unpolled |
| Binder.NeverTwoToOne | src/session-watchers.ts:424-432 | in every run no two sessions are bound to one conversation |
| Binder.BindingStands | src/session-watchers.ts:458-461 | a binding stands as long as its session |
| Binder.PollBindsIff | src/session-watchers.ts:391-456 | a poll binds if and only if the session lives within its deadline, has prompted if Cursor's, and a usable file is there |
| Binder.ChosenIs | src/session-watchers.ts:434-456 | what is chosen is usable and free, and nothing is chosen only if nothing is |
| Binder.FromRootsIs | src/session-watchers.ts:434-456 | Codex takes the newest usable file of the first root that has one |
| Binder.CursorTakesTheBest | src/session-watchers.ts:584-649 | Cursor takes a free file no worse than any usable one, mentions of uploads first |
| Binder.ExpiryIff | src/session-watchers.ts:391-420 | a poll stops polling unbound if and only if the process is gone or the deadline passed without a new prompt, never for a living Cursor session before its first; the very first poll stops only a Codex session past its deadline |
| Binder.SessionWatchers.constructor | src/session-watchers.ts:341-365 | no sessions |
| Binder.SessionWatchers.IsBoundElsewhere | src/session-watchers.ts:427-432 | the scan of the other sessions |
| Binder.SessionWatchers.BestOf | src/session-watchers.ts:445-456 | the best usable file of one listing |
| Binder.SessionWatchers.PickFile | src/session-watchers.ts:434-456 | the file chosen over all roots |
| Binder.SessionWatchers.GiveUpOn | src/session-watchers.ts:359-362 | `cleanup` with nothing bound: the first poll has no interval to clear, so polling starts all the same |
| Binder.SessionWatchers.TryWireOnce | src/session-watchers.ts:391-461 | the new store is that of `TryWire` |

## Left out

- Appends that land while a backfill runs: a backfill is one step, so the rows a racing append deletes are not covered.
- OffsetIndexRuns.RunKeepsInvariant: a tail that reads on from exactly the end of a replaced file's index, which `extendMessageIndex` takes for the old file's as it does not check the identity; and replacement under the same identity that leaves the file as long or longer.
- OffsetIndexRuns.RunServesSlices: a provider that changes over an index that could still be served, which `OffsetIndexLimits.SwitchStaysTrueIff` decides by the rows.
- The uuid, role and ts columns of index rows, and the size and mtime columns of file states, which no modelled read uses.
- Canonical spelling of paths, UTF-8 decoding of line bytes, and the scanner's later team-info pass over a window.
- The line reducers, xterm's parser and the gate and card detectors: abstract functions or free readings.
- Stateful reducers that remember more than eight messages in `OffsetIndexRuns.RunServesSlices`; `OffsetIndex.WindowIsRightIff` decides their windows one by one.
- `close()` and its four draining rounds of refresh passes; more than one file per coordinator, as files share nothing.
- Scanner passes that share one parse settle separately in the model, in any order.
- Claude: arrival order between the staggered flush and direct sends, how long a grace lasts, a restart under the same id, phases, suggestions and question cards.
- Cursor: an exit arriving after a restart under the same id; the exit handler is keyed by id alone.
- Copilot: `startFresh`, whose id is new each time, and the bytes written to the PTY.
- `src/codex-pty-runner.ts`.
- Terminal resizing, and insert, delete and reverse-scroll controls, which count as repaints of the viewport rows they touch.
- Undefined sort values, ids that collate equal without being equal, and cursors that do not decode.
- StatusSort.StatusOrder: times below 10^15 - 2^53 ms lose precision as doubles before they are formatted; the model subtracts exactly.
- The agent-line short circuit of `updateFromLines`, lines without a timestamp of their own, `updateFromLine` and the scanner's upserts.
- Whether a path is a directory and where the browse root lies; symbolic links.
- The stagger between resumes as a duration, and the repository behind the rows.
- External tails: the sub-agent poll's timing tests, activity reporting and broadcast; two sessions mapped to one file.
- Binder: Claude's watch for its own transcript, sessions restored with a binding, and the replay of lines written before the watcher attached.
- File, SQLite, PTY, WebSocket and HTTP I/O, logging and process spawning.
