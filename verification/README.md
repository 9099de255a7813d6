# Verified model of kontekst

Kontekst is a local agent daemon: it lets a language model work on a project through tools, under the control of a
client that approves each tool call. This project models its five hard parts in Dafny and proves what they are for.

* **Diff engine and editor** (`Lcs`, `Changes`, `Hunks`, `Blocks`, `Format`, `Patch`, `NewNumbers`, `LineHashes`,
  `LcsTies`, `HunkContext`, `Preview`, `Unified`, `UnifiedPatch`, `Lines`, `Edits`, `EditArguments`, `EditFile`,
  `EditPreview`, `PreviewHashes`, `ReadFile`). The match table is optimal, the blocks of a diff and its text patch the
  old file into the new one, the editor's bottom-up edits equal a line-by-line rewrite, and a preview shows exactly
  what executing the edit writes.
* **Session file** (`TailReader`, `SessionFile`, `EarlyStop`, `Window`, `Sessions`, `Conversation`). The backwards
  block reader equals a plain read of the whole file, except for block starts that fall on certain newlines; which
  ones is proved exactly. The context of a run is a suffix of the persisted log, and the agent's loop runs on that
  window.
* **Normaliser and validator** (`Normalize`, `Validator`). Merging conserves everything, and the logs that pass the
  validator afterwards are characterised exactly.
* **JSON-RPC connection** (`Connection`, `Wire`). A transition system with one step per critical section or channel
  operation, and its composition with a server over pipes. It follows the JSON-RPC 2.0 Specification, section 4.1
  (Notification) and section 5 (Response object).
* **Agent run and approvals** (`Approvals`, `AgentSteps`, `AgentTrace`, `Outcomes`, `Rounds`, `AgentLoop`, `Runner`,
  `Server`, `ClientView`, `Permissions`, `CommandChannel`, `PromptChannel`). Every run of the loop, in an arbitrary
  world, is legal; legal runs come in rounds, end once, never prompt after a denial, do nothing after a cancellation,
  answer each call exactly once, and execute no call the client was not shown and did not allow. When the event loop
  can hang is proved exactly, and that it cannot as long as nobody cancels.

`Sequences`, `Options` and `Messages` hold what the others share. The agent adds its messages to a `Window` and has it
build every context; `Conversation` runs it from loading the history to clearing the memory, and `Sessions` says when
its contexts pass the validator. Methods with loops follow the loops of the source and are proved against
specification functions; the lemmas prove the promises about those functions.

## Where the code does not keep its promise

* `computeNewStart` is handed the list already filtered to the hunk, so its offset is always zero and a later block
  can print a wrong new start line. `NewNumbers.NewStartIsTrueIff` says exactly when it is right;
  `NewNumbers.NewStartCanBeWrong` is a concrete pair of files.
* `LoadTail` glues two lines together when a block starts on the newline between them, because `splitLines` drops the
  empty first field. `TailReader.BlockwiseIffNoBadStart` says exactly when, and `Window.LogIsSeenIff` says it of
  messages; `TailReader.BlockwiseCanFail` is a case of three bytes, and `TailReader.ChunkSizeCanFail` one at the block
  size in use. The final carryover branch of `LoadTail` is dead: nothing is ever left in the carryover.
* A request begun after the connection was drained that gives up because the connection is closed leaves its entry in
  the pending map (`Connection.LateRequestStaysPending`); one that is cancelled or cannot be written does not, and no
  other request can (`Connection.ReturnedIsForgotten`).
* `read_file` drops a carriage return before hashing and the editor does not, so its anchors on such lines are refused
  whenever the carriage return shows in the hash (`ReadFile.ReportedAnchorsAcceptedIff`,
  `ReadFile.CarriageReturnRejected`).
* The command channel holds sixteen commands and nobody reads it once the agent has taken a cancellation. The event
  loop of a prompt hangs if and only if the verdicts and further cancellations behind the first cancellation exceed
  sixteen (`CommandChannel.RunHangsIff`). With one cancellation that takes seventeen calls
  (`CommandChannel.SeventeenCallsHang`); with seventeen cancellations a single call is enough
  (`CommandChannel.OneCallHangs`). Then nothing moves any more, and one more `session/cancel` hangs as well
  (`CommandChannel.HangingIsFinal`); since the read loop handles it itself, the connection reads nothing from then on,
  neither prompts nor the answers to permission requests (`Wire.HandlingBlocksReading`,
  `Wire.BlockedHandlerAnswersNothing`).
* The preview of an edit hashes the planned lines and numbers the lines of the written text, so an edit that brings in
  a newline can show wrong hashes or none (`PreviewHashes.ShownHashBelongsIff`, `PreviewHashes.NewlineLosesHash`).
* Skill content injected between a call and its result, and histories cut inside a batch, are refused by the validator
  in tool-role mode, and the latter in both (`Validator.InjectionNeedsUserMode`, `Validator.CutBatchIsRejected`).

## Assumptions

One writer per session file and one active prompt per session. Writes to the connection succeed and pipes keep their
order. A message encodes to a non-empty line without newline that decodes to itself. The order in which a Go map is
walked is arbitrary. Unbounded integers stand for Go's `int`.

## Model

| member | source | states |
|---|---|---|
| `Lcs.ComputeLCS` | internal/tool/diff/diff.go:288-328 | The in-place table, the backtrack and the reversal return strictly increasing pairs of equal lines, and no common subsequence of the two files is longer |
| `Lcs.FillTable` | internal/tool/diff/diff.go:294-307 | Every cell (i, j) of the filled table is the length of the longest common subsequence of the first i old and the first j new lines |
| `Lcs.Backtrack` | internal/tool/diff/diff.go:309-321 | The backtrack collects, last first, exactly the optimal match list |
| `Lcs.TraceRealisesTable` | internal/tool/diff/diff.go:309-321 | From every cell the backtrack yields a genuine common subsequence whose length is the number in that cell |
| `Lcs.TableIsUpperBound` | internal/tool/diff/diff.go:294-307 | Whatever common subsequence of two prefixes is given, the table number is at least its length |
| `Lcs.MatchesAreOptimal` | internal/tool/diff/diff.go:288-328 | The match list of any two files is a common subsequence of maximal length |
| `LcsTies.MatchesAreLatest` | internal/tool/diff/diff.go:309-321 | Of all longest common subsequences the backtrack takes the one whose matches lie latest in the old file: each of them at least as late as the same match of any other |
| `Sequences.ReverseInPlace` | internal/tool/diff/diff.go:323-325 | The in-place swap loop yields the reversal of the list |
| `Changes.FindChanges` | internal/tool/diff/diff.go:247-281 | The loop over matches returns a change script: disjoint non-empty regions, separated and surrounded by lines equal on both sides |
| `Changes.ChangesOfIsScript` | internal/tool/diff/diff.go:247-281 | For any two files the changes are a script turning the old into the new, remove and add exactly the lines that a longest common subsequence leaves over |
| `Changes.NoChangesIffEqual` | internal/tool/diff/diff.go:151-153 | There are no changes if and only if the two files are equal |
| `Hunks.GroupingPartitions` | internal/tool/diff/diff.go:167-191 | Grouping cuts the changes into consecutive runs, one per hunk, whose context ranges are disjoint and in order |
| `Hunks.FilterChangesInRange` | internal/tool/diff/diff.go:405-413 | The filter returns the changes that touch the range, in order |
| `Hunks.FilterPicksTheGroup` | internal/tool/diff/diff.go:405-413 | Filtering the whole list by a hunk's context range gives back exactly the changes grouped into that hunk |
| `Hunks.EachChangeInOneHunk` | internal/tool/diff/diff.go:167-191 | Every change is touched by the range of exactly one hunk |
| `HunkContext.SharedIffNear` | internal/tool/diff/diff.go:167-191 | Every hunk reaches three lines to either side of its changes, as far as the file goes, and two neighbouring changes share a hunk if and only if at most six lines lie between them |
| `Blocks.BodyShows` | internal/tool/diff/diff.go:463-532 | The lines of a block cover exactly the old lines of its hunk and stand for exactly the new lines, and both number columns run on without gaps |
| `Blocks.BodyTally` | internal/tool/diff/diff.go:441-535 | A block deletes and inserts exactly as many lines as the changes of its hunk remove and add |
| `Format.ComputeNewStart` | internal/tool/diff/diff.go:391-403 | The sum is the hunk start shifted by the net growth of the leading changes that start before it |
| `Format.FormatStructuredHunk` | internal/tool/diff/diff.go:441-535 | The loop nest over positions and changes emits the block specified for the hunk, with header counts of both sides |
| `Format.FormatLines` | internal/tool/diff/diff.go:463-532 | The nested loops with their early `continue` emit context, deletes and inserts in the specified order |
| `Format.HunkIsFormattable` | internal/tool/diff/diff.go:441-535 | Every hunk of the grouping meets what the formatting loops need: changes inside the hunk, in order, with context between them |
| `Patch.PatchRebuildsNewFile` | internal/tool/diff/diff.go:136-208 | For every pair of files, replaying the blocks over the old lines (copy gaps and context, check and skip deletes, emit inserts) gives exactly the new lines |
| `Patch.ReplayReaches` | internal/tool/diff/diff.go:167-208 | After each block the replay has produced the new file up to the end of that hunk; the gap in front of every block is equal on both sides |
| `Patch.SummaryIsOptimal` | internal/tool/diff/diff.go:193-205 | Lines removed and added over all blocks are exactly what a longest common subsequence leaves over on the old and on the new side |
| `Patch.BlocksAreWellNumbered` | internal/tool/diff/diff.go:441-535 | In every block old numbers are contiguous from its old start over context and deletes, new numbers contiguous from its new start over context and inserts, and the header counts equal the emitted lines |
| `Patch.NewFileRebuilds` | internal/tool/diff/diff.go:415-439 | The single block of an empty old file rebuilds the new file as well |
| `NewNumbers.OwnListGivesOldStart` | internal/tool/diff/diff.go:442-454 | Handed the already filtered list, the start sum never moves: the printed new start is the old start |
| `NewNumbers.WholeListGivesTrueStart` | internal/tool/diff/diff.go:391-403 | Handed the unfiltered list, the same sum would be the hunk's true position in the new file |
| `NewNumbers.NewStartIsTrueIff` | internal/tool/diff/diff.go:441-471 | A block prints its true new start line if and only if the blocks before it insert as many lines as they delete |
| `NewNumbers.OldNumbersAreTrue` | internal/tool/diff/diff.go:467-532 | Every old number in a diff is the true line number of the content beside it |
| `NewNumbers.NewNumbersAreTrueIf` | internal/tool/diff/diff.go:467-532 | Every new number is the true line number of its content in each block whose predecessors net to zero, the first block included |
| `NewNumbers.NewNumberIsTrueIff` | internal/tool/diff/diff.go:467-532 | Every context or inserted line of a block stands at its place behind the block's true start in the new file, and prints that place if and only if the blocks before it net to zero |
| `NewNumbers.NewStartCanBeWrong` | internal/tool/diff/diff.go:442-454 | A concrete pair of files whose second block prints new line 5 but starts at new line 6 |
| `Preview.ComputeBlocks` | internal/tool/diff/diff.go:155-191 | Opening, widening and closing hunks in one pass gives one block per hunk of the partition |
| `Preview.CountLines` | internal/tool/diff/diff.go:193-203 | The two counting loops add up the inserts and the deletes of all blocks |
| `Preview.GenerateStructuredDiffWithHashes` | internal/tool/diff/diff.go:136-208 | The structured diff of two texts: its blocks patch the old lines into the new, and its summary is the optimal edit |
| `Preview.GenerateNewFileBlock` | internal/tool/diff/diff.go:415-439 | The block of a new file starts at old line zero and new line one, and inserts every line, numbered from one, with its own hash |
| `Unified.GenerateUnifiedDiff` | internal/tool/diff/diff.go:57-83 | For any two texts the unified text renders the structured blocks: behind the title, or for a file that had no lines as a new file, and there is no text when there are no blocks |
| `Unified.GenerateNewFileDiff` | internal/tool/diff/diff.go:86-128 | The text of a new file shows every line behind a plus up to the limit, and beyond it exactly the first two thirds of the limit, the number of lines left out, and the last lines for the rest |
| `Unified.ComputeHunks` | internal/tool/diff/diff.go:210-238 | The text grouping yields one text per structured block, in order |
| `Unified.FormatHunk` | internal/tool/diff/diff.go:330-389 | The text of a hunk is the rendering of its structured block |
| `UnifiedPatch.TextIsPatch` | internal/tool/diff/diff.go:346-386 | For any two texts, the text of each block is a header followed by a body, and the bodies, read back line by line by their marks alone, patch the lines of the old text into exactly those of the new one |
| `UnifiedPatch.TextCanBeRead` | internal/tool/diff/diff.go:346-386 | Every such body can be read back: it consists of lines, each with a mark in front |
| `LineHashes.EveryLineIsHashedInPlace` | internal/tool/diff/diff.go:463-532 | In every diff a deleted or context line carries the hash listed for its old number, and an inserted line the hash listed for its true place in the new file, even in a block that prints wrong new numbers |
| `Lines.AssembleInvertsSplit` | internal/tool/builtin/edit_file.go:142-148 | For every text, its lines put together again, with the knowledge whether it ended in a newline, give the text back |
| `Lines.SplitLinesInjective` | internal/tool/diff/diff.go:45-54 | Two texts with the same lines and the same final-newline state are the same text |
| `Lines.SplitOfJoin` | internal/tool/diff/diff.go:45-54 | Lines that hold no newline survive joining and splitting |
| `Edits.ValidateEdits` | internal/tool/builtin/edit_file.go:261-284 | The loop with its set of seen lines accepts exactly the valid edits, and otherwise blames the first edit that those before it do not allow: for a line already taken, else for one that does not exist, else for a hash other than that of the line |
| `Edits.AcceptedIffValid` | internal/tool/builtin/edit_file.go:261-284 | Edits are accepted if and only if no two share a line, every line exists, and every hash is the current one |
| `Edits.SortByLineDescending` | internal/tool/builtin/edit_file.go:287-291 | The sorted copy holds the same edits, from the bottom of the file upwards |
| `Edits.ApplyEdits` | internal/tool/builtin/edit_file.go:286-310 | Applying accepted edits bottom-up in place yields the line-by-line reference, in which everything stands at its place; an unknown operation is refused |
| `Edits.EverythingIsPlaced` | internal/tool/builtin/edit_file.go:286-310 | In the edited file every line stands at its own place, in the old order: an unedited line as it is, a replaced one as its replacement, a deleted one not at all, and an inserted line right behind or right in front of the line it was inserted at |
| `Edits.SingleEdit` | internal/tool/builtin/edit_file.go:293-307 | One edit alone leaves the file around its line as it was |
| `Edits.RewriteIgnoresOrder` | internal/tool/builtin/edit_file.go:286-310 | The outcome is the same for every permutation of the edits |
| `Edits.RewriteLength` | internal/tool/builtin/edit_file.go:286-310 | The file grows by one line per insert and shrinks by one per delete |
| `EditArguments.ParseEdits` | internal/tool/builtin/edit_file.go:208-259 | Arguments are parsed if and only if they are an array of well-shaped objects; each edit then holds the members of its object, each in its own place, with the line cut towards zero, and otherwise the error says what the first faulty entry lacks first |
| `EditFile.PrepareEdits` | internal/tool/builtin/edit_file.go:89-140 | A plan is made exactly for acceptable requests, and holds the content and the lines that result |
| `EditPreview.PreviewStructured` | internal/tool/builtin/edit_file.go:165-187 | For an accepted request the shown blocks turn the lines of the file into exactly the lines of the content that executing the request writes, and each operation is counted as often as it occurs |
| `PreviewHashes.ShownHashBelongsIff` | internal/tool/builtin/edit_file.go:165-187 | For every file and edits, the hash beside a line of a preview is the hash of its content if and only if the line is not inserted or the planned line at its place has that hash |
| `PreviewHashes.HashesBelongWithoutNewlines` | internal/tool/builtin/edit_file.go:165-187 | When no edit brings in a newline, every hash in a preview belongs to the content beside it |
| `PreviewHashes.NewlineLosesHash` | internal/tool/builtin/edit_file.go:171-177 | Replacing a line by two shows the first of them with the hash of the whole replacement and the second without a hash, under every hash function |
| `EditFile.Execute` | internal/tool/builtin/edit_file.go:189-206 | The bytes written are the rewritten lines with the final newline kept; nothing is written for a refused request or one over the size limit |
| `EditFile.WrittenLines` | internal/tool/builtin/edit_file.go:189-206 | When no edit brings in a newline, the written content splits into exactly the rewritten lines, except that a final empty line of a file without final newline is not counted |
| `ReadFile.ScanAgreesWithSplit` | internal/tool/builtin/read_file.go:73-106 | Reading a text line by line sees exactly the lines that splitting it yields |
| `ReadFile.Execute` | internal/tool/builtin/read_file.go:48-107 | A readable range is reported with one entry for each of its lines, numbered, hashed and without a carriage return at its end; every other request is refused: for an empty range, for a line of 65536 characters or more among those scanned, for ten thousand lines without an end given, or for a start behind the file |
| `ReadFile.ScanLoop` | internal/tool/builtin/read_file.go:73-97 | The scan loop collects exactly the lines of the range and stops one line behind it |
| `ReadFile.AnchorAcceptedIff` | internal/tool/builtin/read_file.go:109-122 | A reported line and hash, used as an anchor on the unchanged file, is accepted if and only if dropping the carriage return does not show in the hash |
| `ReadFile.ReportedAnchorsAcceptedIff` | internal/tool/builtin/read_file.go:48-122 | Any edits anchored on reported lines, at most one a line, are accepted together if and only if no dropped carriage return shows in a hash |
| `ReadFile.ReportedAnchorsAreAccepted` | internal/tool/builtin/read_file.go:48-122 | Any edits anchored on reported lines, at most one a line, are accepted together when no anchored line ends in a carriage return |
| `ReadFile.CarriageReturnRejected` | internal/tool/builtin/read_file.go:73-97 | Under every hash that tells a line from the line with a carriage return, the editor refuses the anchor reported for such a line, and under every other it accepts it |
| `TailReader.SplitLines` | internal/conversation/file.go:136-154 | The scan returns exactly the non-empty stretches between newlines, in order |
| `TailReader.FieldsConcat` | internal/conversation/file.go:136-154 | Splitting a concatenation is splitting the first part up to its last newline and the unfinished rest together with the second |
| `TailReader.BlocksLoseOneEach` | internal/conversation/file.go:70-120 | Reading backwards in blocks sees one line fewer than the file has for every bad block start, and sees the very lines of the file when there is none |
| `TailReader.BlockwiseIffNoBadStart` | internal/conversation/file.go:70-120 | For every file and block size, block-wise reading sees the lines of the file if and only if no interior block starts on the newline behind a non-empty line with content after it |
| `TailReader.BlockwiseCanFail` | internal/conversation/file.go:136-145 | Two one-byte lines read in blocks of two bytes come back as one line |
| `TailReader.EverySizeCanFail` | internal/conversation/file.go:65-97 | For every block size, a single byte included, there is a file that loses one of its two lines |
| `TailReader.ChunkSizeCanFail` | internal/conversation/file.go:14-14 | The block size of 8 KiB loses a line of a concrete file |
| `TailReader.BadStartShows` | internal/conversation/file.go:70-120 | Any bad start changes what is read |
| `SessionFile.SessionFile.LoadTail` | internal/conversation/file.go:42-134 | With no bad block start, the block-wise, newest-first read with early stop equals: split the whole file, drop what does not decode, take the greedy tail; so the block size does not matter |
| `EarlyStop.OnlyReadBlocksMatter` | internal/conversation/file.go:65-120 | When the budget is used up by the blocks read down to some place, only bad block starts behind that place can spoil the tail; what the file holds further down does not matter |
| `SessionFile.SessionFile.Append` | internal/conversation/file.go:28-40 | Appending adds one encoded line and changes nothing else |
| `SessionFile.SessionFile.ReadBlock` | internal/conversation/file.go:70-97 | One block splits into the carried-over first line and the lines to be looked at now |
| `SessionFile.SessionFile.ReadLines` | internal/conversation/file.go:99-118 | The lines of one block are decoded newest first until one no longer fits the budget |
| `SessionFile.NextBlock` | internal/conversation/file.go:70-97 | The lines of a block are the next ones from the end of the file, and the rest is left for later blocks |
| `SessionFile.TailIsLongest` | internal/conversation/file.go:99-118 | The tail fits the budget unless it is a single message, and one message more would not fit |
| `Window.LogRoundTrip` | internal/conversation/file.go:28-40 | Messages appended line by line are what a whole-file read decodes |
| `Window.LogIsSeenIff` | internal/conversation/file.go:65-120 | Read back in blocks, an appended log is complete if and only if no block start is a bad one, and each bad start costs one message at least |
| `Window.BadStartInLog` | internal/conversation/file.go:70-97 | In an appended log a block start is bad exactly when it falls on the newline of a message other than the last |
| `Window.LogTail` | internal/conversation/context.go:88-98 | The tail that is loaded is a suffix of the persisted log |
| `Window.HistoryFitsBudget` | internal/conversation/context.go:88-98 | The history fits into the context size together with the system message, the tools and the user's prompt, unless it is a single message or has no tokens; with one message more it would not |
| `Window.Window.StartRun` | internal/conversation/context.go:79-103 | The history is the greedy tail of what the block-wise read sees, and so of the whole log when no block that is read starts badly; it fits into the context with everything else, and one message more would not; a failed read leaves history and memory as they were |
| `Window.Window.AddMessage` | internal/conversation/context.go:111-122 | Log and memory grow together or not at all, so that history followed by memory stays a suffix of the log |
| `Window.Window.BuildContext` | internal/conversation/context.go:124-135 | The context is the system message followed by history and memory, and everything behind the system message is a suffix of the log |
| `Window.Window.CompleteRun` | internal/conversation/context.go:104-109 | Memory is dropped and the log is kept |
| `Window.Window.TakeSnapshot` | internal/conversation/context.go:158-194 | The totals equal the sum over the listed messages plus the tool tokens, and total and remaining tokens add up to the context size |
| `Window.SumTokens` | internal/conversation/context.go:196-202 | The loop adds up the tokens of all messages |
| `Normalize.NormalizeMessages` | internal/provider/normalize.go:7-26 | The in-place merge cuts the list into runs of messages that go together and makes one message of each; tokens, tool calls and text are kept, and no two neighbours are left to merge |
| `Normalize.MergeMessages` | internal/provider/normalize.go:46-58 | The merged message is the first one with the second text behind its own, a rule between them when both are there, and with both messages' tokens and calls |
| `Normalize.NormalizeIsIdempotent` | internal/provider/normalize.go:7-44 | A second pass changes nothing, and no two neighbours have one effective role except tool messages in tool-role mode |
| `Normalize.NormalizeConserves` | internal/provider/normalize.go:7-58 | Total tokens, the sequence of tool calls, and the text, which is all non-empty contents in order with a rule between any two, are conserved |
| `Normalize.NormalizedInRuns` | internal/provider/normalize.go:7-44 | Merging cuts the list into runs, as long as possible, of messages with one role, where results count as the user's or stand alone, and puts the texts, tokens and calls of each run, in order, into its first message |
| `Normalize.TextGrows` | internal/provider/normalize.go:46-51 | Later messages never come in front of earlier ones |
| `Validator.ValidateRoleAlternation` | internal/provider/validator.go:9-47 | The stateful loop accepts exactly the lists that begin with a system message, behind which no speaker speaks twice in a row and no result lacks a result or a call before it, and otherwise reports the first fault |
| `Validator.AcceptedIffPrepared` | internal/provider/validator.go:9-47 | In either mode a normalised agent log is accepted if and only if every tool result follows a result, a run of assistant messages with calls, or (results sent as user messages) a user message |
| `Validator.WellFormedLogsPass` | internal/provider/validator.go:9-47 | Logs whose results directly follow a result or an assistant message with calls pass in both modes |
| `Validator.InjectionNeedsUserMode` | internal/provider/validator.go:9-47 | A user message injected before a result is accepted only while results travel as user messages |
| `Validator.CutBatchIsRejected` | internal/provider/validator.go:9-47 | A history that starts in the middle of a batch is never accepted |
| `Connection.StepKeepsInv` | internal/protocol/jsonrpc.go:96-139 | Every step of every request, of the read loop and of the drain keeps the invariant of the pending map and the channels |
| `Connection.NoSendBlocks` | internal/protocol/jsonrpc.go:119-139 | In every interleaving each request's channel is sent to at most once, and neither a delivery nor the drain's send under the lock ever finds it full |
| `Connection.ResultIsOwn` | internal/protocol/jsonrpc.go:198-246 | A request that returns a result returns the first response with its own id read since it was registered |
| `Connection.ReturnedIsForgotten` | internal/protocol/jsonrpc.go:198-246 | A returned request is still pending if and only if it was registered after the drain and gave up on the closed connection |
| `Connection.WaitingIsServed` | internal/protocol/jsonrpc.go:128-139 | A waiting request is still pending or its reply is on its way, and after the read loop is done it can always return |
| `Connection.LateRequestStaysPending` | internal/protocol/jsonrpc.go:119-125 | A run in which a request registered after the drain returns and its entry stays in the map |
| `Connection.OutcomeIsFinal` | internal/protocol/jsonrpc.go:230-246 | No later step changes what a request has returned |
| `Connection.OutcomeHasCause` | internal/protocol/jsonrpc.go:225-246 | A request ends as cancelled only after it was cancelled, as not written only after its write failed, as closed only after it saw the connection closed, and answered only after it received its answer |
| `Wire.ActionKeepsInv` | internal/protocol/jsonrpc.go:96-117 | Every action of two endpoints joined by pipes keeps the client's view a prefix of what the server wrote, request by request |
| `Wire.ResponseIsLast` | internal/protocol/jsonrpc.go:141-171 | Nothing about a request follows its response on the wire, and everything its job wrote precedes it in order |
| `Wire.PromptSeesItsUpdates` | internal/protocol/server.go:270-309 | When a client's request has returned what the server answered, every update the server wrote for it has been handled by the client, each once and in sending order |
| `Wire.HandlingBlocksReading` | internal/protocol/jsonrpc.go:96-117 | As long as one notification is being handled, the connection reads nothing more, and its input does not end |
| `Wire.BlockedHandlerAnswersNothing` | internal/protocol/jsonrpc.go:173-178 | While a notification's handler does not finish, no request registered from then on is ever answered |
| `Approvals.PendingBatch.constructor` | internal/agent/approvals.go:32-48 | For any reply, empty and repeated ids included, the batch has one pending entry for every id in use, with the name and the arguments of the last call of that id |
| `Approvals.UnrepeatedCallIsKept` | internal/agent/approvals.go:35-45 | A call whose id no later call repeats keeps its entry, with its own name and arguments |
| `Approvals.PendingBatch.AsToolCalls` | internal/agent/approvals.go:69-77 | The recorded calls list every entry of the batch exactly once, in some order |
| `Approvals.PendingBatch.AsProposed` | internal/agent/approvals.go:50-67 | The proposal lists every entry exactly once, with the call's own name and arguments |
| `Approvals.PendingBatch.CollectDecisions` | internal/agent/approvals.go:106-114 | The decisions list every entry exactly once |
| `Approvals.PendingBatch.AreAllDecided` | internal/agent/approvals.go:116-123 | True exactly when no entry is pending |
| `Approvals.PendingBatch.Take` | internal/agent/approvals.go:91-102 | One command changes at most the pending entry it names |
| `Approvals.PendingBatch.CollectApprovals` | internal/agent/approvals.go:79-104 | For any command sequence it stops at the shortest prefix that decides every call, or at an earlier cancellation or the end, and the batch is what that prefix makes of it |
| `Approvals.FirstDecisionCounts` | internal/agent/approvals.go:91-102 | A call's state is its first approval or denial, whatever comes later, and it is pending exactly when there is none |
| `Approvals.GrantedWasApproved` | internal/agent/approvals.go:91-96 | A call ends up granted only if the first decision on its id is an approval |
| `Approvals.DeniedWithReason` | internal/agent/approvals.go:97-102 | A denied call was denied by the first decision on its id, and carries the reason given there |
| `Approvals.AnyWasDenied` | internal/agent/approvals.go:125-132 | True exactly when some decision is a denial |
| `AgentTrace.StartsOnce` | internal/agent/agent.go:48-50 | A run starts with its start event, which never comes again |
| `AgentTrace.EndsOnce` | internal/agent/agent.go:91-164 | A run has at most one terminal event and does nothing after it |
| `AgentTrace.EndedByTerminal` | internal/agent/agent.go:91-164 | A run is over exactly when its last act is a terminal event |
| `AgentTrace.NoPromptAfterDenial` | internal/agent/agent.go:160-163 | Once a batch with a denied call is settled the model is never prompted again |
| `AgentTrace.StartedWasApproved` | internal/agent/tools.go:60-78 | A tool call starts only after its own batch was settled, in which the first decision on that call was an approval |
| `AgentTrace.ExecutedAsProposed` | internal/agent/tools.go:60-78 | What is handed to a tool is a call that was just announced as started, with the name and arguments of its proposal |
| `AgentTrace.CancelledIff` | internal/agent/agent.go:149-153 | After a proposal the run is cancelled if and only if a cancellation, or the end of the closed channel, is read before every call is decided |
| `AgentTrace.CancelledStartsNothing` | internal/agent/agent.go:149-153 | A cancellation read while a call of the batch is undecided starts no tool: the run does nothing more than end as cancelled |
| `AgentTrace.StartedThenFinished` | internal/agent/tools.go:77-87 | A started tool reports its own completion or failure before any other event |
| `AgentTrace.OneResultPerCall` | internal/agent/tools.go:23-57 | When a batch completes, the results recorded since its proposal answer every proposed call exactly once |
| `AgentTrace.ProposedAsRecorded` | internal/agent/agent.go:130-148 | The calls in the recorded assistant message are the proposed ones, with their names and arguments, every id of the reply is among them, and each proposed call is the last call of its id in the reply |
| `AgentTrace.EveryContextPasses` | internal/agent/agent.go:91-104 | From a well-formed context, a run that records everything and injects nothing hands the model only contexts that the validator accepts after normalisation, in both modes |
| `AgentTrace.CleanLogIsWellFormed` | internal/agent/agent.go:84-147 | The conversation of such a run keeps every tool result behind a result or an assistant message with calls |
| `Outcomes.OutcomeIsTold` | internal/agent/tools.go:77-85 | Each execution of a tool is announced as completed with the very output it had, or as failed with the very error |
| `Outcomes.EndedWasExecuted` | internal/agent/tools.go:77-85 | What is announced as ended was handed to a tool, and nothing but messages the tool added came in between |
| `Outcomes.ResultTellsOutcome` | internal/agent/tools.go:23-53 | Every recorded result tells how its call ended: one that ran has the text just announced and is an error exactly when the call failed; any other was denied, and has the reason of the client's first decision on it |
| `Outcomes.MessageTellsInput` | internal/agent/agent.go:84-140 | Every other recorded message is the model's latest reply with its text and size, the user's prompt before the first prompt of the model, or a text that the tool just running adds |
| `Outcomes.TurnIsReply` | internal/agent/agent.go:96-128 | What is announced as the turn of the model is its reply to the latest prompt |
| `Outcomes.FailureIsTold` | internal/agent/agent.go:91-108 | A run fails with the error of the context that could not be built or of the generation that failed, or while a result is due that cannot be recorded |
| `Outcomes.ProposedAsReplied` | internal/agent/approvals.go:32-67 | Every proposed call is a call of the model's latest reply, the last of its id, with the name and the arguments given there |
| `Outcomes.ExecutedAsReplied` | internal/agent/tools.go:60-78 | Whatever is handed to a tool is a call that the model made in its reply to an earlier prompt, with the name and the arguments it gave there |
| `Sessions.NextContextPassesIff` | internal/conversation/context.go:79-135 | For a well-formed session log, the first context of the next run, with the user's prompt or without, is accepted in both modes if and only if the loaded history is empty or does not begin with a tool result |
| `Sessions.FirstPromptIsFirstContext` | internal/agent/agent.go:84-104 | The first context a clean run hands to the model is the one it was started with, followed by its own prompt, if there is one |
| `Sessions.CleanRunKeepsSession` | internal/agent/agent.go:84-147 | A clean run on such a context leaves a well-formed session log behind |
| `Sessions.EveryContextPassesIff` | internal/agent/agent.go:84-104 | On a part of a well-formed session log, every context a clean run hands to the model is accepted after normalisation, in either mode, if and only if that part does not begin with a tool result |
| `Conversation.RunOnWindow` | internal/agent/agent.go:72-104 | A run on the window of its session starts with the history the window loads, or with what it showed before if loading fails; the run is legal, the session log grows by exactly what it recorded, and the memory is empty once it is over |
| `Conversation.CleanRunOnGoodLog` | internal/agent/agent.go:84-147 | A clean run on the end of a good session log leaves a good log behind, unless that end begins with a tool result; then none of its contexts passes |
| `Conversation.RunInSession` | internal/agent/agent.go:72-104 | A run on a real window, whose session file takes every message and shows enough of a good log, hands the model contexts that are accepted, in either mode, if and only if the loaded history does not begin with a tool result, and then leaves a good log behind |
| `Rounds.EveryRunComesInRounds` | internal/agent/agent.go:48-165 | The events of every run come in rounds: a start, then turns; a turn with calls is followed by its proposal, calls of it that are started once and ended one after the other, and a completion, behind which there is another turn exactly when every call was started; and nothing follows a terminal event |
| `Rounds.ForwardedInRounds` | internal/agent/runner.go:109-146 | So do the events as the runner forwards them |
| `AgentLoop.Agent.Ask` | internal/agent/agent.go:90-104 | What is handed to the model is the context the window builds at that moment |
| `AgentLoop.Agent.AddMessage` | internal/conversation/context.go:111-122 | A message the window takes is recorded, in the conversation, the memory and the session log alike; one it refuses leaves all of them as they were |
| `AgentLoop.Agent.Loop` | internal/agent/agent.go:48-165 | On a window, and whatever the model, the tools, the commands and the conversation do, the run is legal, and it ends unless a reply or a decision never comes |
| `AgentLoop.Agent.Turn` | internal/agent/agent.go:90-164 | One turn either makes the loop ready for the next prompt, ends the run, or waits for the client |
| `AgentLoop.Agent.Propose` | internal/agent/agent.go:130-148 | The reply is recorded, announced and proposed with one and the same calls, the last of each id, with the names and arguments the model gave them and the previews of their tools |
| `AgentLoop.Agent.Decide` | internal/agent/agent.go:149-164 | A cancellation or a closed channel before every call is decided cancels the run and does nothing else, an open channel that decides nothing leaves it waiting, and only otherwise is the batch settled and executed |
| `AgentLoop.Agent.ExecuteTools` | internal/agent/tools.go:13-58 | All decisions are carried out with one recorded result each, unless the conversation refuses one |
| `AgentLoop.Agent.ExecuteToolCall` | internal/agent/tools.go:60-87 | A denied call is answered with its reason and starts nothing; a granted one is announced, executed with the name and arguments it was proposed with, and reported as completed with its output or as failed with its error |
| `AgentLoop.Agent.RecordResult` | internal/agent/tools.go:25-53 | What is recorded is that text, under the call's id and name, as an error exactly when the call failed or was denied |
| `AgentLoop.CollectedMaySettle` | internal/agent/approvals.go:79-114 | The collected decisions split the batch into calls first approved and calls first denied, read from the shortest prefix that decides it and without a cancellation |
| `Runner.Forward` | internal/agent/runner.go:111-145 | Forwards every event up to the first terminal one, unchanged but for the session and agent name in the start event, counts the turns, and closes right after the terminal event |
| `Runner.TerminalComesLast` | internal/agent/runner.go:139-144 | In the agent's channel a terminal event is the last one, and it is there exactly when the run is over |
| `Runner.WholeRunIsForwarded` | internal/agent/runner.go:109-146 | The runner's caller sees the whole run in order, and the channel is closed exactly when the run is over |
| `Runner.ForwardRun` | internal/agent/runner.go:109-146 | The loop composed with any legal run of the agent forwards it completely |
| `Server.OutcomeIsAllowed` | internal/protocol/server.go:463-473 | True exactly when an option was selected and the first option with that id is of an allow kind |
| `Server.OnlyAllowAllows` | internal/protocol/server.go:348-351 | Of the options the server offers, exactly the answer that selects "allow" allows |
| `Server.Handler.SendCommand` | internal/protocol/server.go:446-461 | A command leaves while there is room for it in the channel, and otherwise the send never returns |
| `Server.Handler.AskPermission` | internal/protocol/server.go:337-369 | Each proposed call is announced, asked about, and answered with the one command its answer stands for, unless that finds no room |
| `Server.Handler.ProcessEvent` | internal/protocol/server.go:311-399 | Only terminal events end the prompt, a completed run as the end of the turn, a cancelled one as cancelled, a failed one with its error; only a proposal sends the agent commands and can hang; and each event causes exactly its own updates |
| `Server.EventTells` | internal/protocol/server.go:311-386 | Update by update: reasoning and text of a turn, for each call of a proposal its announcement, its request and the command its answer stands for, and for each start and end of a call the update that says so |
| `Server.Handler.HandleEvents` | internal/protocol/server.go:283-308 | Events are handled one by one, in order, and what leaves the loop is exactly what each of them causes; nothing is handled after a terminal event or an interruption |
| `Server.Handler.ForwardEvents` | internal/protocol/server.go:270-309 | The prompt hangs if and only if the commands the loop means to send exceed the room for them, and then everything in front of the first one too many has left; otherwise it ends with the first terminal event, the closed channel, or the lost connection or request; the stop reason says which, and only the last of these sends the agent a cancellation |
| `Server.LabelsDoNotMatter` | internal/agent/runner.go:113-116 | The labels of the start event make no difference to what the event loop does |
| `Server.CommandsMatchRequests` | internal/protocol/server.go:336-369 | The event loop sends the agent exactly one command for each permission request |
| `Server.CallIsAsked` | internal/protocol/server.go:336-369 | Every proposed call is asked about within its own proposal, and answered to the agent right after, by the command that stands in the stream where the call stands among all requests |
| `Permissions.SettledByItsVerdicts` | internal/protocol/server.go:336-369 | Over whole runs, every batch is settled by exactly the verdicts on the proposal before it, one for each call and in its order, and grants exactly the calls for which the client selected "allow"; no verdict is left over |
| `Permissions.NoStartWithoutPermission` | internal/protocol/server.go:336-369 | Across server and agent: a tool call is announced as started only after its own batch was settled, for whose proposal the client was asked about that very call and selected "allow" |
| `Permissions.NoToolWithoutPermission` | internal/protocol/server.go:336-369 | Across server and agent: whatever is handed to a tool has the id, name and arguments of a call that the client was shown and allowed, in the proposal of the call's own batch; the approval read for it is the one sent right after that answer |
| `Permissions.SentSoFar` | internal/protocol/server.go:283-308 | Whatever part of its stream the event loop has let out, the commands among it are the beginning of those for the whole run |
| `Permissions.ServeRun` | internal/protocol/server.go:270-309 | Runner and event loop behind any run of the agent send the commands for that run's own events, each once and in order, and answer by its last event; undisturbed and with room for them all, the loop does not hang, handles every event, and answers the prompt exactly when the run is over |
| `ClientView.UpdateSpeaks` | internal/protocol/server.go:311-386 | Every update the client gets speaks of one event of the run, and stands in that event's part of what leaves the loop |
| `ClientView.ToldEndWasAllowed` | internal/protocol/server.go:370-386 | From the client back to the tool: when the client is told that a call ended, it was asked about that call before and allowed it, the call was executed with the name and arguments it was asked about, and what it is told is how that execution ended |
| `PromptChannel.StepKeepsInv` | internal/protocol/server.go:446-461 | While agent, event loop and channel take turns over a whole uncancelled prompt, the loop is never ahead of the requests it handled, the channel never over its capacity, and the agent never beyond the verdicts on its own batch |
| `PromptChannel.UncancelledNeverHangs` | internal/protocol/server.go:446-461 | In a prompt that nobody cancels, whenever the event loop has a verdict to send, there is room for it or the agent takes a command |
| `PromptChannel.RestsOnlyWhenDone` | internal/protocol/server.go:270-309 | A prompt that nobody cancels stops only when the run is over and every event of it is handled, with every verdict sent and taken |
| `PromptChannel.StopsInTime` | internal/protocol/server.go:270-309 | No schedule of such a prompt takes more steps than there are acts, events, and commands to send and to take, so it does stop |
| `PromptChannel.ServeUncancelled` | internal/protocol/server.go:270-309 | Over a command channel of any capacity but none, an undisturbed event loop behind an uncancelled run sends every verdict on it and answers the prompt exactly when the run is over |
| `CommandChannel.StepKeepsInv` | internal/protocol/server.go:446-461 | Whoever sends or takes next, the verdicts pass through the channel in order, each once, it never holds more than its capacity, and nothing is taken behind a cancellation |
| `CommandChannel.OnlyACancellationHangs` | internal/protocol/server.go:446-461 | While a verdict is unsent, either it can be sent or the agent takes a command, until the agent takes a cancellation |
| `CommandChannel.RunHangsIff` | internal/protocol/server.go:446-461 | For every run of the channel over one proposal, with any number of cancellations before it and during it: once nothing moves, a verdict is unsent if and only if there was a cancellation and the verdicts and further cancellations behind the first one exceed the capacity |
| `CommandChannel.HangsBehindCancelIff` | internal/protocol/server.go:446-461 | The same of a channel at rest, by the place at which the first cancellation stands in it |
| `CommandChannel.HangsIff` | internal/protocol/server.go:446-461 | The balance behind that: when nothing moves any more, a verdict is still unsent if and only if verdicts and cancellations together exceed the commands taken by more than the capacity |
| `CommandChannel.LeftOverHangsIff` | internal/protocol/server.go:446-461 | When all cancellations come before the proposal, the loop hangs if and only if the verdicts and all but the first cancellation exceed the capacity |
| `CommandChannel.HangingIsFinal` | internal/protocol/server.go:446-461 | Once the event loop hangs, no step of anybody is possible any more; one more cancellation hangs as well |
| `CommandChannel.ComesToRest` | internal/protocol/server.go:446-461 | Left to the event loop and the agent, every state leads to one in which nothing moves any more |
| `CommandChannel.UncancelledFinishes` | internal/protocol/server.go:446-461 | Without a cancellation every verdict is sent and taken, and nothing is left in the channel |
| `CommandChannel.CancelledHangsIff` | internal/protocol/server.go:446-461 | Cancelled exactly once, the event loop hangs if and only if more verdicts come behind the cancellation than the channel holds |
| `CommandChannel.AskThroughChannel` | internal/protocol/server.go:336-369 | Over a channel used by any schedule until nothing moves, the event loop gets through a proposal if and only if the schedule does not overrun the channel, and otherwise fills it and hangs |
| `CommandChannel.SeventeenCallsHang` | internal/agent/agent.go:40-42 | With the capacity of sixteen and one cancellation before the first verdict, seventeen calls end with sixteen verdicts in the channel and the seventeenth never sent |
| `CommandChannel.TwoCallsHang` | internal/agent/agent.go:40-42 | Behind sixteen cancellations, two calls end with the second verdict never sent |
| `CommandChannel.OneCallHangs` | internal/agent/agent.go:40-42 | Behind sixteen cancellations and one more after the agent has taken the first, a single call ends with its verdict never sent |
| `Server.VerdictsDecideBatch` | internal/protocol/server.go:336-369 | The commands sent for a proposal decide its batch, and a call is granted if and only if the client selected "allow" for it |
| `Server.NoVerdictIsLeftOver` | internal/protocol/server.go:336-369 | No proper part of those commands decides the batch, so the agent reads them all and none is left for a later batch |

## Left out

- Connection: modelled on values, one step per critical section, instead of a class; a method per operation could not express the interleavings. Reading of malformed lines, contexts and the incoming requests of this endpoint are not part of a step.
- Wire.PromptSeesItsUpdates: models the direction from server to client line by line; of the other direction only the order of the request ids. Failed writes are excluded.
- AgentLoop.Agent.Loop: `decreases` on the model's replies, so a run is followed up to the last reply of an arbitrary finite script; token counting is a parameter, and the active skill is not modelled. The event channel is unbounded, so waiting for a slow reader is not modelled.
- AgentTrace.EveryContextPasses: stated for runs whose messages are all recorded and into which no skill is injected; `Validator.AcceptedIffPrepared` decides every other log.
- Server.Handler.ForwardEvents: the context snapshot that accompanies a completed turn, streamed deltas (never emitted by the agent), and the kind and parsed input in permission requests. The room in the command channel is a parameter; `PromptChannel` derives it for a whole prompt that nobody cancels, `CommandChannel` for one proposal with cancellations.
- EditArguments.ParseEdits: a line number beyond the range of Go's `int`, whose conversion is not defined.
- Window.Window.StartRun: sessions with several writers.
- ReadFile.Execute: file access errors and path checks; a line that is too long for the scanner is a refused read.
- The printing of hunk and new-file headers, the line hash, the JSON codec, previews of tools and new call ids are arbitrary functions given as parameters.
- The payload sent to the model for a merged group of results, which keeps only the first result's output, so nothing is claimed about it.
- File system, sockets, HTTP, processes, configuration files, command line, rendering, registries and skills.
- Cancellation while the model is being called, two prompts on one session, and two windows on one session file, which the code does not guarantee anything about.
