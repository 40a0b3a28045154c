# A verified model of the fkteams multi-agent chat core

This project is a Dafny model of the logic at the heart of the fkteams
multi-agent chat system, with proofs of what that logic promises. It covers:

- **The browser client** (`web/js`). The card state machine that turns
  server events into the transcript: stream chunks, messages, tool calls and
  results, actions, errors, cancels and the end of processing. Around it:
  - the replay of a saved conversation, the history list and its sort;
  - `@agent` and `#path` mentions, with their suggestion lists and keys;
  - the question navigator;
  - the client controller: sending, dispatch, notifications, reconnects and
    scrolling, modelled as a class whose methods follow the state functions.
- **Event taxonomy and history** (`fkevent`). How an agent's output becomes
  the events the client sees, and the per-session `HistoryRecorder`, which
  folds events into turns and saves and loads them.
- **The server handlers** (`server/handler`):
  - chat: request defaults, the runner cache, the prompt built from history,
    the socket encoding and how the event loop ends;
  - history files: session ids, display names, and load, delete and rename
    with their error codes;
  - the file listing;
  - auth tokens.
- **The `mdiff` library.** The Myers line diff as written (V-array trace and
  backtrack), hunk building, unified-diff formatting and parsing, and patch
  application with exact, loose and fuzzy matching. Proved end to end: a
  patch made from a diff turns the old text into the new one.
- **The agent tools** (`tools`):
  - the line-buffer file tools, in both generations;
  - the todo list;
  - the command-safety classifiers of the shell and ssh tools;
  - document sampling;
  - the uv runner's timeout clamps, arguments and syntax-check parser.
- **Shared utilities** (`common`, `cli`):
  - chunk merging (`ConcatMessages`);
  - the resource cleaner, the reset-able once, and the input history;
  - the CLI's continuation buffer, mentions, mode switch and prompts.
- **Conversation compaction** (`agents/leader/summary`). The token
  estimate, the partition into leading messages and tool-call blocks, the
  choice of recent blocks, and the compacted conversation.

Each source file maps to one module; `seqs.dfy`, `go_strings.dfy`,
`go_regexp.dfy` and `js_strings.dfy` hold the sequence facts and the Go and
JavaScript string functions the modules share.

Form follows the source:
- Pure helpers are functions.
- Objects that update fields are classes with `modifies`:
  - `HistoryRecorder`, `ResourceCleaner`, `OnceWithReset`, `InputBuffer`
    and the CLI session;
  - the runner cache and the command log;
  - the todo store and the file stores;
  - the patch target `FileStore`;
  - the browser client `ChatClient`.
- Loops are methods proved against reference functions.

Several things become parameters:
- clocks, fresh ids and directory listings;
- JSON parsing and the choices made by Go's map order;
- file contents and the results of I/O.

## Model

| member | source | states |
|---|---|---|
| MdiffDiff.Diff | mdiff/diff.go:27-107 | the edits turn the old lines into the new lines (old side and new side of the script are exactly the two inputs), every edit carries the line numbers it stands at, and the script keeps as many lines as a longest common subsequence, so by ShortestScript it is a shortest edit script |
| MdiffDiff.Trimmed | mdiff/diff.go:91-106 | Equal edits for the common prefix, the shifted middle script and Equal edits for the common suffix form a positioned script between the whole files that keeps prefix + LCS(middle) + suffix lines |
| MdiffDiff.Middle | mdiff/diff.go:71-89 | the three middle cases (nothing, only insertions, only deletions, Myers) each give a positioned script between the middle parts, starting at the prefix length, that keeps LCS(middle) lines |
| MdiffDiff.CommonPrefix | mdiff/diff.go:52-59 | the count is a common prefix of both files and is maximal: the next lines differ when both exist |
| MdiffDiff.CommonSuffix | mdiff/diff.go:61-64 | the count is a common suffix that does not overlap the prefix, and is maximal |
| MdiffDiff.InsertAll | mdiff/diff.go:35-41 | one Insert per new line, numbered from the given new position: a script from nothing to the lines |
| MdiffDiff.DeleteAll | mdiff/diff.go:43-49 | one Delete per old line, numbered from the given old position: a script from the lines to nothing |
| MdiffDiff.EqualRun | mdiff/diff.go:93-104 | one Equal per line of a common run, numbered on both sides from the given positions, keeping every line |
| MdiffDiff.ShiftAll | mdiff/diff.go:84-88 | every edit of the middle script moved by the prefix length on both sides, each in place |
| MdiffDiff.ShiftScript | mdiff/diff.go:84-88 | shifting a positioned script by p gives the same script positioned p further on both sides |
| MdiffDiff.MyersDiff | mdiff/diff.go:110-150 | the rounds d = 0, 1, ... with a copy of v into trace before each, stopping at the first round that reaches (n, m), give through backtrack a positioned script between the inputs keeping LCS-many lines |
| MdiffDiff.Sweep | mdiff/diff.go:127-146 | one round of the k loop: it reaches (n, m) exactly when d is the edit distance, and otherwise v afterwards holds the furthest points of round d |
| MdiffDiff.Visit | mdiff/diff.go:128-141 | one turn of the k loop stores in v the furthest point of round d on diagonal k |
| MdiffDiff.Advance | mdiff/diff.go:128-139 | the landing point chosen from the neighbouring diagonal of round d - 1 followed by the snake of matching lines |
| MdiffDiff.FurthestAt | mdiff/diff.go:127-141 | Myers' lemma: round d on diagonal k goes at least as far as every point on k that costs at most d |
| MdiffDiff.ReachesEnd | mdiff/diff.go:143-145 | a round that reaches (n, m) is the round numbered by the length of a shortest edit script, on diagonal n - m |
| MdiffDiff.Backtrack | mdiff/diff.go:153-200 | from (n, m) back through the recorded rounds: the edits it emits, reversed, turn the old lines into the new ones, are positioned from (0, 0) and contain exactly d insertions and deletions |
| MdiffDiff.UnwindRounds | mdiff/diff.go:161-190 | the loop over d down to round 0 keeps the emitted edits the reverse of a positioned script from the point reached to (n, m) |
| MdiffDiff.BackRound | mdiff/diff.go:162-189 | one turn undoes the snake of round d with Equal edits and then the Insert (x equals prevX) or the Delete that led onto it |
| MdiffDiff.PrevPoint | mdiff/diff.go:163-173 | prevK and prevX are the diagonal and point of round d - 1 that round d started from |
| MdiffDiff.UndoInsert | mdiff/diff.go:181-183 | the Insert ending at (x, y) writes new line y - 1 |
| MdiffDiff.UndoDelete | mdiff/diff.go:184-187 | the Delete ending at (x, y) drops old line x - 1 |
| MdiffDiff.WalkBack | mdiff/diff.go:175-179 | the Equal edits of one snake from its end back to its start |
| MdiffDiff.UnwindFirstSnake | mdiff/diff.go:192-196 | the snake of round 0 from the origin, emitted last |
| MdiffDiff.ReverseEdits | mdiff/diff.go:203-207 | swapping from both ends towards the middle leaves the array holding the reverse of its old contents |
| MdiffDiff.ReverseReverse | mdiff/diff.go:198 | reversing twice gives the sequence back, so the reversed emission order is script order |
| MdiffDiff.ShortestScript | mdiff/diff.go:26 | a script between two files that keeps LCS-many lines has no more insertions and deletions than any other script between them |
| MdiffDiff.ScriptEqualsBound | mdiff/diff.go:26 | no script between two files keeps more lines than their longest common subsequence |
| MdiffDiff.SidesLength | mdiff/diff.go:15-24 | old length plus new length equals the number of edits plus the number of Equal edits |
| MdiffHunks.UnifiedDiff | mdiff/format.go:40-75 | the file diff is the hunk list of an edit script that turns the old lines into the new ones with LCS-many kept lines (contextLines of 0 or less meaning 3); with HunksSorted and NoHunksIffNoChange it is empty exactly when nothing changed |
| MdiffHunks.AnyChange | mdiff/format.go:53-60 | the scan answers true exactly when some edit is an Insert or a Delete |
| MdiffHunks.NoHunksIffNoChange | mdiff/format.go:53-66 | buildHunks yields no hunk if and only if no edit is a change, so the early return and buildHunks agree |
| MdiffHunks.BuildHunks | mdiff/format.go:78-196 | the hunks are one per maximal run of included edits, in order |
| MdiffHunks.MarkIncluded | mdiff/format.go:84-106 | an edit is included exactly when it lies within contextLines of some change |
| MdiffHunks.Widen | mdiff/format.go:97-104 | the two context loops around change i set exactly the flags from i - c to i + c and keep the others |
| MdiffHunks.ChangeIncluded | mdiff/format.go:87-92 | every changed edit is included |
| MdiffHunks.GroupRuns | mdiff/format.go:108-193 | the grouping loop builds one hunk per maximal run of included flags, in the order of the runs |
| MdiffHunks.FindRunEnd | mdiff/format.go:117-121 | the run found ends at the first excluded edit after its start, or at the end |
| MdiffHunks.SpansMaximal | mdiff/format.go:110-121 | every run is non-empty, wholly included, and bounded by excluded edits or the ends |
| MdiffHunks.SpansOrdered | mdiff/format.go:110-121 | the runs are disjoint and in increasing order |
| MdiffHunks.BuildHunk | mdiff/format.go:123-192 | the hunk of a run is its lines, its two counts and its start lines as HunkOf defines them |
| MdiffHunks.ScanRun | mdiff/format.go:132-158 | the diff lines are the run's lines, the counts are the sizes of its old and new sides, and the start positions are the first ones the run sets |
| MdiffHunks.HunkShape | mdiff/format.go:160-184 | for a positioned script, a hunk's counts are the sizes of its run's two sides, its start lines are the 1-based line numbers where the run begins (0 for an empty side), and its lines read exactly the run's old and new texts |
| MdiffHunks.HunksSorted | mdiff/format.go:108-193 | with at least one line of context the hunks come in increasing order of old start line |
| MdiffFormat.FormatFileName | mdiff/format.go:240-245 | an empty name is written as /dev/null and any other name unchanged; the result is never empty |
| MdiffFormat.FormatFileDiff | mdiff/format.go:199-223 | the text is FileText: nothing for a diff without hunks, otherwise the ---/+++ header and, per hunk, the @@ line and one prefixed line per diff line |
| MdiffFormat.WriteHunk | mdiff/format.go:208-219 | the writes of one hunk extend the text by exactly that hunk's lines, each terminated by a newline |
| MdiffFormat.FormatMultiFileDiff | mdiff/format.go:226-237 | the text is the concatenation of the file texts |
| MdiffFormat.FileTextEmptyIff | mdiff/format.go:200-202 | a file diff writes no text if and only if it has no hunks |
| MdiffFormat.MultiTextLines | mdiff/format.go:226-237 | the multi-file text is the file texts' lines, each followed by a newline |
| MdiffFormat.SplitTerminated | mdiff/parse.go:15-19 | splitting newline-terminated lines at newlines gives the lines back plus one empty part, which the parser drops |
| MdiffParse.ParseFileNameAsWritten | mdiff/parse.go:109-119 | the name field with a tab-separated timestamp removed and then a/ and b/ each stripped, as written |
| MdiffParse.ParseFileNameAsWrittenStripsTwice | mdiff/parse.go:115-117 | a name under a/ that itself starts with b/ loses both prefixes |
| MdiffParse.ParseFileNameAsWrittenConfig | mdiff/mdiff_test.go:404-410 | the as-written parse turns "--- a/b/config.go" into "config.go", not the "b/config.go" the test expects |
| MdiffParse.ParseFileName | mdiff/parse.go:109-119 | the corrected parse: the timestamp is removed and exactly one git prefix, a/ or else b/, is stripped |
| MdiffParse.ParseFileNameStripsOne | mdiff/mdiff_test.go:404-418 | a name written after a/ or b/ comes back exactly, so "a/b/config.go" gives "b/config.go" and "b/a/util.go" gives "a/util.go" |
| MdiffParse.ParseFileNameConfig | mdiff/mdiff_test.go:404-410 | the test input gives "b/config.go", as the test expects |
| MdiffParse.ParseFileNamePlain | mdiff/parse.go:109-119 | a name without a prefix and a tab comes back unchanged |
| MdiffParse.ParseFileNameTimestamp | mdiff/parse.go:111-114 | anything after a tab is ignored |
| MdiffParse.ParseRangeNoComma | mdiff/parse.go:224-239 | a range without a comma parses exactly when its start is a number, and then has count 1 |
| MdiffParse.ParseRangeItoa | mdiff/parse.go:224-239 | a range written as two decimal numbers joined by a comma parses back to those two numbers |
| MdiffParse.DropTrailingEmpty | mdiff/parse.go:16-19 | the result is a prefix of the lines that does not end in an empty line, and only empty lines were dropped |
| MdiffParse.HunkBody | mdiff/parse.go:137-185 | the body loop never moves backwards and stays within the lines |
| MdiffParse.ReadHunkBody | mdiff/parse.go:137-185 | the loop of parseHunk reads the diff lines HunkBody defines and stops at the index it defines |
| MdiffParse.ParseHunk | mdiff/parse.go:122-188 | parseHunk is ParseHunkAt: a header error at line start + 1, or the hunk and the index after it, strictly past the header |
| MdiffParse.ReadHunks | mdiff/parse.go:83-103 | the hunk loop of parseOneFileDiff gives FileBody: the hunks up to the next file header or the end, or the first hunk error |
| MdiffParse.FileBodySkip | mdiff/parse.go:90-94 | a line that neither opens a file diff nor a hunk is skipped |
| MdiffParse.FileBodyEnd | mdiff/parse.go:84-88 | the hunks end at the end of the text or where the next ---/+++ pair begins |
| MdiffParse.ParseOneFileDiff | mdiff/parse.go:68-106 | parseOneFileDiff is ParseOneAt: an end-of-input error when the +++ line is missing, otherwise the two names and FileBody from start + 2 |
| MdiffParse.ReadFiles | mdiff/parse.go:21-49 | the file loop gives FilesFrom from line 0 |
| MdiffParse.FilesFromSkip | mdiff/parse.go:25-40 | blank lines and lines that do not open a ---/+++ pair are skipped |
| MdiffParse.FilesFromErr | mdiff/parse.go:42-45 | a file diff that fails fails the whole text, with its 1-based line number |
| MdiffParse.ParseMultiFileDiff | mdiff/parse.go:10-52 | the result is ParseMulti: an empty diff for blank text, otherwise the file loop over the split lines without the trailing empty ones |
| MdiffParse.ParseFileDiff | mdiff/parse.go:55-64 | the first file diff of the text, an empty one when there is none, or the parse error |
| MdiffRoundTrip.ParseHunkHeaderRoundTrip | mdiff/parse.go:191-221 | a hunk header as format.go:209 writes it parses back to the hunk's four numbers (each in the int64 range) |
| MdiffRoundTrip.HunkBodyRoundTrip | mdiff/parse.go:141-185 | the body loop reads written diff lines back, together with the counts the header announces, and stops right after them |
| MdiffRoundTrip.HunkRoundTrip | mdiff/parse.go:122-188 | parseHunk reads a written hunk back and stops right after its last line |
| MdiffRoundTrip.FileBodyRoundTrip | mdiff/parse.go:83-103 | the hunk loop reads written hunks back, up to the end of the text or the next file diff |
| MdiffRoundTrip.OneFileRoundTrip | mdiff/parse.go:68-106 | parseOneFileDiff reads a written file diff back, names included |
| MdiffRoundTrip.FilesFromRoundTrip | mdiff/parse.go:21-49 | the file loop reads the written lines of a list of file diffs back as that list |
| MdiffRoundTrip.TextLinesTerminated | mdiff/parse.go:15-19 | splitting newline-terminated lines and dropping the trailing empty part gives the lines back |
| MdiffRoundTrip.ParseMultiRoundTrip | mdiff/parse.go:10-52 | ParseMultiFileDiff of the text FormatMultiFileDiff writes gives back the same file diffs (names without a/ or b/ prefix, tab or newline, lines without newline, consistent counts) |
| MdiffRoundTrip.ParseFileRoundTrip | mdiff/parse.go:55-64 | ParseFileDiff of the text FormatFileDiff writes gives back the same file diff |
| MdiffPatchRoundTrip.GapUnchanged | mdiff/format.go:84-106 | a stretch of edits left out of every hunk holds no change, so old and new lines agree there |
| MdiffPatchRoundTrip.HunkPlace | mdiff/format.go:160-184 | each hunk of a positioned script starts and ends at the old-line positions of its run, and its old lines occur exactly there in the old file |
| MdiffPatchRoundTrip.LayoutSpliced | mdiff/patch.go:132-155 | splicing the hunks of a script into its old lines, each at its exact place, gives its new lines |
| MdiffPatchRoundTrip.ForwardUnifiedHunks | mdiff/patch.go:80-158 | with at least one line of context every hunk UnifiedDiff builds is found at its exact place, and the forward merge turns the old lines into the new ones |
| MdiffPatchRoundTrip.PatchedUnifiedHunks | mdiff/patch.go:42-65 | applyHunks on the hunks of a positioned script gives the script's new lines |
| MdiffPatchRoundTrip.PatchedFileDiffOf | mdiff/patch.go:42-65 | applyHunks on the hunks of UnifiedDiff's file diff gives the new lines whatever the context setting |
| MdiffPatch.MatchAtLines | mdiff/patch.go:319-357 | the three matchers by mode: out of range is no match, otherwise every pattern line equals its file line exactly, up to trailing blanks, or up to surrounding spaces |
| MdiffPatch.MatchModesWeaken | mdiff/patch.go:319-357 | an exact match is a loose match, and a loose match is a normalized match |
| MdiffPatch.SearchMatch | mdiff/patch.go:301-316 | searchMatch returns Search: the hint first, then hint - offset and hint + offset for offsets 1 to 100 |
| MdiffPatch.TryOffset | mdiff/patch.go:307-313 | one offset round tries the lower position, then the upper one within the last possible start |
| MdiffPatch.SearchSpec | mdiff/patch.go:301-316 | the position found matches and lies within 100 lines of the hint, no position tried before it matches, and -1 means no position within 100 lines matches |
| MdiffPatch.SplitLinesJoin | mdiff/patch.go:548-558 | joining the split lines with newlines and restoring a final newline gives the text back, and no line holds a newline |
| MdiffPatch.SplitLinesOfJoin | mdiff/patch.go:548-558 | lines without newlines, written with a newline after each, split back into themselves |
| MdiffPatch.CountOld | mdiff/patch.go:105-110 | the count of a hunk's Equal and Delete lines |
| MdiffPatch.CheckContext | mdiff/patch.go:114-130 | the check passes exactly when the hunk's old lines match the file from the start index, and otherwise names the first mismatching file line |
| MdiffPatch.ReplayHunk | mdiff/patch.go:136-147 | the replay appends the file's line for each Equal, skips a file line for each Delete and appends each Insert's text |
| MdiffPatch.ForwardStep | mdiff/patch.go:92-150 | one round rejects hunk i (overlap, out of range, mismatch) exactly as ForwardFrom does, or moves the loop to the next hunk with the merged lines |
| MdiffPatch.ApplyHunksForward | mdiff/patch.go:80-158 | applyHunksForward is Forward: the first rejection, or the merged lines with the rest of the file copied at the end |
| MdiffPatch.ForwardIff | mdiff/patch.go:80-158 | the forward strategy succeeds if and only if the hunks sit in order, without overlap, at the lines they claim, their old lines matching the file (up to trailing blanks when loose) |
| MdiffPatch.ForwardLength | mdiff/patch.go:81-89 | a merge has the length the capacity estimate reserves: the file's lines plus, per hunk, its new lines less its old ones |
| MdiffPatch.ForwardExact | mdiff/patch.go:132-155 | an exact merge replaces each hunk's old lines by its new lines and keeps every other line |
| MdiffPatch.ExtractOldLines | mdiff/patch.go:200-208 | the texts of the hunk's Equal and Delete lines |
| MdiffPatch.ExtractNewLines | mdiff/patch.go:269-275 | the texts of the hunk's Equal and Insert lines |
| MdiffPatch.LocateHunk | mdiff/patch.go:220-227 | the exact search, then the loose one, then the normalized one, each only after the previous failed on a non-empty pattern |
| MdiffPatch.ApplyOneHunk | mdiff/patch.go:211-285 | applyOneHunk is ApplyOne |
| MdiffPatch.ApplyOneSpec | mdiff/patch.go:211-285 | it fails, naming the hunk, its line and the file length, exactly when no position within 100 lines matches even normalized; otherwise it splices the new lines in at a matching position within 100 lines, and at the hunk's own line when that matches exactly |
| MdiffPatch.ApplyHunksFuzzy | mdiff/patch.go:163-197 | applyHunksFuzzy is Fuzzy: hunks applied from the last to the first, failures collected |
| MdiffPatch.FuzzySpec | mdiff/patch.go:163-197 | a total failure reports the first hunk; a partial result has 0 < applied < total, applied plus failures is the total, and the failures are listed from the last hunk down |
| MdiffPatch.SortHunksSpec | mdiff/patch.go:68-75 | the sorted copy is ordered by old start line and is a permutation of the hunks |
| MdiffPatch.SortHunksSorted | mdiff/patch.go:68-75 | hunks already in order are left as they are |
| MdiffPatch.ApplyHunks | mdiff/patch.go:42-65 | ApplyHunks is Patched: no hunks keep the lines, else sorted hunks through exact forward, loose forward, then fuzzy |
| MdiffPatch.PatchedSpec | mdiff/patch.go:42-65 | no hunks keep the file; the hunks are taken sorted and as a permutation; hunks that sit exactly where they claim replace their old lines by their new ones; a total failure names the first sorted hunk; a partial result accounts for every hunk |
| MdiffPatch.NameErrors | mdiff/patch.go:370-373 | every error, in order, with the file name set and nothing else changed |
| MdiffPatch.ApplyFileDiff | mdiff/patch.go:360-394 | ApplyFileDiff is FileApplied |
| MdiffPatch.FileAppliedSpec | mdiff/patch.go:360-394 | no hunks keep the content; every reported error names the old file; a success joins the patched lines and keeps a final newline exactly when the content had one |
| MdiffPatch.FileStore.ReadFile | mdiff/patch.go:398 | the file's content when it exists, nothing otherwise |
| MdiffPatch.FileStore.WriteFile | mdiff/patch.go:399 | a write succeeds unless the path is read-only, and then sets exactly that path |
| MdiffPatch.FileStore.DeleteFile | mdiff/patch.go:400 | a delete succeeds for an existing, writable path, and then removes exactly that path |
| MdiffPatch.CollectInserted | mdiff/patch.go:456-463 | the Insert texts of all hunks, in order |
| MdiffPatch.PatchOneFile | mdiff/patch.go:429-541 | one file of the loop changes the store and reports its result as ApplyOneFile says |
| MdiffPatch.ApplyMultiFileDiff | mdiff/patch.go:420-545 | the report and the new files are MultiApplied of the old files |
| MdiffPatch.ApplyOneFileSpec | mdiff/patch.go:429-541 | the result names the target path; it succeeds exactly when it carries no error; only a success carries a warning; a failure changes nothing and no other path ever changes; a deletion succeeds exactly for an existing writable file and removes it; a creation writes the inserted lines plus a newline; an update writes the patched text, with a warning exactly when only some hunks applied |
| MdiffPatch.MultiAppliedCounts | mdiff/patch.go:420-545 | one result per file in order, each naming its target; succeeded counts the successes and succeeded + failed is the number of files |
| MdiffPatch.MultiAppliedFrame | mdiff/patch.go:420-545 | a file that no diff of the set targets is left as it was |
| MdiffApi.DiffFiles | mdiff/mdiff.go:46-50 | the file diff is the hunk list of a shortest edit script between the split lines of the two contents |
| MdiffApi.PatchText | mdiff/mdiff.go:74-80 | PatchText parses the first file diff of the patch text and applies it, or returns the parse error |
| MdiffApi.PatchTextBlank | mdiff/mdiff.go:74-80 | a blank patch text leaves the original unchanged |
| MdiffApi.FileDiffOfWf | mdiff/format.go:40-75 | a diff of newline-free files of int64-countable size, under names the parser reads back, is one that formatting and parsing preserve |
| MdiffApi.ApplyDiffRoundTrip | mdiff/patch.go:360-394 | applying the file diff of an edit script between the lines of two contents to the old content gives the new content, when both agree on ending in a newline |
| MdiffApi.DiffPatchRoundTrip | mdiff/mdiff.go:46-80 | the diff DiffFiles makes, formatted and given to PatchText with the old content, gives the new content back (names the parser reads back, matching final newlines, int64-countable sizes) |
| MdiffApi.DiffChange | mdiff/mdiff.go:55-64 | one change's diff: old and new names are the path, or /dev/null for an empty content, over a shortest edit script between its contents |
| MdiffApi.DiffMultiFiles | mdiff/mdiff.go:53-70 | the kept diffs are those of the changes, in order, with a shortest script each, and only those that have hunks |
| MdiffApi.ShortestHasChanges | mdiff/format.go:53-66 | a shortest edit script holds a change if and only if the two line sequences differ |
| MdiffApi.ChangeKept | mdiff/mdiff.go:65-67 | a change's diff is kept if and only if its contents differ in their lines |
| MdiffApi.KeptDiffsChanged | mdiff/mdiff.go:53-70 | one kept file diff per change whose lines differ, in order and for no other change, named after the change or /dev/null |
| MdiffApi.TallyLines | mdiff/mdiff.go:108-115 | the innermost loop adds a hunk's Insert lines to insertions and its Delete lines to deletions |
| MdiffApi.TallyHunks | mdiff/mdiff.go:107-116 | the middle loop adds the counts of every hunk of a file |
| MdiffApi.Stat | mdiff/mdiff.go:102-119 | files changed is the number of file diffs, insertions and deletions the numbers of Insert and Delete lines over all hunks |
| MdiffApi.StatForwardLength | mdiff/mdiff.go:102-119 | a file diff whose hunks merge forward turns n lines into n + insertions - deletions lines |
| MdiffApi.StatDiffNet | mdiff/mdiff.go:102-119 | for a diff DiffFiles makes, insertions less deletions is the new line count less the old one |
| MdiffApi.PluralizeSpec | mdiff/mdiff.go:121-126 | the number in decimal (which reads back), a space and the singular word if and only if the number is 1 |
| MdiffApi.StatStringSpec | mdiff/mdiff.go:89-99 | the files part, then ", " and the insertions part when there are insertions, then ", " and the deletions part when there are deletions |
| MdiffApi.StatPartsDistinct | mdiff/mdiff.go:89-99 | the three parts of the summary never coincide |
| MdiffApi.StatPartsSpec | mdiff/mdiff.go:89-99 | the files part comes first, and the insertions (deletions) part is present if and only if there are insertions (deletions) |
| CommonOnce.OnceWithReset.constructor | common/onceWithReset.go:10-12 | a new guard is not triggered |
| CommonOnce.OnceWithReset.Do | common/onceWithReset.go:14-22 | the callback runs if and only if the guard was not triggered, and afterwards it is triggered |
| CommonOnce.OnceWithReset.Reset | common/onceWithReset.go:24-28 | afterwards the guard is not triggered |
| CommonOnce.OnceWithReset.IsTriggered | common/onceWithReset.go:30-34 | the flag, unchanged |
| CommonOnce.RunsWithoutReset | common/onceWithReset.go:14-22 | over the trace function Runs, whose steps follow the contracts of Do and Reset: without a Reset the callback runs once, at the first Do, and only when the guard started untriggered |
| CommonOnce.RunsBound | common/onceWithReset.go:14-28 | over Runs: every run after the first is paid for by a Reset |
| CommonOnce.ResetThenDoRuns | common/onceWithReset.go:14-28 | over Runs: a Reset followed by a Do always runs the callback |
| CommonInputHistory.SaveHistory | common/input_history.go:10-29 | the file holds each entry followed by a newline, in order |
| CommonInputHistory.LoadHistory | common/input_history.go:31-54 | a missing file is an empty history; otherwise the scanned lines through the sliding window of the last maxLines |
| CommonInputHistory.ClearHistory | common/input_history.go:56-65 | a missing file stays missing, an existing one becomes empty |
| CommonInputHistory.LastNSpec | common/input_history.go:43-48 | the window keeps min(length, maxLines) lines (none when maxLines is 0 or less), and they are the last ones, in order |
| CommonInputHistory.ScanSerialized | common/input_history.go:42-44 | scanning what SaveHistory wrote gives the entries back, for entries without newline or carriage return at the end |
| CommonInputHistory.SaveLoadRoundTrip | common/input_history.go:10-54 | loading what SaveHistory wrote gives the last maxLines entries |
| CommonCleaner.SafeExecute | common/resource_cleaner.go:97-105 | no error exactly when the callback succeeds; its error otherwise, and a panic becomes "panic during cleanup: " and its value |
| CommonCleaner.ResourceCleaner.constructor | common/resource_cleaner.go:19-24 | an empty registry without names |
| CommonCleaner.ResourceCleaner.Add | common/resource_cleaner.go:27-31 | one slot appended, names unchanged |
| CommonCleaner.ResourceCleaner.AddNamed | common/resource_cleaner.go:34-40 | one slot appended and the name mapped to its index |
| CommonCleaner.ResourceCleaner.Remove | common/resource_cleaner.go:43-58 | true exactly for a known name; that slot becomes nil when it exists, every other index is kept, and the name is forgotten |
| CommonCleaner.ResourceCleaner.RemoveLastAsWritten | common/resource_cleaner.go:61-71 | the last slot is dropped when there is one and the name map is left as it was, names of the dropped slot included |
| CommonCleaner.ResourceCleaner.RemoveLast | common/resource_cleaner.go:61-71 | corrected: the last slot is dropped and every name pointing at it is forgotten, which keeps the registry valid |
| CommonCleaner.StaleNameAsWritten | common/resource_cleaner.go:61-71 | after AddNamed("db", f), RemoveLast and Add(g), ExecuteNamed("db") runs g, a callback never registered under that name |
| CommonCleaner.StaleNameCorrected | common/resource_cleaner.go:61-71 | the same sequence with the corrected RemoveLast reports the name as not found |
| CommonCleaner.ResourceCleaner.Execute | common/resource_cleaner.go:74-94 | the live slots run newest first, their errors are collected in that order, and the registry is emptied |
| CommonCleaner.ResourceCleaner.ExecuteAndClear | common/resource_cleaner.go:108-114 | no error exactly when no callback failed, otherwise the first error of the run |
| CommonCleaner.ResourceCleaner.ExecuteNamed | common/resource_cleaner.go:117-138 | unknown name: not found; a nil or dropped slot: already gone; otherwise the slot's callback runs once, its slot becomes nil and the name is forgotten |
| CommonCleaner.ResourceCleaner.ExecuteNamedKeep | common/resource_cleaner.go:141-156 | the same three cases, and the registry is left unchanged |
| CommonCleaner.ResourceCleaner.Clear | common/resource_cleaner.go:159-164 | the registry is emptied without running anything |
| CommonCleaner.ResourceCleaner.Count | common/resource_cleaner.go:167-177 | the number of non-nil slots, the number of callbacks Execute would run |
| CommonCleaner.RunOrderSpec | common/resource_cleaner.go:81-87 | the run order lists exactly the live callbacks |
| CommonCleaner.FirstErrorIsLatest | common/resource_cleaner.go:108-114 | the first error reported comes from the latest-registered callback that fails, and every later one succeeds |
| CommonCleaner.NoErrorsSucceed | common/resource_cleaner.go:74-94 | a run that reports no error consists of callbacks that succeed |
| CommonMessage.Adopt | common/message.go:27-60 | one identity field: an empty chunk value leaves it, an unset field takes the chunk's value, an equal value is kept, and only a second, different value is a conflict |
| CommonMessage.Identify | common/message.go:27-60 | a chunk passes exactly when role, name, tool call id and tool name all adopt; each field then holds the earlier value or else the chunk's, and nothing else changes |
| CommonMessage.IdentifyChunk | common/message.go:27-60 | the four checks of the loop body, in order, as Identify |
| CommonMessage.AbsorbChunk | common/message.go:22-122 | one turn of the loop is Step: the nil-chunk error, the first conflict, or the pieces, tool calls and metadata added |
| CommonMessage.JoinContents | common/message.go:125-148 | the two builder passes set the content and the reasoning to the concatenated pieces |
| CommonMessage.ConcatMessages | common/message.go:10-151 | ConcatMessages is ConcatOf: the loop over the chunks, then the joined pieces |
| CommonMessage.StoppedStays | common/message.go:22-25 | once a chunk is refused, later chunks do not change the error |
| CommonMessage.FoldIdentity | common/message.go:22-60 | the loop gets through every chunk exactly when no chunk is nil and the chunks agree on every identity field, and then holds the first set value of each field |
| CommonMessage.ConcatMeaning | common/message.go:10-151 | concatenation succeeds if and only if no chunk is nil and the chunks agree on every identity field; the result then carries the first set value of each field, all non-empty contents and reasonings joined in order, the merged metadata and no tool calls |
| CommonMessage.ToolCallsDropped | common/message.go:71-73 | the tool calls are gathered by the loop but the result never carries them |
| CommonMessage.ConcatNothing | common/message.go:10-151 | no chunks give an empty message and no error |
| CommonMessage.NilChunkReported | common/message.go:23-25 | a nil chunk after agreeing chunks is reported with its index |
| CommonMessage.ConflictReported | common/message.go:27-60 | the first chunk that sets an identity field to a second value is reported naming the field and both values, when that chunk's earlier fields agreed |
| CommonMessage.MergeMetaParts | common/message.go:83-121 | merging metadata: present when either is, the later non-empty finish reason wins, usage is merged count by count, log probabilities are appended |
| CommonMessage.MetaPresence | common/message.go:83-85 | the result has metadata if and only if some chunk has it |
| CommonMessage.FinishReasonIsLast | common/message.go:88-91 | the finish reason is empty exactly when every chunk's is, and otherwise is the last non-empty one |
| CommonMessage.UsageIsMaximum | common/message.go:93-112 | usage is present exactly when some chunk reports it; each count is then at least every reported one and is one of them, or 0 when all are negative |
| CommonMessage.LogProbsJoined | common/message.go:114-120 | log probabilities are present exactly when some chunk has them, and are then all of them in order |
| CommonMessage.ToolNameErrorAsWrittenOmitsNames | common/message.go:53-59 | as written, two chunks of call_1 named read_file and write_file are reported with "call_1" twice; the corrected message names both tools |
| CommonMessage.ToolNameErrorAsWrittenIgnoresNames | common/message.go:57-58 | the as-written message does not depend on the tool names at all |
| CommonMessage.ToolNameErrorNamesIncoming | common/message.go:53-59 | the corrected message determines the incoming tool name |
| CliInput.InputBuffer.constructor | cli/input.go:15-20 | an empty buffer, not continuing |
| CliInput.InputBuffer.HandleInput | cli/input.go:23-38 | a trimmed line ending in a backslash is held without it and the buffer continues; any other line is joined with the held lines by newlines and returned, and the buffer is emptied |
| CliInput.InputBuffer.IsContinuing | cli/input.go:41-43 | the continuation flag, unchanged |
| CliInput.InputBuffer.Reset | cli/input.go:46-49 | an empty buffer, not continuing |
| CliInput.CommandLines | cli/input.go:32-33 | the joined command splits back into the held lines and the last one |
| CliInput.NameEnd | cli/input.go:56 | the end of the run of word or Han characters starting at i: all inside are name characters and the next one is not |
| CliInput.ExtractAgentMention | cli/input.go:53-62 | a name is found exactly when the trimmed input is @, a name character, and no newline after the spaces that follow the name; the name is then a run of name characters right after @ and the query has no newline; without a match the query is the trimmed input |
| CliInput.MentionRoundTrip | cli/input.go:53-62 | "@" + name + " " + query gives back the name and the query, for a trimmed one-line query |
| CliInput.GetPromptPrefix | cli/input.go:80-93 | the four modes have their own prefixes and anything else is "未知模式> " |
| CliInput.PromptPrefixInjective | cli/input.go:80-93 | different modes show different prefixes |
| CliInput.ParseWorkMode | cli/input.go:96-109 | the four mode names parse to themselves and anything else to team |
| CliSession.NextMode | cli/session.go:211-223 | the cycle team, deep, group, custom; an unknown mode goes to team; a known mode always changes |
| CliSession.NextModeCycle | cli/session.go:209-223 | four switches come back to the same mode and fewer do not |
| CliSession.Session.constructor | cli/session.go:31-39 | the given mode and history, no agent, an empty input buffer |
| CliSession.Session.HandleLine | cli/session.go:47-53 | an empty command while the buffer continues, otherwise the held lines and this one joined; a line ending in a backslash is held without it after the earlier ones, and a complete command empties the buffer |
| CliSession.Session.LivePrefix | cli/session.go:55-64 | the continuation prompt while continuing, otherwise the current agent's name and "> " when there is one, else the mode's prefix |
| CliSession.Session.SwitchMode | cli/session.go:210-234 | when a runner can be made for the next mode, the mode moves on, the agent is cleared and the new mode's name is returned; otherwise nothing changes |
| ServerAuth.AuthEnabled | server/handler/auth.go:21-29 | login is off unless FEIKONG_LOGIN_ENABLED equals "true" ignoring case; when it is on, a missing secret is fatal |
| ServerAuth.AuthEnabledIgnoresCase | server/handler/auth.go:22 | "TRUE" with a secret turns login on |
| ServerAuth.HexEncode | server/handler/auth.go:37 | two lower-case hexadecimal digits per byte |
| ServerAuth.HexDecode | server/handler/auth.go:47-51 | a decoded string has twice as many digits as bytes |
| ServerAuth.HexRoundTrip | server/handler/auth.go:37-51 | decoding an encoding gives the bytes back |
| ServerAuth.SplitToken | server/handler/auth.go:74-81 | no split without a dot; otherwise the two parts joined by a dot give the token and the second part has no dot (the cut is at the last dot) |
| ServerAuth.SplitTokenJoin | server/handler/auth.go:74-81 | a token built as head, dot, dot-free tail splits into exactly those |
| ServerAuth.LastBar | server/handler/auth.go:62-66 | the index of the last vertical-bar byte of the payload, or -1 when it has none |
| ServerAuth.ValidateToken | server/handler/auth.go:41-72 | a token is valid only when it splits, its first part decodes and the signature of the decoded payload equals its second part |
| ServerAuth.NoBarInvalid | server/handler/auth.go:62-66 | a payload without a vertical bar never validates, whatever its signature |
| ServerAuth.GenerateValidate | server/handler/auth.go:31-72 | a token generateToken made validates if and only if its expiry parses and lies after now |
| ServerAuth.PayloadExpiry | server/handler/auth.go:33-66 | the last vertical bar of a generated payload separates the user name from the expiry |
| ServerFiles.StrLessTransitive | server/handler/files.go:125 | the byte-wise string order is transitive (and, with StrLessIrreflexive and StrLessTotal, a strict total order) |
| ServerFiles.LessTransitive | server/handler/files.go:115-127 | the listing order, directories first, then newer first, then by name, is transitive |
| ServerFiles.LessTotal | server/handler/files.go:115-127 | two entries with different names are always ordered one way or the other |
| ServerFiles.SortFiles | server/handler/files.go:115-127 | the sorted listing is a permutation of the entries |
| ServerFiles.SortFilesSorted | server/handler/files.go:115-127 | the sorted listing is in the listing order |
| ServerFiles.SortedUnique | server/handler/files.go:115-127 | two sorted permutations of entries with distinct names are equal, so the order sort.Slice produces is determined |
| ServerFiles.VisibleSpec | server/handler/files.go:88-113 | the listed entries are exactly the directory's entries whose name does not start with a dot, with their path relative to the base |
| ServerFiles.GetFiles | server/handler/files.go:23-133 | no base directory or a cleaned sub-path containing ".." is an error with no data; success exactly when the full path is a directory, and the data is then the sorted visible entries |
| ServerFiles.ListingProperties | server/handler/files.go:86-127 | the listing is sorted, holds exactly the visible entries, and is the only sorted arrangement of them |
| ServerHistory.ExtractSessionID | server/handler/history.go:200-212 | a name without the prefix is returned whole; with it, the rest loses a final extension when a dot follows its first character |
| ServerHistory.SessionIDOfSavedFile | server/handler/history.go:200-212 | the file saved for a session, prefix, id, dot and extension, gives the id back |
| ServerHistory.SessionIDWithoutExtension | server/handler/history.go:200-212 | a dot-free rest is the id itself |
| ServerHistory.ParseStamp | server/handler/history.go:219-221 | only a 15-character id holding a real date and time parses |
| ServerHistory.FormatDisplayName | server/handler/history.go:215-227 | an id that parses as a timestamp is shown as "YYYY-MM-DD HH:MM:SS", any other as itself |
| ServerHistory.StampRoundTrip | server/handler/history.go:215-227 | an id written as "YYYYMMDD_HHMMSS" parses back to its date and time and is displayed formatted |
| ServerHistory.LoadHistoryFile | server/handler/history.go:73-114 | an empty name or one with ".." or "/" is 400; "." names the directory and is 500; another missing name is 404; a file that does not decode is 500; a loaded file carries its name, its content and the session id of its name |
| ServerHistory.DeleteHistoryFile | server/handler/history.go:117-148 | 400 for an empty or unsafe name; 404 for a missing file; 500 for "." or when removing fails; otherwise 200 with exactly that file removed; nothing changes on an error |
| ServerHistory.RenameHistoryFile | server/handler/history.go:151-197 | 400 for an empty or unsafe name; 404 when the old name does not exist; 409 when both exist ("." always exists); 500 when the old name is "." or renaming fails; otherwise 200 with the content moved to the new name; nothing changes on an error |
| ServerHistory.RenameKeepsFiles | server/handler/history.go:151-197 | a successful rename keeps the number of files and the content, and the old name is gone |
| ServerHistory.FileEntriesSpec | server/handler/history.go:45-47 | the listed entries are exactly the non-directory ones whose information can be read |
| ServerHistory.ListHistoryFiles | server/handler/history.go:26-70 | a missing directory lists nothing; an unreadable one is 500; otherwise 200 and one record per file entry whose information can be read, in directory order, with its display name and session id |
| ServerChat.SessionOf | server/handler/chat.go:99-102 | a session id is never empty: the given one, or "default" |
| ServerChat.ModeOf | server/handler/chat.go:103-106 | a mode is never empty: the given one, or "supervisor" |
| ServerChat.CacheGetIdempotent | server/handler/chat.go:26-56 | a runner, once cached under a key, is returned again by later lookups; a failed creation caches nothing; no cached runner is ever replaced |
| ServerChat.RunnerCache.constructor | server/handler/chat.go:20-23 | an empty cache |
| ServerChat.RunnerCache.GetOrCreateRunner | server/handler/chat.go:26-56 | the runner cached under the mode, or the one the mode selects (roundtable, custom, deep, otherwise supervisor), which is then cached |
| ServerChat.RunnerCache.GetOrCreateAgentRunner | server/handler/chat.go:59-87 | the runner cached under "agent_" + name, or a new one for a known agent, which is then cached; an unknown agent gives none and caches nothing |
| ServerChat.RunnerCache.ClearRunnerCache | server/handler/chat.go:90-95 | the cache is emptied |
| ServerChat.SelectedRunner | server/handler/chat.go:136-149 | without an agent name the mode (default supervisor) is looked up: a cached runner is returned with the cache unchanged, otherwise the mode's runner is made and cached; a cached agent returns its runner unchanged; an uncached agent gets a runner exactly when it is known, that agent's, and only then is it cached |
| ServerChat.ModeKeyShadowsAgent | server/handler/chat.go:26-87 | mode and agent runners share one cache: a mode named "agent_" + name shadows that agent with a supervisor runner |
| ServerChat.InputMessages | server/handler/chat.go:221-254 | the prompt always ends with the user's input; a system history message comes first exactly when there is a summary of some messages or any message at all; with a summary it holds the summary heading and summary, then the recent heading and the transcript of the unsummarized messages if any; without one it holds the transcript of every message, between the history markers |
| ServerChat.TranscriptAppend | server/handler/chat.go:234-246 | the transcript of two stretches of messages is the two transcripts joined |
| ServerChat.SummaryReplacesPrefix | server/handler/chat.go:227-241 | the full transcript is the summarized prefix's followed by the rest, and the history text is the summary followed by the transcript of only the later messages |
| ServerChat.WriteTranscript | server/handler/chat.go:234-236 | one "name: text" line per message from the given index on |
| ServerChat.BuildInputMessages | server/handler/chat.go:221-254 | buildInputMessages is InputMessages, so it builds the prompt InputMessages describes |
| ServerChat.PromptPrecedesRecording | server/handler/chat.go:131-133 | the prompt is built from the messages before the user's input is recorded, so it does not repeat that input |
| ServerChat.WsToolCall | server/handler/chat.go:278-285 | a tool call becomes its name and, only when non-empty, its arguments |
| ServerChat.ConvertEventForWS | server/handler/chat.go:266-295 | the frame is WsEvent: type and agent name always, every other field only when non-empty |
| ServerChat.WsRoundTrip | server/handler/chat.go:266-295 | reading a frame back gives the event with each tool call reduced to its name and arguments: nothing else is lost |
| ServerChat.EventLoop | server/handler/chat.go:176-216 | the frames and whether history is saved are LoopEnding of the steps |
| ServerChat.EndingMeaning | server/handler/chat.go:176-216 | history goes unsaved exactly when a lost connection ends the loop after clean steps; the only frame is processing_end exactly when every step went through |
| FkEvent.Run | fkevent/event.go:246-253 | delivering a plan hands over at most one event per step, stopping at the first callback error |
| FkEvent.RunAppend | fkevent/event.go:246-253 | running two plans one after the other is running their concatenation: the second runs only if the first delivered everything |
| FkEvent.RunStopped | fkevent/event.go:246-253 | once a prefix of a plan fails, the rest of the plan is never delivered |
| FkEvent.RunOne | fkevent/event.go:246-253 | a single event is delivered and its callback's answer is the result |
| FkEvent.RegularEvent | fkevent/event.go:81-99 | a complete message becomes a "tool_result" event for the tool role and a "message" event otherwise, carrying its content and tool calls |
| FkEvent.ContentEvent | fkevent/event.go:118-131 | a chunk with text becomes "tool_result_chunk" for the tool role and "stream_chunk" otherwise |
| FkEvent.LeastOf | fkevent/event.go:174-180 | every non-empty set of tool-call indices has a least element |
| FkEvent.MinKey | fkevent/event.go:174-180 | the least index of a non-empty set |
| FkEvent.AscendingKeys | fkevent/event.go:174-180 | the collected indices, each one an index of the map |
| FkEvent.AscendingKeysSpec | fkevent/event.go:174-180 | the indices sorted ascending: every index exactly once, strictly increasing |
| FkEvent.CallsPlan | fkevent/event.go:182-197 | one step per index: a "tool_calls" event with the merged fragments, or the merge error |
| FkEvent.PreparePrefix | fkevent/event.go:134-152 | the announcement plan for the first tool calls of a chunk is a prefix of the plan for all of them |
| FkEvent.WalkPrefix | fkevent/event.go:104-171 | events already sent for the first chunks of a stream stay a prefix of everything the stream sends |
| FkEvent.StreamPlanExtends | fkevent/event.go:101-199 | the merged tool calls come only after everything the receive loop sent |
| FkEvent.WalkStoppedStays | fkevent/event.go:109-116 | after a receive error nothing later in the stream is read |
| FkEvent.CallsPlanSnoc | fkevent/event.go:182-197 | the merged tool calls are sent one index at a time, in the sorted order |
| FkEvent.AnnounceCalls | fkevent/event.go:134-169 | the loop over a chunk's tool calls sends exactly the announcement plan, remembers the started indices and groups every indexed fragment |
| FkEvent.HandleChunk | fkevent/event.go:118-169 | one chunk: its text event, then its announcements, and the new started set and grouping |
| FkEvent.ReceiveLoop | fkevent/event.go:104-171 | the receive loop sends what Walk plans and ends with Walk's grouping and stop flag |
| FkEvent.EmitCalls | fkevent/event.go:182-197 | the final loop sends exactly CallsPlan, stopping at a merge or callback error |
| FkEvent.HandleStreamingMessage | fkevent/event.go:101-199 | handleStreamingMessage delivers exactly StreamPlan |
| FkEvent.ActionPlan | fkevent/event.go:201-244 | a transfer gives one "transfer" event and nothing else; otherwise one "interrupted" event per interrupt context in order, then an "exit" event exactly when the action exits |
| FkEvent.HandleAction | fkevent/event.go:201-244 | handleAction delivers exactly ActionPlan |
| FkEvent.ProcessAgentEvent | fkevent/event.go:42-79 | ProcessAgentEvent delivers exactly AgentPlan: the error alone, or the output events followed by the action events |
| FkEvent.AgentErrorAlone | fkevent/event.go:43-50 | an agent event with an error produces one "error" event and nothing from its output or action |
| FkEvent.OutputFailureSkipsAction | fkevent/event.go:52-56 | when delivering the output fails, the action is not reported |
| FkEvent.TallyAppend | fkevent/event.go:118-152 | the texts and announcements of two plans are those of each, joined |
| FkEvent.PrepareTally | fkevent/event.go:134-152 | each announcement marks one new, previously unstarted index of the chunk; announcements carry no text |
| FkEvent.GroupKeys | fkevent/event.go:155-167 | grouping adds exactly the indices of the indexed tool calls |
| FkEvent.ChunkTally | fkevent/event.go:118-152 | a chunk sends its text exactly when it is non-empty, and one announcement per newly started index |
| FkEvent.StreamTally | fkevent/event.go:104-171 | over an error-free stream the text events are exactly the non-empty chunk texts in order, and each index is announced at most once, only for indices that get merged |
| FkEvent.GroupFragments | fkevent/event.go:155-167 | grouping appends each fragment to the list of its index, in order |
| FkEvent.StreamFragmentsKept | fkevent/event.go:104-171 | after an error-free stream each index holds exactly its fragments, in stream order |
| FkEvent.StreamErrorStops | fkevent/event.go:109-116 | a receive error ends the stream with a "stream error: ..." event, and no tool calls are merged or sent |
| FkEvent.ToolCallsInIndexOrder | fkevent/event.go:174-197 | after the stream, the merged tool calls follow in ascending index order: the call of index x sits at the position of its rank among the indices |
| FkEvent.CallsAtRank | fkevent/event.go:174-197 | the steps for sorted indices put each index at its rank |
| FkEvent.RankOfSorted | fkevent/event.go:180 | in a sorted list of a set, each element's position is its rank |
| FkHistory.Finalized | fkevent/history.go:153-177 | closing the turn keeps every recorded message and appends one message exactly when an agent is speaking and its text is non-empty; that message carries the agent and the text |
| FkHistory.OnChunk | fkevent/history.go:66-87 | a chunk from the speaking agent only extends the text; a chunk from another agent closes the turn and starts a new one for that agent with the chunk's text |
| FkHistory.TakeResult | fkevent/history.go:100-115 | a tool result takes exactly one pending call out of the pending map |
| FkHistory.LoadError | fkevent/history.go:363-377 | loading reports an error exactly when the file cannot be read or decoded |
| FkHistory.HistoryRecorder.constructor | fkevent/history.go:51-60 | a recorder with no messages and no turn in progress |
| FkHistory.HistoryRecorder.FinalizeMessage | fkevent/history.go:153-177 | finalizeCurrentMessage appends the turn's message as Finalized says and changes nothing else |
| FkHistory.HistoryRecorder.RecordChunk | fkevent/history.go:66-87 | a stream chunk updates the recorder as OnChunk says |
| FkHistory.HistoryRecorder.RememberCalls | fkevent/history.go:89-98 | each tool call sets the pending arguments of its name, later calls overwriting earlier ones; nothing else changes |
| FkHistory.HistoryRecorder.TakeToolResult | fkevent/history.go:100-115 | with nothing pending the result is dropped; otherwise some pending call receives it, as TakeResult says |
| FkHistory.HistoryRecorder.RecordEvent | fkevent/history.go:62-127 | RecordEvent moves the recorder to a state Recorded allows for the event |
| FkHistory.HistoryRecorder.RecordUserInput | fkevent/history.go:129-150 | the turn is closed, a user message is appended and no agent is speaking afterwards |
| FkHistory.HistoryRecorder.FinalizeCurrent | fkevent/history.go:180-190 | the turn is closed and every in-progress field is reset |
| FkHistory.HistoryRecorder.GetMessages | fkevent/history.go:192-200 | the recorded messages |
| FkHistory.HistoryRecorder.GetAgentMessages | fkevent/history.go:203-215 | the messages of the named agent, in order |
| FkHistory.HistoryRecorder.GetCurrentMessage | fkevent/history.go:217-222 | the speaking agent and its text so far |
| FkHistory.HistoryRecorder.Clear | fkevent/history.go:270-282 | every message and every in-progress field is dropped |
| FkHistory.HistoryRecorder.SaveToFile | fkevent/history.go:311-339 | the file receives the messages plus the message in progress, and the recorder is not changed |
| FkHistory.HistoryRecorder.LoadFromFile | fkevent/history.go:363-390 | a decoded file replaces the messages and resets the turn; a failure leaves the recorder as it was and is reported |
| FkHistory.SameAgentConcatenates | fkevent/history.go:85 | chunks from the speaking agent are concatenated in arrival order |
| FkHistory.AnonymousChunksDropped | fkevent/history.go:68-86 | chunks with an empty agent name never become a message |
| FkHistory.TurnBecomesMessage | fkevent/history.go:68-82 | a chunk from a new agent turns the previous agent's accumulated text into one message and starts a fresh turn |
| FkHistory.RememberLast | fkevent/history.go:89-98 | a name is pending after the calls exactly when it was pending or one of the calls has it, and then with the arguments of its last call |
| FkHistory.RecordedDetermined | fkevent/history.go:100-115 | with at most one call pending, the new state after any event is determined |
| FkHistory.ResultUndetermined | fkevent/history.go:100-115 | with two calls pending, a tool result may go to either and the outcomes differ |
| FkHistory.MessagesAndErrorsIgnored | fkevent/history.go:62-127 | "message" and "error" events leave the recorder unchanged |
| FkHistory.UserInputEndsTurn | fkevent/history.go:129-150 | after user input the saved history is the closed turn plus the user message; pending calls and tool calls are kept |
| FkHistory.SnapshotIsClosedHistory | fkevent/history.go:311-339 | what SaveToFile writes is what closing the turn would record |
| FkHistory.ClosedIdempotent | fkevent/history.go:180-190 | closing a closed turn changes nothing |
| FkHistory.ResetsForget | fkevent/history.go:270-390 | after Clear nothing is saved; after a successful load exactly the loaded messages are saved and nothing is pending; a failed load changes nothing |
| FkHistory.ByAgentMeaning | fkevent/history.go:203-215 | the filter keeps exactly the messages of that agent |
| FkHistory.ByAgentAppend | fkevent/history.go:203-215 | filtering distributes over concatenation, so order is kept |
| ToolsCli.Keys | tools/cli.go:101-106 | the words searched for, one per table word, lower-cased exactly when folding |
| ToolsCli.Classify | tools/cli.go:101-128 | the first blacklist word contained in the text, in the map's visiting order, decides; otherwise the first risky pattern in list order; otherwise the default moderate verdict |
| ToolsCli.BuiltInWellLevelled | tools/cli.go:40-80 | every blacklist entry is dangerous and no risky pattern is safe |
| ToolsCli.ClassifyNeverSafe | tools/cli.go:101-128 | no command is ever classified safe, and a blacklist hit is dangerous whatever the visiting order |
| ToolsCli.ClassifyHit | tools/cli.go:105-109 | a text containing a blacklist word is classified by some blacklist entry |
| ToolsCli.ClassifyNoHit | tools/cli.go:122-127 | a text containing no word of either list gets the default verdict |
| ToolsCli.ClassifyFirstPattern | tools/cli.go:112-120 | without a blacklist hit the first risky pattern in list order decides |
| ToolsCli.EvaluateAsWritten | tools/cli.go:101-128 | evaluateCommandSecurity as written: only the command is lower-cased |
| ToolsCli.EvaluateCommandSecurity | tools/cli.go:101-128 | the evaluation with table words compared case-insensitively, so every blacklist entry can match |
| ToolsCli.BlacklistHitDangerous | tools/cli.go:105-109 | any blacklist word in the command, in any case, makes the command dangerous |
| ToolsCli.NoHitDefault | tools/cli.go:122-127 | a command with no word of either list is moderate with the default reason |
| ToolsCli.FirstPatternWins | tools/cli.go:112-120 | without a blacklist hit the first risky pattern decides |
| ToolsCli.EvaluateCaseInsensitive | tools/cli.go:102 | the command's own letter case does not change the verdict |
| ToolsCli.UpperWordNeverMatches | tools/cli.go:102-106 | as written, a blacklist word with an upper-case letter can never match |
| ToolsCli.ChownRecursiveMissed | tools/cli.go:44 | "chown -R u" is moderate as written and dangerous with the corrected comparison |
| ToolsCli.SecurityLevelName | tools/cli.go:272-283 | each level has its own name |
| ToolsCli.SecurityLevelNamesDistinct | tools/cli.go:272-283 | distinct levels have distinct names |
| ToolsCli.TimeoutSeconds | tools/cli.go:152-160 | a timeout over 300 is refused; 1 to 300 is used as given; anything else means 30 |
| ToolsCli.ShellCommand | tools/cli.go:162-177 | the command is passed as the shell's second argument, after the flag |
| ToolsCli.KeepLast | tools/cli.go:208-211 | the latest records, at most the cap, in order |
| ToolsCli.HistoryLimit | tools/cli.go:365-368 | the limit is between 1 and 100: the asked one when in range, else 10 |
| ToolsCli.CommandLog.constructor | tools/cli.go:88-92 | an empty command log |
| ToolsCli.CommandLog.ExecuteCommand | tools/cli.go:131-225 | an empty command, a dangerous command and a timeout over 300 seconds are answered with their error and run nothing; any other command runs with the chosen shell and timeout, is logged with the 1000-record cap, and a moderate one carries a warning |
| ToolsCli.CommandLog.Log | tools/cli.go:196-211 | a record is appended and the oldest beyond the cap are dropped |
| ToolsCli.CommandLog.GetCommandHistory | tools/cli.go:364-380 | the latest limit records, oldest first, and the number kept |
| ToolsCli.KeepLastAppend | tools/cli.go:196-211 | logging one more command keeps the latest records and ends with the new one |
| ToolsDoc.SampleContent | tools/doc/func.go:317-357 | short content is returned whole; with too small a budget the first maxChars bytes; never longer than maxChars otherwise |
| ToolsDoc.SampleShape | tools/doc/func.go:333-356 | a sample is exactly the head, the first separator, a middle centred on the midpoint, the second separator and the tail, each part a third of the budget; the final cut never removes anything |
| ToolsDoc.EffectiveMaxChars | tools/doc/func.go:234-237 | 50000 unless a positive limit is asked for |
| ToolsDoc.EffectiveClean | tools/doc/func.go:239-242 | cleaning is on when asked for or whenever the limit is the default |
| ToolsDoc.ReadDocumentSmart | tools/doc/func.go:232-294 | a read failure is reported; otherwise the response is SmartOfDocument of the document read with the effective settings |
| ToolsDoc.SmartOfDocument | tools/doc/func.go:260-293 | a document within the limit comes back whole and untruncated; a larger one is truncated to at most the limit, cut to its first bytes or sampled as asked, with the original and returned sizes reported |
| ToolsDoc.PageRange | tools/doc/func.go:152-158 | a negative end page reads to the end |
| ToolsDoc.LineRange | tools/doc/func.go:191-204 | a negative page is page 0 and a negative end line reads to the end |
| ToolsDoc.ReadDocumentByPages | tools/doc/func.go:151-187 | a read failure is reported; otherwise one detail per page read, in order, with the page's number, name and line count |
| ToolsDoc.ReadDocumentByLines | tools/doc/func.go:190-229 | a read failure is reported; otherwise the normalised page, and the line counts of the first page returned, or zero when there is none |
| ToolsUv.ScriptTimeout | tools/script/uv/func.go:463-469 | 300 seconds unless a positive timeout is asked for, capped at 600 |
| ToolsUv.CodeTimeout | tools/script/uv/func.go:605-611 | 60 seconds unless a positive timeout is asked for, capped at 300 |
| ToolsUv.TimeoutsIdempotent | tools/script/uv/func.go:463-469 | clamping a clamped timeout changes nothing |
| ToolsUv.Verdict | tools/script/uv/func.go:487-516 | the run succeeds exactly when it exits with status 0; an exit error reports its code; any other error is reported with its text |
| ToolsUv.ChooseScript | tools/script/uv/func.go:413-460 | a given script path is used, resolved against the working directory, exactly when it exists; otherwise given content goes to a temporary file; with neither the request is refused |
| ToolsUv.ScriptArgs | tools/script/uv/func.go:476-479 | the script followed by the request's arguments |
| ToolsUv.CodeArgs | tools/script/uv/func.go:618-621 | "-c", the code, then the request's arguments |
| ToolsUv.RunScript | tools/script/uv/func.go:404-517 | without the virtual environment or a script nothing runs; otherwise the interpreter runs the script with its arguments under the clamped timeout and the verdict follows the exit code |
| ToolsUv.RunCode | tools/script/uv/func.go:588-659 | empty code is refused first, then a missing environment; otherwise the code runs under the clamped timeout |
| ToolsUv.CleanExitSucceeds | tools/script/uv/func.go:487-516 | a run that exits with status 0 succeeds with no error message |
| ToolsUv.AtoiValue | tools/script/uv/func.go:763-764 | the value strconv.Atoi gives with its error ignored: the number, the nearest 64-bit bound when out of range, 0 when not a number |
| ToolsUv.ParseLine | tools/script/uv/func.go:760-782 | a SYNTAX_ERROR line gives an error exactly when it has at least three fields; an ERROR line gives an error at line 0 with the rest of the line; other lines give nothing |
| ToolsUv.ParsedErrorsFromLines | tools/script/uv/func.go:759-783 | every reported error comes from some output line, and output with no parseable line reports none |
| ToolsUv.ParseOutput | tools/script/uv/func.go:758-783 | the parsing loop collects ParsedErrors of the output's lines, in order |
| ToolsUv.CheckSyntax | tools/script/uv/func.go:683-789 | nothing to check and a missing environment are refused before anything runs; otherwise the verdict is Checked of the check run |
| ToolsUv.CheckArgs | tools/script/uv/func.go:725-736 | the check script's arguments: the resolved file and "file", else the code and "code" |
| ToolsUv.Checked | tools/script/uv/func.go:741-788 | valid exactly when the run succeeded and printed SYNTAX_OK; a failed run is reported with its output; otherwise the errors are parsed from the output |
| ToolsUv.SyntaxErrorLineRoundTrip | tools/script/uv/func.go:720-776 | a syntax-error line as the check script prints it is read back into the same line, offset, message and text |
| ToolsUv.ColonInMessageSplits | tools/script/uv/func.go:761 | a message holding a colon loses its tail to the text field |
| ToolsUv.ShortSyntaxErrorDropped | tools/script/uv/func.go:762 | a SYNTAX_ERROR line with fewer than three fields is dropped |
| ToolsUv.NonNumericFieldsAreZero | tools/script/uv/func.go:720-764 | line and offset that Python prints as None are read as 0 |
| ToolsUv.ErrorLineParsed | tools/script/uv/func.go:777-781 | an ERROR line gives an error at line 0 carrying the rest of the line |
| ToolsUv.SingleLineReported | tools/script/uv/func.go:751-788 | output of one reportable line makes the check invalid with exactly that line's error |
| ToolsUv.SingleSyntaxErrorReported | tools/script/uv/func.go:720-788 | one syntax error printed by the script makes the check invalid with exactly that error |
| ToolsSsh.NormalizeIdempotent | tools/ssh/check.go:31 | normalising twice is normalising once |
| ToolsSsh.PathCheck | tools/ssh/check.go:42-51 | a restricted path is reported exactly when the command writes and names one; a redirection is reported ahead of a move |
| ToolsSsh.IsDangerous | tools/ssh/check.go:29-61 | the first blacklisted keyword decides, else the first restricted path written to; a command is dangerous exactly when one of the three checks fires; a safe command has no reason |
| ToolsSsh.IsDangerousNormalized | tools/ssh/check.go:31 | only the trimmed, lower-cased command matters |
| ToolsSsh.IsDangerousCommand | tools/ssh/check.go:66-72 | isDangerous is the built-in checker's verdict |
| ToolsSsh.UpperCaseKeywordCaught | tools/ssh/check.go:31-37 | changing the case of a blacklisted keyword does not get it through |
| ToolsSsh.PipedDownloadCaught | tools/ssh/check.go:55-58 | a download piped into a shell matches the remote-fetch pattern |
| ToolsTodo.KeepMeaning | tools/todo/func.go:196-214 | filtering keeps exactly the todos that pass, and what it keeps plus what the opposite filter keeps is the whole list |
| ToolsTodo.KeepAppend | tools/todo/func.go:196-214 | filtering is piecewise, so the list's order is kept |
| ToolsTodo.Add | tools/todo/func.go:118-167 | a todo is added, pending and last, exactly when it has a title and a valid or empty priority; a refusal changes nothing and says why |
| ToolsTodo.Apply | tools/todo/func.go:283-304 | each given field is applied and the others are kept; the update time is stamped; the completion time is set once, when the status first becomes completed |
| ToolsTodo.FindId | tools/todo/func.go:283-306 | the index of the first todo with the ID, or -1 when none has it |
| ToolsTodo.Update | tools/todo/func.go:242-328 | an update succeeds exactly when the request is valid, the list loads and saves, and the ID exists; it rewrites only that first todo; an unknown ID gets its not-found error; a failure changes nothing |
| ToolsTodo.Delete | tools/todo/func.go:343-390 | a delete succeeds exactly when the ID is non-empty, some todo has it and loading and saving work; it then removes every todo with it; an unknown ID gets its not-found error; a failure changes nothing |
| ToolsTodo.RefusalFrom | tools/todo/func.go:420-434 | the first invalid request at or after a position, or none when all are valid |
| ToolsTodo.Made | tools/todo/func.go:446-460 | one new todo per request |
| ToolsTodo.BatchAdd | tools/todo/func.go:411-476 | a batch is added exactly when it is non-empty and every request is valid, and then all its todos are appended in order; otherwise nothing changes |
| ToolsTodo.SweepMeaning | tools/todo/func.go:510-534 | each requested ID deletes one todo or is reported not found, exactly when no todo has it; every todo is kept or deleted |
| ToolsTodo.SweepLeft | tools/todo/func.go:516-533 | the IDs the loop has not met are exactly the requested IDs no todo carries |
| ToolsTodo.SweepKept | tools/todo/func.go:516-528 | the todos the loop keeps are the Survivors: every todo except the first carrier of each requested ID, in their order |
| ToolsTodo.SurvivorsDistinct | tools/todo/func.go:516-528 | when no two todos share an ID, the kept todos are those whose ID was not requested |
| ToolsTodo.Clear | tools/todo/func.go:570-622 | clearing succeeds exactly for an empty or valid status when the list loads and saves; it removes everything, or only the todos of the status, and reports how many went |
| ToolsTodo.ClearCountsStatus | tools/todo/func.go:590-599 | clearing one status removes exactly the todos with that status |
| ToolsTodo.KeepSame | tools/todo/func.go:196-214 | filters that agree on every todo keep the same list |
| ToolsTodo.TodoTools.constructor | tools/todo/func.go:35-66 | a new tool set over an empty list |
| ToolsTodo.TodoTools.TodoAdd | tools/todo/func.go:118-167 | the list and reply become what Add says |
| ToolsTodo.TodoTools.TodoListFunc | tools/todo/func.go:185-222 | a loaded list gives exactly the todos matching the status and priority filters, in order, and their count; a load failure is reported |
| ToolsTodo.TodoTools.TodoUpdate | tools/todo/func.go:242-328 | the list and reply become what Update says |
| ToolsTodo.TodoTools.TodoDelete | tools/todo/func.go:343-390 | the list and reply become what Delete says, so it succeeds exactly on a present non-empty ID with working load and save |
| ToolsTodo.TodoTools.TodoBatchAdd | tools/todo/func.go:411-476 | the list and reply become what BatchAdd says |
| ToolsTodo.TodoTools.TodoBatchDelete | tools/todo/func.go:493-554 | an empty request and load or save failures change nothing; otherwise the todos Sweep keeps remain (the Survivors: all but the first carrier of each requested ID, in order), and the reply counts the deleted IDs and lists each requested ID no todo carries once |
| ToolsTodo.TodoTools.TodoClear | tools/todo/func.go:570-622 | the list and reply become what Clear says |
| ToolsTodo.TodoTools.ClearTodoTool | tools/todo/todo.go:63-69 | the list is emptied, unless saving fails, which is reported as saveTodoList's error behind the clearing prefix and changes nothing |
| ToolsTodo.ValidateAll | tools/todo/func.go:420-434 | the validating loop finds the first refused request |
| ToolsTodo.IdSet | tools/todo/func.go:510-513 | the set of the requested IDs |
| ToolsTodo.SweepLoop | tools/todo/func.go:516-528 | the deleting loop computes Sweep |
| ToolsTodo.Listing | tools/todo/func.go:530-533 | the IDs left over, each exactly once |
| FileLines.SplitLastNonEmpty | tools/file/func.go:53-67 | splitting a text that does not end with the separator never yields an empty last piece |
| FileLines.ReadLines | tools/file/func.go:53-67 | readFileLines: the trailing-newline flag is set exactly when the text ends with a newline; no line holds a newline; the last line is never blank; there are no lines exactly when the text is only newlines |
| FileLines.JoinEndsWithLast | tools/file/func.go:70-76 | joined lines end with the last line |
| FileLines.LinesRoundTrip | tools/file/func.go:53-76 | lines written by joinLines read back the same, with the same trailing-newline flag, when no line holds a newline and the last is not blank |
| FileLines.ReadThenJoinTrims | tools/file/func.go:53-76 | reading a text and joining its lines back cuts its trailing newlines to at most one |
| FileLines.TrimKeepsOneNewline | tools/file/func.go:53-76 | cutting the trailing newlines and putting one back restores a text that had at most one |
| FileLines.ReadThenJoin | tools/file/func.go:53-76 | a file survives reading and rewriting exactly when it does not end with two newlines |
| FileLines.SplitCount | tools/file/func.go:79-85 | a text splits into one more piece than it has separators |
| FileLines.CountLinesIsLineCount | tools/file/func.go:79-85 | countLines counts exactly the lines readFileLines makes of the same text |
| FileLines.WholeRead | tools/file/func.go:175-190 | a read without a range returns at most the first 2000 lines and is marked truncated exactly when there are more |
| FileLines.ReadAsWrittenPanics | tools/file/func.go:193-213 | the source's slice panics exactly when an end line inside the file lies before the start index |
| FileLines.ReadCrossedRange | tools/file/func.go:204-212 | reading lines 3 to 1 of a three-line file crosses the slice bounds |
| FileLines.Read | tools/file/func.go:172-213 | the range logic with the panicking ranges refused: the whole file or the lines numbered start to end, an empty read for an end just before the start, and an error exactly for a start beyond the file or an end more than one line before the start |
| FileLines.ReadAgreesOutsideCrossedRanges | tools/file/func.go:172-213 | the corrected read gives what the source gives on every range whose slice does not panic, including an end just before the start |
| FileLines.ScanLines | tools/file/func.go:750-759 | an empty file has no lines |
| FileLines.HitsMeaning | tools/file/func.go:750-775 | the matches are exactly the lines holding the pattern, with their line numbers, in increasing order |
| FileLines.HitsPrefix | tools/file/func.go:758 | matches found on the first lines are a prefix of all matches, so stopping at the limit keeps the first ones |
| FileLines.ReplaceFirst | tools/file/func.go:866-867 | strings.Replace with a count replaces at most that many occurrences |
| FileLines.ReplaceFirstCount | tools/file/func.go:866-867 | as many occurrences are replaced as there are, up to the count; with enough, it is a full replacement |
| FileLines.ReplaceOnce | tools/file/func.go:983-1001 | with one occurrence, replacing once puts the new text in its place and keeps the rest |
| FileLines.ReplacedCountNegative | tools/file/func.go:868 | replacing "a" by "aa" once in "a" reports -1 replacements as written |
| FileLines.ReplacedCount | tools/file/func.go:866-868 | the corrected count is the number of replacements made |
| ToolsFile.Splice | tools/file/func.go:374-381 | lines start to end, cut at the end of the file, are replaced by the new lines and the rest is kept in place |
| ToolsFile.InsertAfter | tools/file/func.go:445-456 | the new lines come after the first n lines, and the rest follows |
| ToolsFile.FileReadSpec | tools/file/func.go:149-214 | an empty path gets the path-required reply; a path validatePath denies gets its reason; an allowed path with no file gets the read failure with its error; a located file gives Read of its lines |
| ToolsFile.Modify | tools/file/func.go:339-396 | a modify succeeds exactly for a non-empty path, 1 at most start at most end and a readable file; the file then holds the spliced lines with its trailing newline kept; a failure changes nothing |
| ToolsFile.ModifyReadsBack | tools/file/func.go:339-396 | after a modify, reading the file gives the spliced lines, unless they end in a blank line |
| ToolsFile.SpliceWithoutNewlines | tools/file/func.go:374-381 | splicing lines without newlines keeps every line free of newlines |
| ToolsFile.Insert | tools/file/func.go:413-476 | an insert succeeds exactly for a non-empty path, a line number of at least 0 and a readable file; the lines go after that line; a failure changes nothing |
| ToolsFile.SearchSpec | tools/file/func.go:708-787 | an unreadable file gives no matches; otherwise the first matches up to the limit (100 by default) |
| ToolsFile.SearchMeaning | tools/file/func.go:708-787 | every match is a line holding the pattern, and fewer matches than the limit means all of them |
| ToolsFile.Replaced | tools/file/func.go:864-873 | the whole text is replaced when there is no count or enough of one, and the reported number is the number of replacements |
| ToolsFile.Replace | tools/file/func.go:807-897 | a replace succeeds exactly for a non-empty path and pattern and a readable file; the file is rewritten and the count reported; a failure changes nothing |
| ToolsFile.EditReplace | tools/file/func.go:970-1006 | a replace edit succeeds exactly when the old text occurs once and the write works, and it replaces that occurrence |
| ToolsFile.Edit | tools/file/func.go:915-1013 | succeeds exactly when the path is non-empty and valid and either a write or append meets no write error or a replace succeeds as EditReplace; write sets the content, append adds it; a failure changes nothing |
| ToolsFile.EditReplacesOnce | tools/file/func.go:970-1006 | a successful replace edit puts the content where the only occurrence of the old text was |
| ToolsFile.EditWriteCountsLines | tools/file/func.go:930-948 | a write reports as many lines as reading the file back would give |
| ToolsFile.FileTools.constructor | tools/file/func.go:28-50 | a tool set over the given workspace |
| ToolsFile.FileTools.FileRead | tools/file/func.go:149-214 | the reply is FileReadSpec (refusals of an empty, denied or missing path included), and the files are not changed |
| ToolsFile.FileTools.FileModify | tools/file/func.go:339-396 | the files and reply become what Modify says |
| ToolsFile.FileTools.FileInsert | tools/file/func.go:413-476 | the files and reply become what Insert says |
| ToolsFile.FileTools.FileSearch | tools/file/func.go:708-787 | the scanning loop gives SearchSpec, stopping at the limit |
| ToolsFile.FileTools.FileReplace | tools/file/func.go:807-897 | the files and reply become what Replace says |
| ToolsFile.FileTools.FileEdit | tools/file/func.go:915-1013 | the files and reply become what Edit says, so it succeeds exactly when Edit does |
| ToolsFileLegacy.Lo | tools/file.go:63-66 | the first line read, counted from 0, lies within the file |
| ToolsFileLegacy.Hi | tools/file.go:67-69 | the end of the lines read lies within the file |
| ToolsFileLegacy.PickedIsSlice | tools/file.go:58-72 | the scanning loop picks the slice of lines numbered start to end, an absent bound meaning the file's start or end, and nothing for an empty or crossed range |
| ToolsFileLegacy.WindowGrows | tools/file.go:62-71 | a last line inside the range extends the window by that line |
| ToolsFileLegacy.WindowStays | tools/file.go:62-71 | a last line outside the range leaves the window as it was |
| ToolsFileLegacy.PickedStops | tools/file.go:67-69 | once past the end line no later line is read, so the loop may stop there |
| ToolsFileLegacy.ReadSpec | tools/file.go:29-83 | an empty path is refused; a path with no file gets the open error; without a range the whole text; otherwise the lines in the window |
| ToolsFileLegacy.LegacyModify | tools/file.go:172-235 | a modify succeeds exactly for a non-empty path, 1 at most start at most end and an existing file; a failure changes nothing |
| ToolsFileLegacy.LegacyInsert | tools/file.go:251-319 | an insert succeeds exactly for a non-empty path and a line number within the file; a failure changes nothing |
| ToolsFileLegacy.OsFiles.constructor | tools/file.go:29-36 | a file system over the given files |
| ToolsFileLegacy.OsFiles.FileRead | tools/file.go:29-83 | the reply is ReadSpec: the refusals, the whole text, or the scanning loop's lines |
| ToolsFileLegacy.OsFiles.FileModify | tools/file.go:172-235 | the files and reply become what LegacyModify says |
| ToolsFileLegacy.OsFiles.FileInsert | tools/file.go:251-319 | the files and reply become what LegacyInsert says |
| AgentsSummary.AsciiCount | agents/leader/summary/summary.go:438-446 | the number of characters below 128, at most the length |
| AgentsSummary.CountTokensInString | agents/leader/summary/summary.go:434-447 | the loop counts a quarter token per ASCII character, rounded down, and one token per other character |
| AgentsSummary.AsciiCountAppend | agents/leader/summary/summary.go:439-445 | the ASCII counts of two texts add up |
| AgentsSummary.TokensBounds | agents/leader/summary/summary.go:434-447 | a text costs between a quarter of its length and its length; all-ASCII text a quarter, text without ASCII its length |
| AgentsSummary.TokensOfAppend | agents/leader/summary/summary.go:434-447 | splitting a text loses at most one token to rounding and never adds one |
| AgentsSummary.CallTokensAtLeast | agents/leader/summary/summary.go:406-410 | every tool call costs at least its 3 framing tokens |
| AgentsSummary.EstimateAtLeast | agents/leader/summary/summary.go:400-430 | an estimate is never below 4 plus 3 per tool call |
| AgentsSummary.AddPartTokens | agents/leader/summary/summary.go:418-427 | the parts loop adds the tokens of the text parts |
| AgentsSummary.EstimateTokens | agents/leader/summary/summary.go:400-430 | estimateTokens adds the overhead, the content, each tool call, the call id, the tool name and the text parts |
| AgentsSummary.DefaultCounts | agents/leader/summary/summary.go:385-395 | one count per message, 0 for a nil one |
| AgentsSummary.DefaultCounter | agents/leader/summary/summary.go:385-395 | defaultCounterToken computes DefaultCounts |
| AgentsSummary.Collect | agents/leader/summary/summary.go:176-251 | the non-nil messages of a range of slots, in order, with the sum of their counts |
| AgentsSummary.CollectSplit | agents/leader/summary/summary.go:176-251 | collecting adjacent ranges is collecting their union |
| AgentsSummary.CollectOne | agents/leader/summary/summary.go:176-251 | one slot collects to its message, or to nothing when nil |
| AgentsSummary.SystemEnd | agents/leader/summary/summary.go:178-186 | the system block is at most the first slot, and only when it is a system message |
| AgentsSummary.UserEnd | agents/leader/summary/summary.go:187-200 | the user run stops at the first non-nil message of another role |
| AgentsSummary.SummaryEnd | agents/leader/summary/summary.go:201-211 | the previous summary is at most one slot, and only when it is a flagged assistant message |
| AgentsSummary.BodyStart | agents/leader/summary/summary.go:176-211 | the body starts after the system, user and summary blocks |
| AgentsSummary.PairEnd | agents/leader/summary/summary.go:226-245 | the replies run stops at a nil slot, a non-tool message or a reply to another call |
| AgentsSummary.BlockEnd | agents/leader/summary/summary.go:214-250 | a block ends after its message, or after the run of replies to its tool calls |
| AgentsSummary.FlattenAppend | agents/leader/summary/summary.go:267-276 | the messages of two lists of blocks are those of each, joined |
| AgentsSummary.BlocksCover | agents/leader/summary/summary.go:213-251 | the body blocks hold every non-nil message of the body, in order, with all their tokens |
| AgentsSummary.PairedReplies | agents/leader/summary/summary.go:226-245 | every slot in a block's replies run is a reply to that block's calls |
| AgentsSummary.SelectSpec | agents/leader/summary/summary.go:253-265 | the newest-first split is an interleaving of the blocks in order, the recent blocks fit the budget, and the newest block is recent whenever it fits |
| AgentsSummary.InterleavesMultiset | agents/leader/summary/summary.go:253-265 | no block is lost or duplicated by the split |
| AgentsSummary.SumTokens | agents/leader/summary/summary.go:162-165 | the total compared with the threshold is the sum of the counts |
| AgentsSummary.LeadingBlocks | agents/leader/summary/summary.go:176-211 | the system, user and summary blocks and the index after them |
| AgentsSummary.GatherCallIds | agents/leader/summary/summary.go:222-225 | the ids of a message's tool calls |
| AgentsSummary.PairTools | agents/leader/summary/summary.go:219-248 | a tool-calling message and its replies form one block that ends at BlockEnd |
| AgentsSummary.BuildBlocks | agents/leader/summary/summary.go:213-251 | the body's blocks are BlocksFrom |
| AgentsSummary.SplitRecent | agents/leader/summary/summary.go:253-265 | the split loop computes Select |
| AgentsSummary.Slots | agents/leader/summary/summary.go:153 | each message becomes a non-nil slot |
| AgentsSummary.ChatState.constructor | agents/leader/summary/summary.go:148-153 | a state holding the given messages |
| AgentsSummary.BeforeModel | agents/leader/summary/summary.go:148-331 | an empty conversation or one within budget is left alone; a failed count, a count of the wrong length or a failed summary is an error that leaves the messages alone; otherwise the messages become the system and user blocks, the new summary and the recent blocks |
| AgentsSummary.New | agents/leader/summary/summary.go:96-136 | a missing configuration or a summariser that does not compile is an error; a budget that is not positive takes its default, and so does a missing counter |
| AgentsSummary.PartitionCovers | agents/leader/summary/summary.go:176-251 | the leading blocks and the body blocks together hold every non-nil message, in order, with all their tokens |
| AgentsSummary.CollectUsers | agents/leader/summary/summary.go:187-200 | slots that are nil or user messages collect to user messages only |
| AgentsSummary.UserEndSpec | agents/leader/summary/summary.go:187-200 | the user run holds only nil slots and user messages and stops at a message of another role |
| AgentsSummary.LeadingBlockRoles | agents/leader/summary/summary.go:176-211 | the leading blocks have the roles they are named for, and the system and summary blocks hold at most one message |
| AgentsSummary.CollectSlots | agents/leader/summary/summary.go:176-251 | slots without a nil collect to exactly their messages |
| AgentsSummary.BlockShape | agents/leader/summary/summary.go:214-250 | a body block is its first message, then only after a tool call, replies to that call or replies without an id |
| AgentsSummary.RunCollects | agents/leader/summary/summary.go:226-245 | a tool call followed by a run of replies collects to the call and then those replies |
| AgentsSummary.UserEndAt | agents/leader/summary/summary.go:187-200 | a run of user messages ending at a message of another role ends there |
| AgentsSummary.LayoutBounds | agents/leader/summary/summary.go:176-211 | where the partition cuts a conversation laid out as system, users, summary and the rest |
| AgentsSummary.LayoutRecognised | agents/leader/summary/summary.go:176-251 | the partition of such a layout gives its pieces back |
| AgentsSummary.CompactionRecognised | agents/leader/summary/summary.go:300-329 | compacting again sees the first compaction's result: the same system and user blocks, the new summary as the previous summary and the kept blocks as the body |
| WebCards.TrimLeadingWhitespace | web/js/messages.js:170-173 | exactly the leading run of blanks goes and the text from the first other character on is kept |
| WebCards.TrimLeadingKeeps | web/js/messages.js:170-173 | a text starting with a non-blank is kept whole, and trimming twice is trimming once |
| WebCards.AppendValid | web/js/messages.js:116-166 | appending cards other than the welcome card keeps the transcript well formed |
| WebCards.Opened | web/js/messages.js:195-202 | when a new card is due, an assistant card for the agent is appended and opened and the tool flag cleared; otherwise nothing changes |
| WebCards.SetOpen | web/js/messages.js:204-220 | the open card gets the new text and loses its streaming indicator; no other card changes |
| WebCards.StreamChunkCard | web/js/messages.js:192-202 | a stream chunk appends a card exactly when one is due (a tool call came between, no card is open, or the chunk names another agent); the new card is open and carries the chunk's agent; the flag ends cleared and no other card changes |
| WebCards.StreamChunkText | web/js/messages.js:204-220 | a chunk goes into an empty card trimmed and is otherwise appended verbatim |
| WebCards.MessageReplaces | web/js/messages.js:225-248 | a message uses the same new-card rule and replaces the open card's text with the trimmed content; an empty message changes nothing |
| WebCards.StreamedText | web/js/messages.js:192-220 | chunks of one agent arriving when a new card is due make exactly one new card showing their concatenation with its leading blanks removed |
| WebCards.StreamedHiThere | web/js/messages.js:204-220 | " hi" then " there" shows "hi there" |
| WebCards.PreparingForcesNewCard | web/js/messages.js:250-270 | tool_calls_preparing with a non-empty list appends a card for the first call and makes the next text open a new card, even for the same agent |
| WebCards.LastToolCall | web/js/messages.js:275-276 | the last tool-call card, or -1 when there is none |
| WebCards.ToolCallsLastOnly | web/js/messages.js:272-288 | tool_calls rewrites only the last tool-call card, with the first call's arguments pretty-printed when they parse and raw otherwise; with no tool-call card or no calls nothing changes |
| WebCards.Truncate | web/js/messages.js:290-304 | a text over 2048 characters is cut to its first 2048 followed by a newline and "..." |
| WebCards.ToolResultArrived | web/js/messages.js:290-318 | a tool result appends one result card with the pretty-printed or raw content, truncated; the open card and flag stay |
| WebCards.ActionArrived | web/js/messages.js:320-349 | an action appends an action card styled by its type, showing the content or else the type; the open card and flag stay |
| WebCards.ErrorArrived | web/js/messages.js:351-366 | an error appends an error card; the open card and flag stay |
| WebCards.CancelArrived | web/js/messages.js:423-444 | a cancel clears the open card and the flag and appends a cancel card with the message or the default text |
| WebCards.Ended | web/js/messages.js:124-132 | processing_end clears the open card and the flag and keeps the cards |
| WebCards.EndedForcesNewCard | web/js/messages.js:124-428 | after processing_end or a cancel the next text always opens a new card |
| WebNav.ShortText | web/js/navigation.js:47-49 | a question text of at most 20 characters is shown whole; a longer one shows its first 20 characters followed by an ellipsis |
| WebNav.Reversed | web/js/navigation.js:32 | the copy of the questions in reverse has the same length |
| WebNav.ReversedAt | web/js/navigation.js:32 | position k of the reversed list holds the k-th question counted back from the newest |
| WebNav.NavRows | web/js/navigation.js:34-62 | one row per question |
| WebNav.NavNewestFirst | web/js/navigation.js:34-50 | question i has its row at position length - 1 - i, with its id, the number i + 1 and its shortened text, and only the top row is active |
| WebNav.NavAdd | web/js/navigation.js:8-18 | asking a question puts its row on top, numbered one past the earlier rows and active; the earlier rows move down one place unchanged except that none stays active |
| WebNav.QuickNav | web/js/navigation.js:20-33 | the navigator is shown exactly when there is a question; with none it is hidden and its old rows are left in place |
| WebNav.Highlighted | web/js/navigation.js:82-93 | every row is kept and marked exactly when its id is the given one |
| WebNav.HighlightOnlyMarks | web/js/navigation.js:82-93 | a highlight changes only the marks, and a second highlight undoes the first |
| WebClient.NoticeCap | web/js/app.js:385-418 | at most three notifications are shown: a fourth evicts the oldest, the others keep their order and the new one comes last; below three nothing is evicted and the stack stays contiguous |
| WebClient.EvictionOverlaps | web/js/app.js:385-395 | on eviction the new notice takes the offset of the previous newest one, which keeps that offset until the delayed removal re-stacks the rest |
| WebClient.Without | web/js/app.js:436-439 | the remaining notices are a sublist of the old ones without the given notice |
| WebClient.Restacked | web/js/app.js:442-444 | every notice moves to the offset of its place in the list, 20 + 70 per place |
| WebClient.WithoutAbsent | web/js/app.js:436-439 | removing a notice that is not listed changes nothing |
| WebClient.DismissShown | web/js/app.js:385-445 | removing the notice just shown, when nothing was evicted, gives back the earlier notices re-stacked |
| WebClient.DismissedStacked | web/js/app.js:426-445 | after any removal the stack is contiguous and the removed notice is gone |
| WebClient.RetriesSchedule | web/js/app.js:256-262 | closes in a row schedule retries after 2000, 4000, … ms, one per close, until five attempts have been made, and then none |
| WebClient.ReconnectBackoff | web/js/app.js:224-262 | after a successful open, five closes schedule retries after 2, 4, 6, 8 and 10 seconds and a sixth schedules none |
| WebClient.Initial | web/js/app.js:6-29 | the client starts with the welcome card, in supervisor mode, with session "default", idle, and in a consistent state |
| WebClient.ButtonsUpdated | web/js/app.js:329-341 | the send button shows exactly when idle; when idle it is enabled exactly when the trimmed input is not empty; nothing else changes |
| WebClient.InputChanged | web/js/app.js:271-277 | the send button is enabled exactly when the trimmed input is not empty and no request is processing |
| WebClient.WithoutWelcome | web/js/messages.js:9-10 | the welcome card goes when it is first and nothing else changes; the open card is still the same card |
| WebClient.QuestionAdded | web/js/navigation.js:8-18 | exactly one question is appended and the navigator is shown with its rows rebuilt |
| WebClient.NavCleared | web/js/navigation.js:95-98 | no questions, and the navigator hidden with its old rows left in place |
| WebClient.AskedTwice | web/js/navigation.js:8-62 | after two questions the newest is the top row, active and numbered with the question count, and the one before sits below it, inactive |
| WebClient.KindNames | web/js/messages.js:117-166 | every event type selects its own case and no other, tool_result_chunk shares the tool_result case, and any other type selects none |
| WebClient.Stopped | web/js/messages.js:124-127 | at the end of a request the client is idle with the send button back and the given transcript |
| WebClient.OnEvent | web/js/messages.js:116-168 | the client after one server event stays consistent |
| WebClient.DispatchRules | web/js/messages.js:116-166 | processing_start only marks processing; processing_end and cancelled stop processing and clear the open card and the tool flag; action and error keep both; error also stops processing and appends one error card; the transcript events change only the transcript; connected and unknown types change nothing |
| WebClient.HistoryReplaces | web/js/history.js:169-268 | a loaded history replaces the transcript, with no open card and no flag, and the questions with those of the turns; the navigator shows exactly when there is a question |
| WebClient.SendStarted | web/js/messages.js:9-19 | a send removes the welcome card, resumes scrolling and closes both suggestion lists, and changes nothing else |
| WebClient.Switched | web/js/messages.js:29-95 | the routing agent becomes the mentioned agent and its switch card is appended |
| WebClient.Waiting | web/js/messages.js:64-67 | once the frame is sent the input is empty and the client processing, with the cancel button in place of the send button |
| WebClient.Posted | web/js/messages.js:42-67 | the user card and the question are added and the chat frame carries the session, the message, the mode, the routing agent and the `#` file paths |
| WebClient.SendRefused | web/js/messages.js:5-40 | a frame is sent exactly when the trimmed input is not empty, no request is processing and any mention names a known agent; blank input or a busy client changes nothing; a refused send keeps the routing agent, the questions and the processing flag |
| WebClient.SendFrame | web/js/messages.js:22-62 | a sent frame carries the whole trimmed text, the session, the mode, the agent the message is routed to and the `#` file paths in order, and that agent becomes the routing agent |
| WebClient.SendPosts | web/js/messages.js:5-67 | a send removes the welcome card and appends a mention's switch card and then the user card; the question is newest in the navigator; the input is empty and the client processing |
| WebClient.StickyRouting | web/js/messages.js:27-56 | once a message names an agent, a later message without a mention goes to the same agent |
| WebClient.CancelRequested | web/js/messages.js:412-421 | a cancel frame is sent exactly when a request is processing; otherwise nothing changes |
| WebClient.TeamModeRestored | web/js/messages.js:98-114 | the routing agent is dropped and a reset card naming the mode is appended |
| WebClient.ModeSet | web/js/app.js:298-310 | the mode changes and any routing agent is dropped; with none the mode is the only change; the transcript and processing stay |
| WebClient.ChatCleared | web/js/messages.js:460-480 | only the welcome card stays, with no open card, no flag and no questions, and the navigator hidden |
| WebClient.Scrolled | web/js/app.js:147-160 | the user counts as scrolled up exactly when more than 100 px from the bottom |
| WebClient.FollowsNearBottom | web/js/app.js:147-353 | the view follows new content exactly when within 100 px of the bottom |
| WebClient.Connected | web/js/app.js:224-226 | an open resets the reconnect counter and nothing else |
| WebClient.MentionLists | web/js/agents.js:19-45 | handling a mention changes only the two suggestion lists |
| WebClient.Typed | web/js/app.js:81-84 | the input takes the new text and cursor, and the send button is enabled exactly when the trimmed text is not empty and the client is idle |
| WebClient.AgentListFirst | web/js/agents.js:19-45 | with an `@partial` before the cursor only the agent list opens, filtered by that partial, even when a `#partial` is there too |
| WebClient.FilePathInserted | web/js/files.js:156-182 | the file list closes; with a `#partial` before the cursor the path completes it, and otherwise nothing else changes |
| WebClient.AgentNameInserted | web/js/agents.js:112-138 | the agent list closes; with an `@partial` before the cursor the name completes it, and otherwise nothing else changes |
| WebClient.EnterSendsOnlyWithoutLists | web/js/app.js:279-296 | Enter never sends while a suggestion list is shown or with Shift; with both lists hidden and the button enabled it sends exactly what the send button would |
| WebClient.ReplayHistory | web/js/history.js:169-268 | the loop over the turns builds the cards and questions of the history's reference replay, and the navigator they give |
| WebClient.ChatClient.constructor | web/js/app.js:6-29 | the new client is in the initial state |
| WebClient.ChatClient.AgentsLoaded | web/js/agents.js:6-16 | the agent list becomes the one the server returned; nothing else changes |
| WebClient.ChatClient.ShowNotification | web/js/app.js:366-424 | the state after showing a notification is the one the notification rules give |
| WebClient.ChatClient.NotificationRemoved | web/js/app.js:426-446 | the notice leaves the list and the rest re-stack; nothing else changes |
| WebClient.ChatClient.UpdateSendButtonState | web/js/app.js:329-341 | the buttons follow the button rules |
| WebClient.ChatClient.HandleInputChange | web/js/app.js:271-277 | the send button follows the input rule |
| WebClient.ChatClient.UpdateQuickNav | web/js/navigation.js:20-62 | the navigator becomes the one its questions give; nothing else changes |
| WebClient.ChatClient.AddQuestionToNav | web/js/navigation.js:8-18 | the question is appended and the navigator rebuilt |
| WebClient.ChatClient.UpdateQuickNavHighlight | web/js/navigation.js:82-93 | only the row marks change, to the given id |
| WebClient.ChatClient.ClearQuickNav | web/js/navigation.js:95-98 | the questions are emptied and the navigator hidden |
| WebClient.ChatClient.HandleHistoryLoaded | web/js/history.js:169-268 | the state becomes the one the loaded-history rule gives |
| WebClient.ChatClient.HandleServerEvent | web/js/messages.js:116-168 | the state becomes the one the dispatch rules give for the event |
| WebClient.ChatClient.OnMessage | web/js/app.js:246-253 | a frame that does not parse changes nothing; one that does is dispatched |
| WebClient.ChatClient.OnOpen | web/js/app.js:224-226 | the reconnect counter starts again |
| WebClient.ChatClient.OnClose | web/js/app.js:236-262 | the state and retry delay are the ones the reconnect rule gives |
| WebClient.ChatClient.HandleScroll | web/js/app.js:147-160 | the scrolled-up flag follows the 100 px rule |
| WebClient.ChatClient.ScrollToBottom | web/js/app.js:343-353 | the view follows exactly when the user has not scrolled up |
| WebClient.ChatClient.ScrollToBottomAndResume | web/js/app.js:182-186 | scrolling resumes; nothing else changes |
| WebClient.ChatClient.SetMode | web/js/app.js:298-310 | the state follows the mode rule |
| WebClient.ChatClient.ResetToTeamMode | web/js/messages.js:98-114 | the state follows the team-mode rule |
| WebClient.ChatClient.ClearChatUI | web/js/messages.js:460-480 | the state follows the clear rule |
| WebClient.ChatClient.CancelTask | web/js/messages.js:412-421 | the cancel frame is sent exactly when the cancel rule says |
| WebClient.ChatClient.AddUserMessage | web/js/messages.js:368-387 | the user card is appended and its question added to the navigator |
| WebClient.ChatClient.SwitchAgent | web/js/messages.js:29-95 | the routing agent is set and its switch card appended |
| WebClient.ChatClient.PostMessage | web/js/messages.js:42-67 | the user card, the frame and the reset input are the ones the posting rule gives |
| WebClient.ChatClient.SendMessage | web/js/messages.js:5-69 | the state and the frame sent are the ones the send rules give |
| WebClient.ChatClient.HandleInputForMention | web/js/agents.js:19-45 | the suggestion lists follow the mention rule |
| WebClient.ChatClient.HandleInput | web/js/app.js:81-84 | the state follows the input event rule |
| WebClient.ChatClient.CompleteFilePath | web/js/files.js:156-182 | the state follows the file-completion rule |
| WebClient.ChatClient.CompleteAgentName | web/js/agents.js:112-138 | the state follows the agent-completion rule |
| WebClient.ChatClient.HandleKeyDown | web/js/app.js:279-296 | the state and the frame an Enter sends are the ones the key rules give |
| WebHistory.FormatHistoryTimeCases | web/js/history.js:549-581 | with no start the current time is shown; a duration of a minute or more shows whole minutes and the remaining seconds, one of a second or more shows seconds, and anything shorter or no end shows the bare start time |
| WebHistory.RenderToolCall | web/js/history.js:320-374 | a stored tool call gives its call card with the pretty-printed or raw arguments, followed by a result card exactly when it has a result |
| WebHistory.InterruptedStyledOnReplayOnly | web/js/history.js:382-419 | an interrupted action gets its own style on replay but not live; every other action type is styled the same both ways |
| WebHistory.EventStep | web/js/history.js:207-240 | one event keeps the replay well formed |
| WebHistory.EventRules | web/js/history.js:207-240 | text goes into the open card or, when there is none, into a new one; a tool call is rendered and ends the open card; an action is rendered and keeps it; any other event changes nothing |
| WebHistory.ReplayEvents | web/js/history.js:207-241 | replaying the events of a turn keeps the replay well formed |
| WebHistory.TextRunOneCard | web/js/history.js:207-222 | text events with no tool call among them make one new card, created on the first of them, showing their concatenation |
| WebHistory.TextIntoOpenCard | web/js/history.js:209-222 | a text event while the last card is open extends that card's text |
| WebHistory.ToolCards | web/js/history.js:314-318 | the older turn shape lists the cards of all its tool calls in order |
| WebHistory.ToolCardsCount | web/js/history.js:314-374 | one call card per tool call and one result card per non-empty result |
| WebHistory.ActionCards | web/js/history.js:376-380 | the older turn shape gives one action card per action, in order |
| WebHistory.LegacyOrder | web/js/history.js:242-260 | a turn without events shows its text card first (still waiting when the content is empty), then one call card per tool call with its result, then one card per action, and nothing else |
| WebHistory.ReplayKeepsLeadingBlank | web/js/history.js:209-221 | replay keeps the leading blanks the live stream removes: one text event " hi" shows " hi" on replay and "hi" live |
| WebHistory.ReplayMatchesLive | web/js/history.js:203-241 | with leading blanks trimmed, an agent turn of text events shows in its one card exactly the text the same chunks leave in the live card |
| WebHistory.Contents | web/js/history.js:207-211 | the texts of a turn's text events, as a list of chunks in order |
| WebHistory.UserTurnRule | web/js/history.js:191-312 | a user turn gives one user card and one question exactly when its texts are not empty, and otherwise nothing; a user turn without events shows nothing |
| WebHistory.ReplayKeepsEarlier | web/js/history.js:203-241 | an agent turn only appends cards; earlier cards never change |
| WebHistory.TurnAppends | web/js/history.js:189-261 | every turn appends to the cards of the turns before it |
| WebHistory.EventNoWelcome | web/js/history.js:207-240 | no event adds a welcome card |
| WebHistory.LoadAllNoWelcome | web/js/history.js:174-261 | replaying a history never brings back the welcome card |
| WebHistory.InsertByTime | web/js/history.js:43 | inserting a file adds exactly that file |
| WebHistory.SortByTime | web/js/history.js:43 | sorting keeps every file exactly as often as given |
| WebHistory.SortByTimeSorted | web/js/history.js:43 | the list is sorted newest first and keeps every file exactly as often as given |
| WebHistory.RenderHistoryList | web/js/history.js:36-101 | the empty notice shows exactly when there are no files; otherwise the files are listed newest first, each as often as given |
| WebAgents.TrimOfTrimmed | web/js/agents.js:196 | a text with no blank at either end is its own trim |
| WebAgents.ExtractAgentMention | web/js/agents.js:195-205 | a mention found is the trimmed input read as `@`, a name, blanks and the query |
| WebAgents.MentionSplit | web/js/agents.js:197-202 | cutting a trimmed input after its `@name` and the blanks that follow gives a mention whose query is already trimmed |
| WebAgents.ExtractAt | web/js/agents.js:195-205 | where the name and the blanks of the trimmed input end decides the mention exactly: the name runs up to the first non-name character, and the query starts after the blanks |
| WebAgents.MentionOnlyAtStart | web/js/agents.js:197 | input whose first character is neither blank nor `@` has no mention |
| WebAgents.MentionInsideText | web/js/agents.js:197 | "please @Alice do X" mentions no agent |
| WebAgents.MentionDefeatedByLineBreak | web/js/agents.js:197 | a line break inside the query defeats the whole mention |
| WebAgents.MentionRoundTrip | web/js/agents.js:195-205 | a mention written as `@name`, a blank and a one-line trimmed query is read back exactly |
| WebAgents.ExtractNameOnly | web/js/agents.js:195-205 | a trimmed input of `@` and a name alone mentions that name with an empty query |
| WebAgents.AtMatch | web/js/agents.js:28 | a match is an `@` before the cursor followed only by name characters up to the cursor |
| WebAgents.AtMatchNone | web/js/agents.js:28 | without a match, every `@` before the cursor has a non-name character after it |
| WebAgents.FilterAgents | web/js/agents.js:50-54 | the agents kept are exactly those whose name contains the search text, ignoring case |
| WebAgents.ShowAgents | web/js/agents.js:48-109 | the list is shown exactly when some agent matches, then with the matching names and the first selected; otherwise it is hidden with no selection |
| WebAgents.AgentKeysValid | web/js/agents.js:141-180 | a hidden list handles no key; the arrows move the selection by one and wrap, and Down then Up comes back; Enter and Tab pick the selected name and leave the list hidden with no selection; Escape hides it |
| WebAgents.InsertAgentMention | web/js/agents.js:112-138 | the cursor stays within the text |
| WebAgents.InsertCompletes | web/js/agents.js:112-134 | the `@partial` before the cursor becomes `@name` and a blank, the cursor moves past the blank, the text after the cursor is kept, and no `@partial` is left open |
| WebAgents.CompletionIsMention | web/js/agents.js:112-205 | completing an `@partial` typed at the start gives input that mentions the chosen agent |
| WebAgents.FindAgent | web/js/messages.js:29 | the agent found has exactly the mentioned name; none is found only when no agent has that name |
| WebFiles.HashPathsShape | web/js/files.js:304-312 | every path found is non-empty and has no blank |
| WebFiles.ExtractFilePaths | web/js/files.js:304-312 | the exec loop finds exactly the paths of the reference scan, in order |
| WebFiles.MatchAt | web/js/files.js:306-309 | a `#` followed by a run of non-blanks up to a blank or the end yields that run, and the scan resumes after it |
| WebFiles.NoHashSkipped | web/js/files.js:306-309 | text without `#` contributes no path |
| WebFiles.HashPathFirst | web/js/files.js:306-309 | `#path` followed by a blank or the end yields `path` and then the paths of the rest |
| WebFiles.MentionsRoundTrip | web/js/files.js:304-312 | paths written as mentions are extracted again, in order and with repeats |
| WebFiles.TwoMentions | web/js/files.js:304-312 | two mentions in running text yield their two paths in order |
| WebFiles.ExtractTwoPaths | web/js/files.js:304-312 | "check #a/b.txt and #c.txt" yields `a/b.txt` then `c.txt` |
| WebFiles.SearchSplitAtLastSlash | web/js/files.js:25-27 | the search splits at its last `/`: the directory before it and the filter after it; without one the directory is empty and the filter is the whole text |
| WebFiles.FilterFiles | web/js/files.js:33-37 | the entries kept are exactly those whose name contains the filter, ignoring case |
| WebFiles.Rows | web/js/files.js:55-99 | one row per entry, plus the parent row when there is one |
| WebFiles.ShowFiles | web/js/files.js:23-104 | the list it leaves is well formed |
| WebFiles.ShowFilesRule | web/js/files.js:23-104 | the list is hidden exactly when the search is at the top level and nothing matches; otherwise it lists the matches; inside a directory the parent row leads and is selected; at the top level the first match is selected |
| WebFiles.Marks | web/js/files.js:288-301 | one mark per row |
| WebFiles.MarkedIsSelected | web/js/files.js:219-295 | in a shown list exactly one row is marked, the one at the selection plus the parent offset, and it is the row Enter acts on |
| WebFiles.FileKeysValid | web/js/files.js:185-285 | a hidden list handles no key; with a parent row the selection cycles over -1 to the last entry, otherwise it wraps; Down then Up comes back; Enter on an entry inserts its path and hides the list; Enter or Tab on the parent row browses up; Tab on an entry browses into a directory and does nothing for a file |
| WebFiles.HashMatch | web/js/files.js:163 | a match is a `#` before the cursor with no blank after it up to the cursor |
| WebFiles.HashMatchLeftmost | web/js/files.js:163 | the match is the leftmost such `#`: every earlier `#`, and without a match every `#`, has a blank after it |
| WebFiles.InsertFileMention | web/js/files.js:156-182 | the cursor stays within the text |
| WebFiles.InsertPathCompletes | web/js/files.js:156-178 | the `#partial` before the cursor becomes `#path` and a blank, the cursor lands at the `#`'s position plus the path length plus 2, and the text after the cursor is kept |
| WebFiles.CompletionIsPath | web/js/files.js:156-312 | completing a `#partial` typed alone gives a message whose only path is the chosen one |

## Left out

- GoStrings.LowerChar: lower-cases ASCII letters only. Go's `strings.ToLower` maps all of Unicode, so non-ASCII letters compare as written in every case-insensitive test built on it (ToolsCli.EvaluateCommandSecurity, ToolsSsh.Normalize).
- ToolsSsh.Normalize: trims Unicode white space as `strings.TrimSpace` does, but lower-cases ASCII letters only, for the reason above.
- WebAgents.NameMatches: lower-cases ASCII only, where JavaScript's `toLowerCase` is Unicode-aware; WebAgents.FilterAgents, WebFiles.FileMatches and WebFiles.FilterFiles inherit this.
- WebNav.ShortText: counts characters, not the UTF-16 code units JavaScript counts, so a text with characters outside the Basic Multilingual Plane is cut at a different place; WebCards.Truncate and every other JavaScript length in the model share this.
- CliInput.IsHan: approximates `\p{Han}` by the CJK ideograph blocks and the ideographic iteration and number marks, not Unicode's full Han script property.
- WebHistory.EventStep: a stored text event always carries a string; the source's `'' + undefined` for a text event without `content`, which shows the word "undefined", is not modelled.
- WebHistory.ReplayMatchesLive: proved only for one agent turn whose events are all text; turns with tool calls or actions, and several turns in a row, are covered by the per-event rules (EventRules, TurnAppends) but not by a replay-equals-live theorem.
- ToolsFile.FileTools.FileEdit: reports the length of the new content in characters; tools/file/func.go:946 reports `len(req.Content)`, which is in bytes. It also inherits ToolsFile.Edit's single write error.
- ServerFiles.GetFiles: every directory entry has its information; the source's skip of an entry whose `Info()` fails is not modelled.
- ServerHistory.LoadHistoryFile: the history directory is taken to exist, so "." always names it and gives 500; with no directory the source answers 404.
- ServerHistory.DeleteHistoryFile: "." always gives 500, as removing a directory that holds files does; removing an empty history directory, which the source would do, and a missing directory are not modelled.
- ServerHistory.RenameHistoryFile: the history directory is taken to exist, so "." is always an existing name.
- CommonInputHistory.LoadHistory: the scanner's error (a line over 64 KiB, a read error) is not modelled; such a file loads as its lines.
- ToolsFile.SearchSpec: the scanner's error reply "读取文件时出错" (tools/file/func.go:776-780), for a line over 64 KiB or a read error, is not modelled.
- ToolsFile.FileTools.FileSearch: inherits SearchSpec's missing scanner error.
- ToolsFile.Edit: one write error stands for every I/O failure; the append's open failure "failed to open file" and the write's "failed to create directory" (tools/file/func.go:932-955) are reported as the write or append failure.
- ToolsFileLegacy.ReadSpec: the scanner's error reply "读取文件时出错" (tools/file.go:74-78), for a line over 64 KiB or a read error, is not modelled.
- ToolsFileLegacy.LegacyModify: the scanner's error reply (tools/file.go:203-207) is not modelled.
- ToolsFileLegacy.LegacyInsert: the scanner's error reply (tools/file.go:280-284) is not modelled.
- ToolsFileLegacy.OsFiles.FileRead: inherits ReadSpec's missing scanner error.
- ToolsFileLegacy.OsFiles.FileModify: inherits LegacyModify's missing scanner error.
- ToolsFileLegacy.OsFiles.FileInsert: inherits LegacyInsert's missing scanner error.
- MdiffPatch.ApplyHunks: the hunks are sorted stably by OldStart; `sort.Slice` is stable only up to 12 elements, so with 13 or more hunks the order of hunks that share an OldStart, and with it the result, is left open by the source but fixed by the model.
- MdiffPatch.SortHunks: the tie order among hunks with equal OldStart is fixed as stable (insertion sort); SortHunksSpec states only what `sort.Slice` promises.
- ServerChat.SelectedRunner: an unknown agent gives no runner, but the "agent not found" error frame the handler then writes is not modelled.
- ServerChat.InputMessages: a message's text is taken to be its content; `GetTextContent` is not part of this model.
- AgentsSummary.BeforeModel: the summariser call is a parameter; the persist callback, the compression events sent to the client and the rendering of messages into the summariser prompt (`renderMsg`) are not modelled.
- AgentsSummary.New: the summariser's reply is named "summary" in the source, not the summary message that is inserted; the model follows the source and the name is not used downstream.
- FkHistory.HistoryRecorder.RecordEvent: the schema `Type` field of a tool call is not modelled. When several tool calls are pending, the one a `tool_result` takes is chosen by Go's map order; the model leaves it open (see ResultUndetermined).
- ToolsTodo.TodoTools.TodoBatchDelete: the order of the not-found IDs follows Go's map order; only their set is fixed.
- ToolsCli.EvaluateCommandSecurity: the blacklist is searched in Go's map order, which is a parameter; only the description depends on it.
- ToolsFile.FileTools.FileSearch: plain-text mode only; the regular-expression mode is not modelled (no regular-expression engine). ToolsFile.FileTools.FileReplace is likewise plain mode only.
- CommonMessage.ConcatMessages: tool calls, extras and multi-content parts are gathered by the source but never copied into the result; the model states this (ToolCallsDropped) rather than treating it as a defect, since the intended merge rule is not known.
- ToolsUv.ParseLine: a colon inside an error message splits it (ColonInMessageSplits); the output format is ambiguous, so no corrected parser is proposed.
- WebCards: the transcript is a value (cards, open card, tool flag); WebClient.ChatClient holds it as fields and updates it in place, so DOM identity and aliasing of card elements are not modelled.
- The DOM: markdown rendering, `escapeHtml`, `exportToHTML`, tooltips, modal dialogs, status texts, the textarea's height, and the animations and timers. A timer's effect is a method called when it fires: NotificationRemoved, OnClose's retry delay.
- The browser's sidebar history and session switching (`loadSidebarHistory`, `createNewSession`, `checkAndLoadSessionHistory`) and the rename and delete dialogs of history.js: they are REST calls and DOM work.
- `formatSize`, `formatFileSize`, `formatFileTime` and `formatTime`: floating point and locale formatting.
- `getCurrentTime`, `Date.now()`, `time.Now` and fresh IDs: they are parameters (`Clock`, `now`, `msgId`).
- I/O of every tool and handler: file contents, directory listings and write errors are parameters or the fields of a store class; `validatePath` is an abstract check.
- Concurrency: the mutexes of HistoryRecorder, the runner cache, ResourceCleaner and OnceWithReset; every operation is sequential.
- fkevent/history.go's other members (GetFullHistory, GetConversationSummary, GetAgentNames, GetMessageCount, markdown export, default and timestamped file names, ListHistoryFiles, RecordEventWithHistory): not part of this model.
- tools/file/func.go's FileWrite, FileAppend, FileList, create, delete, directory, patch and diff tools: not part of this model.
- The uv environment tools (InitEnv, Install and the rest) and FormatCode: not part of this model; only the runner's clamps, arguments, verdict and syntax-check parser are.
- `GetSystemInfo` in tools/cli.go: it reads the host and is not part of this model.

## Findings

| source | as written | input that shows it | evidently intended | confidence | as-written member | corrected member |
|---|---|---|---|---|---|---|
| tools/cli.go:44,101-106 | only the command is lower-cased, so blacklist and pattern entries with capitals can never match | "chown -R u" is Moderate | the entries match case-insensitively, so "chown -R u" is Dangerous | not executed | ToolsCli.EvaluateAsWritten, ToolsCli.ChownRecursiveMissed | ToolsCli.EvaluateCommandSecurity, ToolsCli.EvaluateCaseInsensitive |
| mdiff/parse.go:109-119 | strips `a/` and then `b/` too | "--- a/b/config.go" gives "config.go"; mdiff/mdiff_test.go:404-410 expects "b/config.go" | strip one `a/` or `b/` prefix | not executed | MdiffParse.ParseFileNameAsWritten, MdiffParse.ParseFileNameAsWrittenConfig | MdiffParse.ParseFileName, MdiffParse.ParseFileNameStripsOne |
| common/resource_cleaner.go:61-71 | RemoveLast drops the last slot but keeps a name pointing at it | AddNamed("db", f), RemoveLast(), Add(g), ExecuteNamed("db") runs g | the name of the removed slot is forgotten | not executed | CommonCleaner.ResourceCleaner.RemoveLastAsWritten, CommonCleaner.StaleNameAsWritten | CommonCleaner.ResourceCleaner.RemoveLast, CommonCleaner.StaleNameCorrected |
| common/message.go:54-58 | the toolNames conflict error prints the tool-call IDs | chunks with ToolCallID "call_1" and tool names "read_file" then "write_file" report 'call_1' 'call_1' | the error names the two tool names | not executed | CommonMessage.ToolNameErrorAsWrittenOmitsNames | CommonMessage.ToolNameErrorNamesIncoming |
| tools/file/func.go:204-212 | the slice bounds cross when 0 < EndLine < StartLine - 1, and the slice panics; EndLine = StartLine - 1 reads nothing | lines 3 to 1 of a three-line file | a range whose slice would panic is refused with the invalid-line-number error; lines 3 to 2 still read nothing | not executed | FileLines.ReadCrossedRange, FileLines.ReadAsWrittenPanics | FileLines.Read, FileLines.ReadAgreesOutsideCrossedRanges |
| tools/file/func.go:866-868 | with a positive max_count the replaced count is Count(before) - Count(after) | "a" with "a" replaced by "aa", max_count 1, reports -1 | the number of replacements made, min(max_count, occurrences) | not executed | FileLines.ReplacedCountNegative | FileLines.ReplacedCount |
