# jira-weasel: the `Todo` record and its file rewriting, in Dafny

jira-weasel finds marker comments (`TODO`, `FIXME`, …) in source files, opens
an issue for each one, and then rewrites the marker's line in its file so that
it carries the issue id. This project models the `Todo` record of `todo.go`
and what is done with it:

- `todo.dfy`, module `Todos`: the `Todo` datatype (the optional issue id is an
  `Option`), the prefix test `LineHasTodoPrefix`, the two renderings of a
  marker's opening line (`ReturnTodoFirstLine` and the replacement line
  `UpdatedTodoString`), and the newline-joined body `StringBody`.
- `mutator.dfy`, module `Mutator`: the two passes that rewrite a file,
  `ChangeTodoStatusToReported` and `SelfPurge`, as methods of a class
  `FileSystem` whose one field maps paths to files (a sequence of lines and
  mode bits). Each pass creates a temporary file, opens the origin, reads its
  mode, copies the origin into the temporary file line by line in a `while`
  loop driven by the counter `lnn`, copies the mode onto the temporary file
  and renames it over the origin. The function `Protocol` gives the whole
  resulting file system and error for every combination of failing system
  calls. Which calls fail is an input (`IoFaults`); opening also fails when
  the origin does not exist. The line writes into the temporary file may fail
  too; the passes do not look at those errors.

What is proved:

- `LineHasTodoPrefix` answers exactly when the prefix is present, and the
  prefix followed by the answer is the line.
- Both renderings start with prefix and keyword. The reported form is the
  unreported one with ` (<id>)` spliced in. The replacement line ignores the
  line it replaces and is the reported form with one extra space after the
  prefix, so the two are never equal.
- `StringBody` has the length of its lines plus one separator between each
  pair, and splitting it at newlines gives the body back when no body line
  holds a newline.
- Reporting keeps the number of lines, replaces line `line` with the
  replacement line and copies every other line. It changes nothing when the
  marker is unreported or the line number is 0 or past the end.
- On any failing step the origin file and every other file except the
  temporary one are untouched. On success the origin keeps its old mode and
  the temporary file is gone; the origin holds the new lines when the writes
  succeeded, and nothing at all when they failed, although the run still
  reports success.
- `SelfPurge` (with working writes) cuts the file just before the title line
  whenever the title line lies in the file. It leaves the file unchanged for a
  line number past the end. In every case it keeps a subsequence of the lines in their order.
  See Findings.

## Model

| member | source | states |
|---|---|---|
| `Todos.LineHasTodoPrefix` | todo.go:29-35 | the result is present iff the marker's prefix starts the line, and then prefix + result is the line |
| `Todos.StripAfterPrepend` | todo.go:29-35 | stripping the prefix from prefix + rest gives back exactly rest |
| `Todos.ReturnTodoFirstLine` | todo.go:72-90 | the opening line starts with prefix + keyword + " P" + priority, ends with ": " + title, and its length is that of those parts, plus the id and 3 characters when the marker is reported |
| `Todos.ReportedFormInsertsId` | todo.go:72-90 | the reported form is the unreported form with " (" + id + ")" inserted between the priority and the colon |
| `Todos.FirstLineHasPrefix` | todo.go:29-35 | the prefix test accepts the opening line, and what it leaves starts with keyword + " P" + priority and is the opening line rendered with an empty prefix |
| `Todos.UpdatedTodoString` | todo.go:56-70 | an unreported marker returns the given line unchanged; a reported one returns a line starting with prefix + " " + keyword, one character longer than the opening line |
| `Todos.UpdatedIgnoresOldLine` | todo.go:56-70 | for a reported marker the replacement line does not depend on the line it replaces |
| `Todos.UpdatedIsFirstLineWithExtraSpace` | todo.go:56-90 | the replacement line is prefix + " " + the opening line after its prefix, and differs from the opening line |
| `Todos.Join` | todo.go:92-94 | joining no parts gives "", one part gives that part, otherwise the length is the parts' lengths plus one separator between each pair |
| `Todos.StringBody` | todo.go:92-94 | an empty body gives "", a one-line body gives that line, otherwise the length is the body's lengths plus one newline between each pair |
| `Todos.SplitJoin` | todo.go:92-94 | splitting the newline-joined parts at newlines gives the parts back when none holds a newline |
| `Todos.SplitStringBody` | todo.go:92-94 | splitting `StringBody` at newlines gives the body lines back when none holds a newline |
| `Mutator.Created` | todo.go:99-100 | creating the temporary file leaves it empty, with its old mode when it existed and 0666 otherwise |
| `Mutator.ProtocolErrors` | todo.go:97-151 | the run fails iff creating, opening (a failure or a missing origin), chmod or rename fails; a failed create or open is reported as such |
| `Mutator.ProtocolErrorKeepsFiles` | todo.go:100-149 | after any failing step every file other than the temporary one is as it was, the origin included |
| `Mutator.Scanned` | todo.go:110-121 | the scan reads the origin's lines when the origin is not the temporary file, and nothing when it is (creating the temporary file emptied it) |
| `Mutator.Protocol` | todo.go:97-151 | the whole resulting file system and error of create, open, stat, the writes, chmod and rename; characterised by `ProtocolErrors`, `ProtocolErrorKeepsFiles` and `ProtocolSuccess`; its own contract: on success the origin holds what the writes stored, on an error no file other than the temporary one appeared |
| `Mutator.ProtocolSuccess` | todo.go:132-150 | after a successful run the origin holds the lines the writes stored (all of them, or none when the writes failed) with its old mode, the temporary file is gone and every other file is as it was |
| `Mutator.WriteFailureEmptiesOrigin` | todo.go:121-150 | when every line write fails but the other steps succeed, the run reports success and the origin is left empty with its old mode |
| `Mutator.ProtocolOutcome` | todo.go:100-150 | for a run whose origin is not the temporary file: an error leaves the origin as it was, success installs the stored lines with the old mode |
| `Mutator.ReportFrom` | todo.go:123-131 | definition of the reporting scan from counter `lnn` on; it writes exactly one line per line read; characterised by `ReportFromAt` |
| `Mutator.ReportedLines` | todo.go:121-131 | definition of the reporting scan over the whole file; same number of lines; characterised by `ReportedLinesPointwise` |
| `Mutator.ReportFromAt` | todo.go:123-131 | the line the reporting scan writes for the line read when `lnn + 1` equals the marker's line is the replacement line; every other one is copied |
| `Mutator.ReportFromStep` | todo.go:123-131 | one scan step writes the replaced or copied line and continues with `lnn + 1` |
| `Mutator.ReportedLinesPointwise` | todo.go:121-131 | reporting keeps the number of lines, line `line` becomes `UpdatedTodoString` of it, every other line is copied |
| `Mutator.ReportedLinesIdentity` | todo.go:121-131 | an unreported marker, line number 0 or a line number past the end leaves the lines as they are |
| `Mutator.PurgeFrom` | todo.go:165-176 | definition of the purge scan as written, `lnn` counting written lines; it never writes more lines than it reads; characterised by `PurgeFromStep`, `PurgeFromAtTitle`, `PurgeFromBeforeTitle` and `PurgeFromLineZero` |
| `Mutator.PurgeAsWritten` | todo.go:163-176 | definition of the purge as written over the whole file; no longer than the file; characterised by `SelfPurgeTruncatesAtTitle`, `SelfPurgeBeyondEnd`, `SelfPurgeLineZero` and `SelfPurgeKeepsOrder` |
| `Mutator.PurgeFromStep` | todo.go:165-176 | one purge scan step skips the line at the title test or at the body test, else writes it and advances `lnn` |
| `Mutator.PurgeFromAtTitle` | todo.go:165-176 | once `lnn + 1` equals the title line number, every remaining line is dropped |
| `Mutator.PurgeFromBeforeTitle` | todo.go:165-176 | before the title line is reached, the scan keeps lines until `lnn` reaches the title line number minus one |
| `Mutator.SelfPurgeTruncatesAtTitle` | todo.go:164-176 | for a title line inside the file the purge result is exactly the lines before the title line |
| `Mutator.SelfPurgeBeyondEnd` | todo.go:164-176 | a title line number past the end leaves the lines as they are |
| `Mutator.PurgeFromLineZero` | todo.go:170-175 | with line number 0 and `lnn > 0`, exactly the lines without the prefix are kept |
| `Mutator.SelfPurgeLineZero` | todo.go:164-176 | with line number 0 the first line is kept and later lines carrying the prefix are dropped |
| `Mutator.PurgeFromSubsequence` | todo.go:165-176 | the purge scan keeps a subsequence of the lines it reads, in order |
| `Mutator.SelfPurgeKeepsOrder` | todo.go:164-176 | for any line number the purge result is a subsequence of the file |
| `Mutator.PurgeMarkerFrom` | todo.go:165-176 | definition of the corrected purge scan, `lnn` counting lines read; never longer than its input; characterised by `PurgeMarkerFromCut` |
| `Mutator.PurgeMarkerLines` | todo.go:163-176 | definition of the corrected purge over the whole file; no longer than the file; characterised by `PurgeMarkerRemovesExactlyMarker` |
| `Mutator.PurgeMarkerFromStep` | todo.go:165-176 | one corrected purge step drops a line of the marker and keeps any other, always advancing `lnn` |
| `Mutator.PurgeMarkerFromCut` | todo.go:165-176 | the corrected scan keeps the lines before the title and those after the body, nothing else |
| `Mutator.PurgeMarkerRemovesExactlyMarker` | todo.go:164-176 | the corrected purge leaves lines before the title followed by lines after the body, one title and `|body|` lines fewer |
| `Mutator.SelfPurgeEmptiesFileAfterMarker` | todo.go:164-176 | on a three-line file with the marker on line 1, the purge as written leaves nothing where the corrected one leaves the code line |
| `Mutator.ScenarioReplacementLine` | todo.go:56-70 | the replacement line of the `// ` TODO marker reported as PROJ-42 has two spaces after `//` |
| `Mutator.ReportScenario` | todo.go:121-131 | reporting that marker rewrites line 1 only, to that replacement line |
| `Mutator.ReportOutcome` | todo.go:97-151 | from the protocol run of the reporting pass: an error leaves the origin as it was, success installs the reported lines (none when the writes failed) with the old mode |
| `Mutator.SelfPurgeOutcome` | todo.go:153-182 | from the protocol run of the purge as written: an abort leaves the origin as it was; success keeps the mode and a subsequence, empty when the writes failed and otherwise cut before the title line |
| `Mutator.PurgeMarkerOutcome` | todo.go:153-182 | from the protocol run of the corrected purge: an error leaves the origin as it was; success keeps the mode and, unless the writes failed, drops exactly the marker's lines |
| `Mutator.FileSystem.Create` | todo.go:99-108 | creating either fails and changes nothing, or empties or creates the temporary file |
| `Mutator.FileSystem.WriteLine` | todo.go:126-128 | writing a line appends it to the file and changes nothing else; a failing write changes nothing and reports nothing |
| `Mutator.FileSystem.Emit` | todo.go:124-129 | one write of a scan extends what the scan has stored in the temporary file by that line, or by nothing when writes fail |
| `Mutator.FileSystem.Chmod` | todo.go:132-140 | chmod either fails and changes nothing, or sets the file's mode and keeps its lines |
| `Mutator.FileSystem.Rename` | todo.go:141-149 | rename either fails and changes nothing, or moves the file to the new path, replacing what was there |
| `Mutator.FileSystem.ScanReported` | todo.go:121-131 | the reporting loop appends exactly the reported lines of the origin to the temporary file, or nothing when writes fail |
| `Mutator.FileSystem.ScanPurged` | todo.go:163-176 | the purge loop as written appends exactly the purge result of the origin to the temporary file, or nothing when writes fail |
| `Mutator.FileSystem.ScanPurgedMarker` | todo.go:163-176 | the corrected purge loop appends exactly the origin without the marker's lines, or nothing when writes fail |
| `Mutator.FileSystem.ChangeTodoStatusToReported` | todo.go:97-151 | the new file system and error are those of the protocol with the reported lines; an error leaves the origin untouched; success leaves the reported lines (none when the writes failed) with the original mode |
| `Mutator.FileSystem.SelfPurge` | todo.go:153-182 | requires a reported marker; the new file system is that of the protocol with the purge result; an abort leaves the origin untouched; success keeps the mode and a subsequence, empty when the writes failed and otherwise cut before the title line |
| `Mutator.FileSystem.PurgeMarker` | todo.go:153-182 | corrected purge: the protocol with the marker's lines removed; an error leaves the origin untouched; success keeps the mode and, unless the writes failed, drops exactly the title and body lines |

## Left out

- `CommitTodoUpdate` (todo.go:37-54): it runs `git add` and `git commit` as external processes, which the model cannot see.
- `PrintCurrentStatus` (todo.go:184-204) and every console message (todo.go:66, 98, 102-106, 154 and the other error prints): output only, and it uses a colour package that is not part of this model.
- main.go: configuration loading, credentials, the issue-tracker client and the loop that reports issues; `ChangeTodoStatus`, `CommitReportedTodo` and `LoadProjectFiles` are not part of this model.
- The marker parser and line classifier (`Weasel`, `TodoRegex`, `VisitAndReportWeaselFiles`) are not part of this model, so no parse/render round trip is stated; the `regex` field is carried but unused.
- A file is its sequence of lines. The model leaves out the scanner's handling of `\r`, its 64 KiB line limit and its ignored read error, and the trailing newline that writing adds to a last line that had none.
- The ignored `os.Stat` error (todo.go:120, todo.go:162): the model reads the mode of the file that was just opened. If that call failed anyway (the origin removed or replaced between the open and the stat), the file information is nil and reading its mode at todo.go:132 or todo.go:177 panics; the origin is untouched then, but the model has no such outcome.
- Paths are compared as strings: a path is treated as the canonical name of its file. Another spelling of the same file (a relative path, a symlink, `..`) is a different key, so `td.filePath != ReportTmpName` does not rule out that the origin is the temporary file.
- WriteLine: a failing write is modelled only as a run in which every write fails (`writeFails`). A run in which some writes fail and others succeed, or a write that stores part of a line, is not modelled; there the origin would be replaced by a file missing some lines.
- ChangeTodoStatusToReported: success states the reported lines only for runs whose writes all succeeded; with partly failing writes the source also returns nil, and the model does not say what the origin then holds.
- SelfPurge: as for `ChangeTodoStatusToReported`, partly failing writes are not modelled.
- The deferred `Close` calls and a crash between the writes and the rename; the temporary file left behind after a failed chmod or rename is modelled.
- The process umask: a new temporary file gets mode 0666 as requested.
- The fixed `/tmp` paths may lie on another device than the origin, so the rename may fail there; that failure is an input like the others. Two runs sharing one temporary path at the same time are not modelled.
- The priority is kept as an opaque string: its Go type is not part of this model and it is rendered with `%s`.
- The line number is an unbounded `nat`; its 64-bit wrap-around would need a file of 2^64 lines.
- `SelfPurge` stops the whole process through `assert.NoError` when a step fails; the model returns the failing step in `aborted` and leaves the state as it is at that point.
- `UpdatedTodoString` formats the replacement line as prefix, space, keyword (todo.go:59), while `ReturnTodoFirstLine` writes the keyword right after the prefix (todo.go:75, todo.go:84). For the prefix `// ` the replacement line therefore has two spaces after `//` (`ReportScenario`). The model keeps the extra space as written.
- The purge as written cuts the file at the title line (Findings). That the intended behaviour is to remove the title and its body only is read from the loop itself: the test at todo.go:170-171 is named `lineIsPartOfTheTodoBody` and skips prefixed lines after the title, which only makes sense if the lines after the marker are otherwise kept.
- `ChangeTodoStatusToReported`, `SelfPurge`, `PurgeMarker`: their statements about the origin file alone assume that the origin is not the temporary file itself. When it is, creating the temporary file empties the origin before it is read. Their first postcondition covers that case too.

## Findings

| source | as written | input that shows it | evidently intended | confidence | as-written member | corrected member |
|---|---|---|---|---|---|---|
| todo.go:164-176 | `lnn` only advances when a line is written, so once the title line is skipped the test `td.Line == lnn+1` holds for every later line and the file is cut at the title line; the body test at line 171 never fires | prefix `// `, title on line 1 with one body line, file `["// TODO: fix parsing", "// more context", "x := 1"]`: the file becomes empty | drop the title line and its body lines only, leaving `["x := 1"]` | high; not executed | `Mutator.SelfPurgeEmptiesFileAfterMarker` | `Mutator.FileSystem.PurgeMarker` |
