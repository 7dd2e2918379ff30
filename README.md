# golangci-lint-langserver: the lint pipeline, in Dafny

golangci-lint-langserver is a Language Server Protocol server. For each
document the editor opens or saves, it runs `golangci-lint` and publishes the
linter's issues as diagnostics. This project models and verifies the part of
`handler.go` between "a document URI was dequeued" and "its diagnostics were
published":

- **Command construction.** The document path is split into directory and
  file name. The argument vector is `command[1:]` followed by the directory,
  and `command[0]` is the executable. The working directory is the workspace
  root when the path starts with the root, and the file's own directory
  otherwise. The start test is on strings, not path components: in root
  `/proj`, the file `/project/a.go` runs in `/proj` and is expected under
  the name `ct/a.go`.
- **Output handling.** Empty standard output becomes one synthetic Error
  diagnostic (`errToDiagnostics`). Otherwise only the first `\n`-delimited
  line is decoded, and a decode failure also becomes one Error diagnostic.
- **Issue mapping.** Only issues reported under the linted file's name are
  kept, in their order. Each becomes a point-range diagnostic at its
  zero-based line and column, with the severity from `SeverityFromString`,
  the linter's name as source, and the message from `diagnosticMessage`.
- **Session initialisation.** `Initialize` takes the root from the first
  workspace folder. A `command` option that holds a Go `[]string` replaces
  the command, even when that slice is nil; otherwise the command already
  set stays. A command that is still nil then becomes the default
  `golangci-lint run --out-format json`.
- **The worker loop.** `linter` lints the dequeued documents in order and
  publishes one diagnostic set per document.

The stateful parts follow the source's own shape. `Handler.Handler` is a
class with the `command`, `rootURI` and `rootDir` fields that `Initialize`
writes. `Lint`, `BuildCommand`, `MapIssues` and `Linter` are imperative
methods, each proved equal to a specification function (`LintResult`,
`Prepare`, `DiagnosticsFor`, `Worker`), and the lemmas state the properties
of those functions.

Go's run-time panics on this path are outcomes, not preconditions:

- slicing `command[1:]` of an empty command;
- slicing `path[len(root)+1:]` when the path is the root itself;
- calling `Error()` on a nil error when the linter printed nothing and
  exited cleanly;
- indexing an empty workspace-folder list (`Initialize`);
- asserting non-map initialisation options (`Initialize`).

`Initialize` runs on the connection's goroutine, and the model returns its
two panics as its `panic` result. A panic in a lint cycle stops the worker
(`Crashed`). The worker is a goroutine without
`recover` (handler.go:39), so in the running server such a panic ends the
whole process, not just the loop.

Two things are parameters:

- The linter process is `run(n, invocation)`: the standard output and the
  error of the n-th lint cycle. The error is an exit error carrying stderr,
  or another error carrying its text.
- The JSON decoder is `decode(line)`: the decoded issues, or the decoder's
  error text.

Integer widths are explicit. An issue's line and column are Go `int`
(64-bit), and `Line-1` wraps around at the smallest value. The clamp at 0
follows, and the conversion to the protocol's `uint32` keeps the low 32 bits.

Files: `wrappers.dfy` (Option, Result), `protocol.dfy` (Go integer types,
panics, issue and diagnostic records), `severity.dfy`, `paths.dfy`,
`command.dfy`, `output.dfy`, `mapping.dfy`, `handler.dfy`.

## Model

| member | source | states |
|---|---|---|
| GoRuntime.Wrap64 | handler.go:149-150 | in range the value is unchanged; otherwise it differs by a multiple of 2^64 (int64 wrap-around of `Line-1`) |
| GoRuntime.TruncateToUint32 | handler.go:149-150 | `uint32(x)` keeps values below 2^32 and otherwise agrees with `x` modulo 2^32 |
| Severities.LowerChar | handler.go:93 | a character lower-cases to a different ASCII letter only when it is 'A'-'Z' (to the letter 32 code points up), U+0130 or U+212A |
| Severities.Lower | handler.go:93 | `strings.ToLower` keeps the length and lower-cases character by character |
| Severities.SeverityFromString | handler.go:92-105 | Error, Information and Hint exactly when the lower-cased word is "error", "information" or "hint"; Warning exactly when it is none of these |
| Severities.LowerOfCaseVariant | handler.go:93 | any upper/lower-case spelling of a lower-case ASCII word lower-cases to that word |
| Severities.SeverityIgnoresCase | handler.go:92-101 | "error", "warning", "information" and "hint" in any case map to Error, Warning, Information and Hint |
| Severities.UnknownSeverityIsWarning | handler.go:102-103 | every other word maps to Warning |
| Severities.EmptySeverityIsWarning | handler.go:102-103 | an empty severity maps to Warning |
| Severities.SeverityDependsOnlyOnLowerCase | handler.go:93 | two spellings with the same lower case get the same severity |
| Paths.LastSeparator | handler.go:109 | the index of the last '/', or -1 when there is none, with no '/' after it |
| Paths.Split | handler.go:109 | `filepath.Split`: dir + file is the path, file has no '/', and dir is empty or ends in '/' |
| Paths.SplitUnique | handler.go:109 | any cut of the path with those three properties is the one Split returns |
| Paths.PrefixThenRest | handler.go:116-118 | a path that starts with the root and is not the root is the root, one more character and the rest |
| Paths.HasPrefix | handler.go:116 | `strings.HasPrefix`: the prefix is the string's first characters, compared as text and not path component by path component |
| Commands.Prepare | handler.go:109-121 | the invocation and reported name of `lint`: split the path; panic on an empty command; run `command[0]` with `command[1:]` and the directory, in the root with the name after the root and one more character when the path starts with the root as a string (panicking when it is the root), else in the directory with the bare name |
| Commands.PreparePanics | handler.go:112-118 | preparing the command panics (slice bounds) exactly when the command is empty or the path is the root itself |
| Commands.PrepareArguments | handler.go:111-115 | the executable is `command[0]`; the arguments are `command[1:]` followed by Split's directory |
| Commands.OutsideRootUsesSplit | handler.go:109-121 | outside the root, the working directory and the reported name are Split's two parts: together they make the path, and the name has no '/' |
| Commands.InsideRootDropsRootAndNextChar | handler.go:116-118 | inside the root, the working directory is the root and the reported name is the path without its first `len(root)+1` characters: the root and one more character, whatever that character is |
| Commands.BuildCommand | handler.go:109-121 | the successive appends and the branch on the root prefix build exactly `Prepare`, including its panics |
| Output.FirstLine | handler.go:131-133 | the decoded text is a prefix of the output with no '\n', cut at the first '\n' if there is one |
| Output.FirstLineIgnoresRest | handler.go:131-133 | output `line + "\n" + rest` decodes as `line`, whatever `rest` is |
| Output.ErrorMessage | handler.go:45-52 | the type switch of `errToDiagnostics`: the stderr of an exit error, the `Error()` text of any other error |
| Output.ErrToDiagnostics | handler.go:44-59 | exactly one Error diagnostic with a zero range and empty source; its message is the stderr of an exit error, the error text otherwise |
| Mapping.ZeroBased | handler.go:149-155 | line/column n in 1..2^32 becomes n-1; n ≤ 1 becomes 0, except the smallest int64, which wraps to 2^32-1; every positive n becomes (n-1) mod 2^32 |
| Mapping.DiagnosticMessage | handler.go:167-173 | the message ends with the issue text; it is just the text when linter names are off, and `FromLinter + ": "` + text otherwise |
| Mapping.ToDiagnostic | handler.go:146-160 | one issue as a diagnostic: the point range at its zero-based line and column, its severity word mapped, its linter as source, and its formatted message |
| Mapping.Matching | handler.go:140-144 | the kept issues are at most as many as the issues, all have the file's name, and all come from the input |
| Mapping.DiagnosticsFor | handler.go:139-162 | what the mapping loop publishes: `ToDiagnostic` of each issue for the file, in order |
| Mapping.MatchingAppend | handler.go:140-144 | filtering distributes over concatenation, so relative order is kept |
| Mapping.MatchingMultiplicity | handler.go:140-144 | each issue for the file is kept as often as it occurs; every other issue is dropped |
| Mapping.MatchingEmpty | handler.go:142-144 | nothing is kept exactly when no issue names the file |
| Mapping.MatchingAll | handler.go:142-144 | everything is kept when every issue names the file |
| Mapping.DiagnosticsArePointRanges | handler.go:146-158 | every diagnostic has start = end and its source is the linter of an issue reported for the file |
| Mapping.FirstAndMissingPositionsAreZero | handler.go:149-155 | line and column 1 or 0 give the range (0,0)-(0,0) |
| Mapping.MinimumLineWraps | handler.go:149 | the smallest int64 line gives line 2^32-1, not 0 |
| Mapping.DiagnosticsForSnoc | handler.go:140-161 | one more issue appends its diagnostic exactly when it names the file |
| Mapping.MapIssues | handler.go:139-162 | the filter-and-append loop yields one diagnostic per issue for the file, in order (`DiagnosticsFor`) |
| Handler.HasCommand | handler.go:206 | the `ok` of the type assertion: the options carry a `command` entry whose dynamic type is `[]string` |
| Handler.ConfiguredCommand | handler.go:206-212 | a non-nil `[]string` option is used unchanged and a nil one gives the default; without such an option the command already set is kept, else the default `golangci-lint run --out-format json` |
| Handler.LintResult | handler.go:107-165 | one lint cycle: prepare the command (or panic), run it, turn empty output into the error's diagnostic (panicking on a nil error), decode the first line, turn a decode error into its diagnostic, else map the issues for the reported name |
| Handler.LintPanics | handler.go:107-129 | a lint cycle panics exactly when the command cannot be prepared, or when the output is empty and the error is nil |
| Handler.LintEmptyOutput | handler.go:124-129 | empty output with an error publishes exactly one Error diagnostic carrying the stderr or the error text |
| Handler.LintDecodeFailure | handler.go:131-135 | a first line that fails to decode publishes exactly one Error diagnostic carrying the decoder's error |
| Handler.LintKeepsIssuesForFile | handler.go:139-164 | decoded issues publish one diagnostic per issue for the reported name, in order; there are at most as many as issues, and none exactly when no issue names the file |
| Handler.LintIgnoresTrailingLines | handler.go:131-133 | output "line\nrest" gives the same outcome as the bare line |
| Handler.ScenarioInvocation | handler.go:109-121 | `/proj/pkg/a.go` in workspace `/proj` with command `lint --format json` runs `lint --format json /proj/pkg/` in `/proj` and expects `pkg/a.go` |
| Handler.ScenarioRootPrefixOfSiblingDirectory | handler.go:109-121 | `/project/a.go` in workspace `/proj` with command `lint` counts as inside the root: it runs `lint /project/` in `/proj` and expects the name `ct/a.go` |
| Handler.ScenarioSeverity | handler.go:96-97 | "warning" is Warning |
| Handler.ScenarioMessage | handler.go:167-173 | the message of linter `x`, text `unused var` is `unused var` or `x: unused var` |
| Handler.ScenarioDiagnostic | handler.go:146-160 | a warning at line 10, column 3 becomes a Warning at (9,2)-(9,2) |
| Handler.ScenarioMapping | handler.go:139-162 | that issue, reported for the linted file, maps to exactly that one diagnostic |
| Handler.ScenarioIssueInLintedFile | handler.go:107-164 | the whole cycle for that issue publishes exactly that one diagnostic |
| Handler.ScenarioIssueInSiblingFile | handler.go:139-144 | an issue reported only for `pkg/b.go` publishes an empty set for `pkg/a.go` |
| Handler.ScenarioConfigError | handler.go:124-129 | an exit with empty output and a stderr message publishes one Error diagnostic with that message |
| Handler.CycleOutcomes | handler.go:175-182 | the outcome of each request's lint cycle, the k-th request linted as cycle k |
| Handler.WorkerFrom | handler.go:176-199 | the loop from request `i` on: publish each outcome's diagnostics under its request's URI until a cycle panics or the queue ends |
| Handler.Worker | handler.go:175-200 | the loop over the whole queue, from the first request |
| Handler.WorkerFromPublishesInOrder | handler.go:176-199 | from request `i` on, one publish per request in queue order, each the request's URI with its own diagnostics, up to the end of the queue or the first panicking cycle, at which it stops |
| Handler.WorkerAdvance | handler.go:177-198 | after the requests before `i` were published, request `i` either stops the worker with its panic or is published, and the loop goes on at `i + 1` |
| Handler.WorkerDone | handler.go:176-179 | when the queue is exhausted, everything was published and the worker ends with the queue closed |
| Handler.WorkerPublishesInOrder | handler.go:175-200 | one publish per request, in queue order, each the request's URI with its own diagnostics; the queue is run through unless a cycle panics, and then the worker stops at that request |
| Handler.Handler.Command | handler.go:111-112 | the command as `lint` reads it: the slice set, or no elements while it is nil, so `command[1:]` then panics |
| Handler.Handler.constructor | handler.go:32-42 | a new handler has its no-linter-name flag, no command and an empty root |
| Handler.Handler.Initialize | handler.go:202-212 | the first folder becomes the root; the command becomes `ConfiguredCommand`; no folders or non-map options panic, and a panic leaves the command as it was |
| Handler.Handler.Lint | handler.go:107-165 | one lint cycle computes exactly `LintResult` for the handler's current command, root and flag |
| Handler.Handler.LintRequest | handler.go:177-182 | the loop body's cycle for the request at `i` gives that request's cycle outcome |
| Handler.Handler.Linter | handler.go:175-200 | the loop publishes exactly what `Worker` gives for the per-request cycle outcomes, the k-th request linted as cycle k |

## Left out

- The goroutine, the unbuffered request channel and its blocking hand-off (handler.go:37-39, 177): the worker is a loop over the finite sequence of dequeued requests. Closing the channel is the end of that sequence.
- `DidOpen`, `DidSave`, `WillSave` and `Shutdown` (handler.go:230-247) only send to or close the channel. A send after `Shutdown`, or a double close, is a concurrency fault outside this model.
- The capabilities and server-info record returned by `Initialize` (handler.go:214-227), and the ~50 stub protocol methods.
- Logging, including `logger.Fatal` (handler.go:184, 197). The `err != nil` branch of `linter` is dead, because `lint` always returns a nil error. A failing notify is not modelled: publishing always succeeds.
- Process execution and JSON decoding: `exec.Command`/`cmd.Output()` and the sonic decoder are the `run` and `decode` parameters.
- The `uri.New`/`Filename()` conversions: documents, the root and the workspace folders are given with their file-system paths. Paths are Unix paths with '/' as separator.
- Issue fields the pipeline never reads (`SourceLines`, `Replacement`, `LineRange`, `ExpectNoLint`, `ExpectedNoLintLinter`). `Offset` and the report's linter names (`ToolResult.linters`) are carried but never read, as in the source.
- Text is `seq<char>`, not UTF-8 bytes. Splitting on '\n' and the prefix test agree with the byte view for any text.
- Commands.Prepare: `path[len(root)+1:]` counts bytes, and the model drops `|root| + 1` characters. Since the root is a prefix of the path, both remove exactly the root, so the two agree exactly when the character right after the root is ASCII (one byte), whatever the root. With root `/proj` and path `/projé/a.go`, Go drops only the first byte of 'é' and reports a name that starts with its second byte, while the model reports `/a.go`.
- Severities.LowerChar: only the characters whose lower case is ASCII are lower-cased ('A'-'Z', U+0130, U+212A). Other characters keep their case. This cannot change which severity word matches, but `Lower` is not the full `strings.ToLower`.
- Handler.Initialize: the options are either a map or not, and the `command` entry is either `StringList` or `OtherValue`; Go's dynamic type assertions are reduced to that choice. `StringList` is a value whose dynamic type is Go's `[]string`, nil (`None`) or not. A JSON array sent by a client decodes into an `any` as `[]any`, so it arrives as `OtherValue`: the assertion at handler.go:206 fails and, by `ConfiguredCommand`'s contract, the command already set or the default is kept. The JSON decoding of the options is not part of this model.
