/**
 * The handler of handler.go: the session state written by `Initialize`, one
 * lint cycle (`lint`) and the worker loop (`linter`) that lints each dequeued
 * document and publishes its diagnostics.
 */
module Handler {
  import opened Wrappers
  import opened GoRuntime
  import opened Protocol
  import opened Paths
  import opened Commands
  import opened Output
  import opened Severities
  import opened Mapping

  /** A document URI together with the file-system path it names. */
  datatype DocumentRef = DocumentRef(uri: string, filename: string)

  /** What one run of the linter gives back: its standard output and its error, if any. */
  datatype ProcessResult = ProcessResult(stdout: string, err: Option<GoError>)

  /**
   * The linter process: `run(n, inv)` is what the n-th lint cycle gets back
   * from running `inv` (the file system may change between cycles).
   */
  type Runner = (nat, Invocation) -> ProcessResult

  /** The JSON decoder: the issues of one output line, or the decoder's error text. */
  type Decoder = string -> Result<ToolResult, string>

  /** The end of one lint cycle: a diagnostic set to publish, or a run-time panic. */
  datatype LintOutcome = Published(diagnostics: seq<Diagnostic>) | Panicked(cause: Panic)

  /** Why the worker loop stopped: the request queue was closed, or a lint cycle panicked. */
  datatype WorkerEnd = QueueClosed | Crashed(cause: Panic)

  /**
   * A value in the initialization options object, as far as `Initialize` can
   * tell: a Go `[]string`, which may be nil (`None`), or anything else.
   */
  datatype OptionValue = StringList(items: Option<seq<string>>) | OtherValue

  const DefaultCommand: seq<string> := ["golangci-lint", "run", "--out-format", "json"]

  /** The options carry a `command` whose dynamic type is `[]string`. */
  predicate HasCommand(options: map<string, OptionValue>) {
    "command" in options && options["command"].StringList?
  }

  /**
   * The command after `Initialize` (handler.go:206-212): a `[]string` option
   * replaces the command, nil or not; a nil command is then the default.
   */
  function ConfiguredCommand(current: Option<seq<string>>, options: map<string, OptionValue>): (c: seq<string>)
    ensures HasCommand(options) && options["command"].items.Some? ==> c == options["command"].items.value
    ensures HasCommand(options) && options["command"].items.None? ==> c == DefaultCommand
    ensures !HasCommand(options) && current.Some? ==> c == current.value
    ensures !HasCommand(options) && current.None? ==> c == DefaultCommand
  {
    var chosen := if HasCommand(options) then options["command"].items else current;
    if chosen.Some? then chosen.value else DefaultCommand
  }

  /** What every lint cycle reads from the handler: the command, the root path and the message flag. */
  datatype Session = Session(command: seq<string>, rootDir: string, noLinterName: bool)

  /** One lint cycle of handler.go `lint` for the document at `path`. */
  function LintResult(session: Session, path: string,
                      cycle: nat, run: Runner, decode: Decoder): LintOutcome
  {
    match Prepare(session.command, session.rootDir, path)
    case Err(p) => Panicked(p)
    case Ok(prepared) =>
      var out := run(cycle, prepared.invocation);
      if |out.stdout| == 0 then
        match out.err
        case None => Panicked(NilDereference)
        case Some(e) => Published(ErrToDiagnostics(e))
      else
        match decode(FirstLine(out.stdout))
        case Err(text) => Published(ErrToDiagnostics(OtherError(text)))
        case Ok(result) => Published(DiagnosticsFor(result.issues, prepared.file, session.noLinterName))
  }

  /**
   * A cycle panics exactly when the command cannot be prepared (an empty
   * command, or the root itself as the path) or when the output is empty
   * and there is no error.
   */
  lemma LintPanics(session: Session, path: string,
                   cycle: nat, run: Runner, decode: Decoder)
    ensures LintResult(session, path, cycle, run, decode).Panicked? <==>
      || Prepare(session.command, session.rootDir, path).Err?
      || (var out := run(cycle, Prepare(session.command, session.rootDir, path).value.invocation);
          |out.stdout| == 0 && out.err.None?)
  {
  }

  /** Empty output with an error gives exactly one Error diagnostic carrying the stderr or the error text. */
  lemma LintEmptyOutput(session: Session, path: string,
                        cycle: nat, run: Runner, decode: Decoder)
    requires Prepare(session.command, session.rootDir, path).Ok?
    requires var out := run(cycle, Prepare(session.command, session.rootDir, path).value.invocation);
      out.stdout == [] && out.err.Some?
    ensures var outcome := LintResult(session, path, cycle, run, decode);
      var err := run(cycle, Prepare(session.command, session.rootDir, path).value.invocation).err.value;
      && outcome.Published?
      && |outcome.diagnostics| == 1
      && outcome.diagnostics[0].severity == Error
      && outcome.diagnostics[0].message == (if err.ExitError? then err.stderr else err.text)
  {
  }

  /** A first line that does not decode gives exactly one Error diagnostic carrying the decoder's error. */
  lemma LintDecodeFailure(session: Session, path: string,
                          cycle: nat, run: Runner, decode: Decoder)
    requires Prepare(session.command, session.rootDir, path).Ok?
    requires var out := run(cycle, Prepare(session.command, session.rootDir, path).value.invocation);
      out.stdout != [] && decode(FirstLine(out.stdout)).Err?
    ensures var outcome := LintResult(session, path, cycle, run, decode);
      var out := run(cycle, Prepare(session.command, session.rootDir, path).value.invocation);
      && outcome.Published?
      && |outcome.diagnostics| == 1
      && outcome.diagnostics[0].severity == Error
      && outcome.diagnostics[0].message == decode(FirstLine(out.stdout)).error
  {
  }

  /**
   * Only the first output line is decoded: output "line\nrest" with any error
   * gives the same outcome as the bare line with none.
   */
  lemma {:induction false} LintIgnoresTrailingLines(session: Session, path: string, cycle: nat, run1: Runner, run2: Runner,
                                                    decode: Decoder, line: string, rest: string)
    requires Prepare(session.command, session.rootDir, path).Ok? && line != [] && '\n' !in line
    requires var inv := Prepare(session.command, session.rootDir, path).value.invocation;
      && run1(cycle, inv).stdout == line + "\n" + rest
      && run2(cycle, inv) == ProcessResult(line, None)
    ensures LintResult(session, path, cycle, run1, decode)
         == LintResult(session, path, cycle, run2, decode)
  {
    FirstLineIgnoresRest(line, rest);
  }

  /**
   * Decoded issues give one diagnostic per issue reported under the linted
   * file's name, in order; none when no issue is reported for it.
   */
  lemma LintKeepsIssuesForFile(session: Session, path: string,
                               cycle: nat, run: Runner, decode: Decoder)
    requires Prepare(session.command, session.rootDir, path).Ok?
    requires var out := run(cycle, Prepare(session.command, session.rootDir, path).value.invocation);
      out.stdout != [] && decode(FirstLine(out.stdout)).Ok?
    ensures var outcome := LintResult(session, path, cycle, run, decode);
      var file := Prepare(session.command, session.rootDir, path).value.file;
      var issues := decode(FirstLine(run(cycle, Prepare(session.command, session.rootDir, path).value.invocation).stdout)).value.issues;
      && outcome.Published?
      && |outcome.diagnostics| == |Matching(issues, file)| <= |issues|
      && (outcome.diagnostics == [] <==> forall k :: 0 <= k < |issues| ==> issues[k].pos.filename != file)
      && forall k :: 0 <= k < |outcome.diagnostics| ==>
           outcome.diagnostics[k] == ToDiagnostic(Matching(issues, file)[k], session.noLinterName)
  {
    var file := Prepare(session.command, session.rootDir, path).value.file;
    var issues := decode(FirstLine(run(cycle, Prepare(session.command, session.rootDir, path).value.invocation).stdout)).value.issues;
    MatchingEmpty(issues, file);
  }

  /** The invocation for /proj/pkg/a.go in workspace /proj with command `lint --format json`. */
  lemma ScenarioInvocation()
    ensures Prepare(["lint", "--format", "json"], "/proj", "/proj/pkg/a.go")
         == Ok(Prepared(Invocation("lint", ["--format", "json", "/proj/pkg/"], "/proj"), "pkg/a.go"))
  {
    var command, path := ["lint", "--format", "json"], "/proj/pkg/a.go";
    assert "/proj/pkg/" + "a.go" == path;
    SplitUnique(path, "/proj/pkg/", "a.go");
    assert path[..5] == "/proj";
    assert HasPrefix(path, "/proj");
    InsideRootDropsRootAndNextChar(command, "/proj", path);
    assert path[6..] == "pkg/a.go";
    assert command[1..] + ["/proj/pkg/"] == ["--format", "json", "/proj/pkg/"];
  }

  /**
   * /project/a.go in workspace /proj counts as inside the root: the linter
   * runs in /proj and the file is expected under the name `ct/a.go`.
   */
  lemma ScenarioRootPrefixOfSiblingDirectory()
    ensures Prepare(["lint"], "/proj", "/project/a.go")
         == Ok(Prepared(Invocation("lint", ["/project/"], "/proj"), "ct/a.go"))
  {
    var path := "/project/a.go";
    assert "/project/" + "a.go" == path;
    SplitUnique(path, "/project/", "a.go");
    assert path[..5] == "/proj";
    assert HasPrefix(path, "/proj");
    InsideRootDropsRootAndNextChar(["lint"], "/proj", path);
    assert path[6..] == "ct/a.go";
    assert ["lint"][1..] + ["/project/"] == ["/project/"];
  }

  /** "warning" is the Warning severity. */
  lemma ScenarioSeverity()
    ensures SeverityFromString("warning") == Warning
  {
    LowerOfCaseVariant("warning", "warning");
  }

  /** The issue of the scenarios below, turned into a diagnostic on its own. */
  lemma ScenarioDiagnostic(noLinterName: bool)
    ensures ToDiagnostic(Issue("x", "unused var", "warning", IssuePos("pkg/a.go", 0, 10, 3)), noLinterName)
         == Diagnostic(Range(Position(9, 2), Position(9, 2)), Warning, "x",
                       if noLinterName then "unused var" else "x: unused var")
  {
    ScenarioSeverity();
    ScenarioMessage(noLinterName);
    assert ZeroBased(10) == 9 && ZeroBased(3) == 2;
  }

  /** The message of the issue of the scenarios below, with and without the linter's name. */
  lemma ScenarioMessage(noLinterName: bool)
    ensures DiagnosticMessage(Issue("x", "unused var", "warning", IssuePos("pkg/a.go", 0, 10, 3)), noLinterName)
         == if noLinterName then "unused var" else "x: unused var"
  {
    assert "x" + ": " + "unused var" == "x: unused var";
  }

  /** The issue of the scenarios below, as the only issue reported for its own file. */
  lemma ScenarioMapping(noLinterName: bool)
    ensures DiagnosticsFor([Issue("x", "unused var", "warning", IssuePos("pkg/a.go", 0, 10, 3))], "pkg/a.go", noLinterName)
         == [Diagnostic(Range(Position(9, 2), Position(9, 2)), Warning, "x",
                        if noLinterName then "unused var" else "x: unused var")]
  {
    MatchingAll([Issue("x", "unused var", "warning", IssuePos("pkg/a.go", 0, 10, 3))], "pkg/a.go");
    ScenarioDiagnostic(noLinterName);
  }

  /** A warning at line 10, column 3 of pkg/a.go becomes one Warning diagnostic at (9,2)-(9,2). */
  lemma ScenarioIssueInLintedFile(run: Runner, decode: Decoder, noLinterName: bool, json: string)
    requires json != [] && '\n' !in json
    requires run(0, Invocation("lint", ["--format", "json", "/proj/pkg/"], "/proj")).stdout == json
    requires decode(json) == Ok(ToolResult([Issue("x", "unused var", "warning", IssuePos("pkg/a.go", 0, 10, 3))], []))
    ensures LintResult(Session(["lint", "--format", "json"], "/proj", noLinterName), "/proj/pkg/a.go", 0, run, decode)
         == Published([Diagnostic(Range(Position(9, 2), Position(9, 2)), Warning, "x",
                                  if noLinterName then "unused var" else "x: unused var")])
  {
    ScenarioInvocation();
    FirstLineIgnoresRest(json, "");
    ScenarioMapping(noLinterName);
  }

  /** Issues reported only for a sibling file publish an empty set for the linted file. */
  lemma ScenarioIssueInSiblingFile(run: Runner, decode: Decoder, noLinterName: bool, json: string)
    requires json != [] && '\n' !in json
    requires run(0, Invocation("lint", ["--format", "json", "/proj/pkg/"], "/proj")).stdout == json
    requires decode(json) == Ok(ToolResult([Issue("x", "unused var", "warning", IssuePos("pkg/b.go", 0, 10, 3))], []))
    ensures LintResult(Session(["lint", "--format", "json"], "/proj", noLinterName), "/proj/pkg/a.go", 0, run, decode)
         == Published([])
  {
    ScenarioInvocation();
    FirstLineIgnoresRest(json, "");
  }

  /** A linter that exits with status 2, no output and a message on stderr: one Error diagnostic with that message. */
  lemma ScenarioConfigError(run: Runner, decode: Decoder, noLinterName: bool)
    requires run(0, Invocation("lint", ["--format", "json", "/proj/pkg/"], "/proj"))
          == ProcessResult("", Some(ExitError("config error: no .golangci.yml")))
    ensures LintResult(Session(["lint", "--format", "json"], "/proj", noLinterName), "/proj/pkg/a.go", 0, run, decode)
         == Published([Diagnostic(ZeroRange, Error, "", "config error: no .golangci.yml")])
  {
    ScenarioInvocation();
  }

  /** The outcome of every request in the queue, the k-th linted as cycle k. */
  function CycleOutcomes(session: Session, requests: seq<DocumentRef>, run: Runner, decode: Decoder): seq<LintOutcome> {
    seq(|requests|, k requires 0 <= k < |requests| => LintResult(session, requests[k].filename, k, run, decode))
  }

  /**
   * The worker loop from the request at `i` on, given the outcome of each
   * request's lint cycle: what it publishes, in order, and how it ends.
   */
  function WorkerFrom(requests: seq<DocumentRef>, outcomes: seq<LintOutcome>, i: nat): (seq<Publish>, WorkerEnd)
    requires |outcomes| == |requests| && i <= |requests|
    decreases |requests| - i
  {
    if i == |requests| then ([], QueueClosed)
    else
      match outcomes[i]
      case Panicked(cause) => ([], Crashed(cause))
      case Published(diagnostics) =>
        var rest := WorkerFrom(requests, outcomes, i + 1);
        ([Publish(requests[i].uri, diagnostics)] + rest.0, rest.1)
  }

  /** The worker loop over the whole queue. */
  function Worker(requests: seq<DocumentRef>, outcomes: seq<LintOutcome>): (seq<Publish>, WorkerEnd)
    requires |outcomes| == |requests|
  {
    WorkerFrom(requests, outcomes, 0)
  }

  /**
   * From request `i` on, the worker publishes once per request, in queue
   * order, each request's URI with that request's diagnostics; it runs
   * through the rest of the queue unless a cycle panics, and then it stops
   * at the request that panicked.
   */
  lemma {:induction false} WorkerFromPublishesInOrder(requests: seq<DocumentRef>, outcomes: seq<LintOutcome>, i: nat)
    requires |outcomes| == |requests| && i <= |requests|
    ensures var (log, end) := WorkerFrom(requests, outcomes, i);
      && i + |log| <= |requests|
      && (forall k :: i <= k < i + |log| ==>
            outcomes[k].Published? && log[k - i] == Publish(requests[k].uri, outcomes[k].diagnostics))
      && (end == QueueClosed <==> i + |log| == |requests|)
      && (end.Crashed? ==> outcomes[i + |log|] == Panicked(end.cause))
    decreases |requests| - i
  {
    if i < |requests| && outcomes[i].Published? {
      WorkerFromPublishesInOrder(requests, outcomes, i + 1);
      var (log, end) := WorkerFrom(requests, outcomes, i);
      var rest := WorkerFrom(requests, outcomes, i + 1);
      assert log == [Publish(requests[i].uri, outcomes[i].diagnostics)] + rest.0 && end == rest.1;
      assert i + |log| == (i + 1) + |rest.0|;
      forall k | i < k < i + |log|
        ensures outcomes[k].Published? && log[k - i] == Publish(requests[k].uri, outcomes[k].diagnostics)
      {
        assert log[k - i] == rest.0[k - (i + 1)];
      }
    }
  }

  /**
   * The worker publishes once per request, in queue order, each request's
   * URI with that request's diagnostics; it runs through the whole queue
   * unless a cycle panics, and then it stops at the request that panicked.
   */
  lemma WorkerPublishesInOrder(requests: seq<DocumentRef>, outcomes: seq<LintOutcome>)
    requires |outcomes| == |requests|
    ensures var (log, end) := Worker(requests, outcomes);
      && |log| <= |requests|
      && (forall i :: 0 <= i < |log| ==>
            outcomes[i].Published? && log[i] == Publish(requests[i].uri, outcomes[i].diagnostics))
      && (end == QueueClosed <==> |log| == |requests|)
      && (end.Crashed? ==> outcomes[|log|] == Panicked(end.cause))
  {
    WorkerFromPublishesInOrder(requests, outcomes, 0);
  }

  /**
   * The loop of `linter` after the requests before `i` were published: the
   * request at `i` either stops the worker, or is published and the loop
   * moves on to `i + 1`.
   */
  lemma WorkerAdvance(requests: seq<DocumentRef>, outcomes: seq<LintOutcome>, i: nat, published: seq<Publish>)
    requires |outcomes| == |requests| && i < |requests|
    requires Worker(requests, outcomes).0 == published + WorkerFrom(requests, outcomes, i).0
    requires Worker(requests, outcomes).1 == WorkerFrom(requests, outcomes, i).1
    ensures outcomes[i].Panicked? ==> Worker(requests, outcomes) == (published, Crashed(outcomes[i].cause))
    ensures outcomes[i].Published? ==>
      var next := published + [Publish(requests[i].uri, outcomes[i].diagnostics)];
      && Worker(requests, outcomes).0 == next + WorkerFrom(requests, outcomes, i + 1).0
      && Worker(requests, outcomes).1 == WorkerFrom(requests, outcomes, i + 1).1
  {
    if outcomes[i].Panicked? {
      assert published + [] == published;
    } else {
      var p := Publish(requests[i].uri, outcomes[i].diagnostics);
      var rest := WorkerFrom(requests, outcomes, i + 1).0;
      assert published + ([p] + rest) == (published + [p]) + rest;
    }
  }

  /** The loop of `linter` when the queue is exhausted: everything was published and the queue is closed. */
  lemma WorkerDone(requests: seq<DocumentRef>, outcomes: seq<LintOutcome>, published: seq<Publish>)
    requires |outcomes| == |requests|
    requires Worker(requests, outcomes).0 == published + WorkerFrom(requests, outcomes, |requests|).0
    requires Worker(requests, outcomes).1 == WorkerFrom(requests, outcomes, |requests|).1
    ensures Worker(requests, outcomes) == (published, QueueClosed)
  {
    assert published + [] == published;
  }

  class Handler {
    /** Set from the -nolintername flag when the server is created. */
    const noLinterName: bool
    /** The linter command; None is Go's nil slice, before `Initialize` sets it. */
    var command: Option<seq<string>>
    var rootURI: string
    /** The file-system path of the workspace root. */
    var rootDir: string

    /** NewServer: nothing is configured yet. */
    constructor (noLinterName: bool)
      ensures this.noLinterName == noLinterName
      ensures command == None && rootURI == "" && rootDir == ""
    {
      this.noLinterName := noLinterName;
      command := None;
      rootURI := "";
      rootDir := "";
    }

    /** The command as `lint` reads it: a nil slice has no elements. */
    function Command(): seq<string>
      reads this
    {
      if command.Some? then command.value else []
    }

    /** What the lint cycles read from the handler. */
    function CurrentSession(): Session
      reads this
    {
      Session(Command(), rootDir, noLinterName)
    }

    /**
     * handler.go Initialize: the first workspace folder becomes the root and
     * the command comes from the options or the default. Indexing an empty
     * folder list and asserting non-map options panic.
     */
    method Initialize(workspaceFolders: seq<DocumentRef>, initOptions: Option<map<string, OptionValue>>)
      returns (panic: Option<Panic>)
      modifies this
      ensures panic == if |workspaceFolders| == 0 then Some(IndexOutOfRange)
                       else if initOptions.None? then Some(FailedTypeAssertion)
                       else None
      ensures |workspaceFolders| > 0 ==> rootURI == workspaceFolders[0].uri && rootDir == workspaceFolders[0].filename
      ensures |workspaceFolders| == 0 ==> rootURI == old(rootURI) && rootDir == old(rootDir)
      ensures panic.None? ==> command == Some(ConfiguredCommand(old(command), initOptions.value))
      ensures panic.Some? ==> command == old(command)
    {
      if |workspaceFolders| == 0 {
        return Some(IndexOutOfRange);
      }
      rootURI := workspaceFolders[0].uri;
      rootDir := workspaceFolders[0].filename;
      if initOptions.None? {
        return Some(FailedTypeAssertion);
      }
      var options := initOptions.value;
      if HasCommand(options) {
        command := options["command"].items;
      }
      if command.None? {
        command := Some(DefaultCommand);
      }
      return None;
    }

    /** handler.go lint: build and run the command, decode the first output line, map the issues. */
    method Lint(path: string, cycle: nat, run: Runner, decode: Decoder) returns (outcome: LintOutcome)
      ensures outcome == LintResult(CurrentSession(), path, cycle, run, decode)
    {
      var prepared := BuildCommand(Command(), rootDir, path);
      if prepared.Err? {
        return Panicked(prepared.error);
      }
      var b := run(cycle, prepared.value.invocation);
      if |b.stdout| == 0 {
        if b.err.None? {
          return Panicked(NilDereference);
        }
        return Published(ErrToDiagnostics(b.err.value));
      }
      var data := FirstLine(b.stdout);
      var result := decode(data);
      if result.Err? {
        return Published(ErrToDiagnostics(OtherError(result.error)));
      }
      var diagnostics := MapIssues(result.value.issues, prepared.value.file, noLinterName);
      return Published(diagnostics);
    }

    /** The body of the `linter` loop for the request at `i`: lint its document as cycle `i`. */
    method LintRequest(requests: seq<DocumentRef>, i: nat, run: Runner, decode: Decoder, ghost outcomes: seq<LintOutcome>)
      returns (outcome: LintOutcome)
      requires i < |requests| && outcomes == CycleOutcomes(CurrentSession(), requests, run, decode)
      ensures outcome == outcomes[i]
    {
      outcome := Lint(requests[i].filename, i, run, decode);
    }

    /**
     * handler.go linter: take the requests in queue order, lint each and
     * publish its diagnostics, until the queue is closed or a cycle panics.
     */
    method Linter(requests: seq<DocumentRef>, run: Runner, decode: Decoder)
      returns (published: seq<Publish>, end: WorkerEnd)
      ensures (published, end) == Worker(requests, CycleOutcomes(CurrentSession(), requests, run, decode))
    {
      ghost var outcomes := CycleOutcomes(CurrentSession(), requests, run, decode);
      published := [];
      var i := 0;
      while i < |requests|
        invariant 0 <= i <= |requests| && |outcomes| == |requests|
        invariant Worker(requests, outcomes).0 == published + WorkerFrom(requests, outcomes, i).0
        invariant Worker(requests, outcomes).1 == WorkerFrom(requests, outcomes, i).1
      {
        var u := requests[i];
        var outcome := LintRequest(requests, i, run, decode, outcomes);
        WorkerAdvance(requests, outcomes, i, published);
        if outcome.Panicked? {
          return published, Crashed(outcome.cause);
        }
        published := published + [Publish(u.uri, outcome.diagnostics)];
        i := i + 1;
      }
      WorkerDone(requests, outcomes, published);
      return published, QueueClosed;
    }
  }
}
