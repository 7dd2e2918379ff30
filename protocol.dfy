/** The parts of Go's integer arithmetic and run-time failures that the pipeline can meet. */
module GoRuntime {

  /** Go's `int` on a 64-bit platform. */
  newtype int64 = x: int | -0x8000_0000_0000_0000 <= x < 0x8000_0000_0000_0000

  /** Go's `uint32`, the type of the protocol's line and character numbers. */
  newtype uint32 = x: int | 0 <= x < 0x1_0000_0000

  const MinInt64: int64 := -0x8000_0000_0000_0000
  const MaxInt64: int64 := 0x7FFF_FFFF_FFFF_FFFF
  const MaxUint32: uint32 := 0xFFFF_FFFF

  /** Two's-complement wrap-around of a mathematical integer into `int64`. */
  function Wrap64(x: int): (r: int64)
    ensures MinInt64 as int <= x <= MaxInt64 as int ==> r as int == x
    ensures (r as int - x) % 0x1_0000_0000_0000_0000 == 0
  {
    ((x + 0x8000_0000_0000_0000) % 0x1_0000_0000_0000_0000 - 0x8000_0000_0000_0000) as int64
  }

  /** The conversion `uint32(x)` of a non-negative `int64`: the low 32 bits. */
  function TruncateToUint32(x: int64): (r: uint32)
    requires x >= 0
    ensures x as int < 0x1_0000_0000 ==> r as int == x as int
    ensures (x as int - r as int) % 0x1_0000_0000 == 0
  {
    (x as int % 0x1_0000_0000) as uint32
  }

  /** The run-time panics that can stop the lint pipeline. */
  datatype Panic =
    | SliceBoundsOutOfRange   // a slice expression s[i:] with i > len(s)
    | IndexOutOfRange         // an index expression s[0] on an empty slice
    | NilDereference          // a method called on a nil error value
    | FailedTypeAssertion     // x.(T) without ", ok" when x does not hold a T
}

/**
 * The records that flow through the lint pipeline: the linter's issues
 * (the `Issue` and `Result` structs of handler.go) and the Language Server
 * Protocol diagnostics built from them.
 */
module Protocol {
  import opened GoRuntime

  /** DiagnosticSeverity: Error = 1, Warning = 2, Information = 3, Hint = 4. */
  datatype Severity = Error | Warning | Information | Hint

  /** A zero-based position in a document. */
  datatype Position = Position(line: uint32, character: uint32)

  datatype Range = Range(start: Position, end: Position)

  /** A diagnostic; `source` is "" and `range` is all zeros when left unset. */
  datatype Diagnostic = Diagnostic(range: Range, severity: Severity, source: string, message: string)

  /** Where the linter reports an issue: a file name and one-based line and column. */
  datatype IssuePos = IssuePos(filename: string, offset: int64, line: int64, column: int64)

  /** One finding of the linter, with the fields the pipeline reads. */
  datatype Issue = Issue(fromLinter: string, text: string, severity: string, pos: IssuePos)

  /** The decoded first line of the linter's output: its issues and the names of the linters it ran. */
  datatype ToolResult = ToolResult(issues: seq<Issue>, linters: seq<string>)

  /** One publishDiagnostics notification: the complete diagnostic set for a document. */
  datatype Publish = Publish(uri: string, diagnostics: seq<Diagnostic>)

  const ZeroRange := Range(Position(0, 0), Position(0, 0))

  predicate IsPointRange(r: Range) {
    r.start == r.end
  }
}
