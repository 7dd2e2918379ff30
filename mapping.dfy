/**
 * The issue-to-diagnostic mapping of `lint`: keep the issues reported for the
 * linted file, in order, and turn each into a point-range diagnostic.
 */
module Mapping {
  import opened GoRuntime
  import opened Protocol
  import opened Severities

  /**
   * `uint32(max(int(n-1), 0))`: the one-based line or column `n` as a
   * zero-based protocol number. `n-1` wraps around at the smallest int64,
   * and the conversion keeps the low 32 bits.
   */
  function ZeroBased(n: int64): (r: uint32)
    ensures 0 < n as int <= 0x1_0000_0000 ==> r as int == n as int - 1
    ensures n > 0 ==> r as int == (n as int - 1) % 0x1_0000_0000
    ensures MinInt64 < n <= 1 ==> r == 0
    ensures n == MinInt64 ==> r == MaxUint32
  {
    var previous := Wrap64(n as int - 1);
    var clamped := if previous < 0 then 0 else previous;
    TruncateToUint32(clamped)
  }

  /** handler.go diagnosticMessage: the text, prefixed by "<linter>: " unless linter names are turned off. */
  function DiagnosticMessage(issue: Issue, noLinterName: bool): (m: string)
    ensures |m| >= |issue.text| && m[|m| - |issue.text|..] == issue.text
    ensures noLinterName ==> |m| == |issue.text|
    ensures !noLinterName ==>
      && |m| == |issue.fromLinter| + 2 + |issue.text|
      && m[..|issue.fromLinter| + 2] == issue.fromLinter + ": "
  {
    if noLinterName then issue.text
    else issue.fromLinter + ": " + issue.text
  }

  /** The diagnostic built for one issue: a point range at its zero-based position. */
  function ToDiagnostic(issue: Issue, noLinterName: bool): Diagnostic {
    var at := Position(ZeroBased(issue.pos.line), ZeroBased(issue.pos.column));
    Diagnostic(Range(at, at), SeverityFromString(issue.severity), issue.fromLinter,
               DiagnosticMessage(issue, noLinterName))
  }

  /** The issues reported for `file`, in their original order. */
  function Matching(issues: seq<Issue>, file: string): (m: seq<Issue>)
    ensures |m| <= |issues|
    ensures forall k :: 0 <= k < |m| ==> m[k].pos.filename == file
    ensures forall x :: x in m ==> x in issues
  {
    if issues == [] then []
    else
      (if issues[0].pos.filename == file then [issues[0]] else []) + Matching(issues[1..], file)
  }

  /** The diagnostics `lint` publishes for decoded issues: one per issue reported for `file`, in order. */
  function DiagnosticsFor(issues: seq<Issue>, file: string, noLinterName: bool): (ds: seq<Diagnostic>)
  {
    var kept := Matching(issues, file);
    seq(|kept|, k requires 0 <= k < |kept| => ToDiagnostic(kept[k], noLinterName))
  }

  /** Filtering distributes over concatenation, so it keeps the relative order of the issues. */
  lemma {:induction false} MatchingAppend(a: seq<Issue>, b: seq<Issue>, file: string)
    ensures Matching(a + b, file) == Matching(a, file) + Matching(b, file)
  {
    if a == [] {
      assert a + b == b;
    } else {
      assert (a + b)[1..] == a[1..] + b;
      MatchingAppend(a[1..], b, file);
    }
  }

  /** Every issue for `file` is kept as often as it occurs, every other issue is dropped. */
  lemma {:induction false} MatchingMultiplicity(issues: seq<Issue>, file: string, x: Issue)
    ensures multiset(Matching(issues, file))[x] == if x.pos.filename == file then multiset(issues)[x] else 0
  {
    if issues != [] {
      assert issues == [issues[0]] + issues[1..];
      MatchingMultiplicity(issues[1..], file, x);
    }
  }

  /** Nothing is kept exactly when no issue is reported for `file`. */
  lemma {:induction false} MatchingEmpty(issues: seq<Issue>, file: string)
    ensures Matching(issues, file) == [] <==> forall k :: 0 <= k < |issues| ==> issues[k].pos.filename != file
  {
    if issues != [] {
      MatchingEmpty(issues[1..], file);
      assert forall k :: 1 <= k < |issues| ==> issues[k] == issues[1..][k - 1];
    }
  }

  /** Everything is kept when every issue is reported for `file`. */
  lemma {:induction false} MatchingAll(issues: seq<Issue>, file: string)
    requires forall k :: 0 <= k < |issues| ==> issues[k].pos.filename == file
    ensures Matching(issues, file) == issues
  {
    if issues != [] {
      MatchingAll(issues[1..], file);
    }
  }

  /** Every published diagnostic is a point range, attributed to the linter of an issue for `file`. */
  lemma DiagnosticsArePointRanges(issues: seq<Issue>, file: string, noLinterName: bool)
    ensures forall d :: d in DiagnosticsFor(issues, file, noLinterName) ==>
      IsPointRange(d.range) && exists x :: x in issues && x.pos.filename == file && d.source == x.fromLinter
  {
    var ds := DiagnosticsFor(issues, file, noLinterName);
    var m := Matching(issues, file);
    forall d | d in ds
      ensures IsPointRange(d.range) && exists x :: x in issues && x.pos.filename == file && d.source == x.fromLinter
    {
      var k :| 0 <= k < |ds| && ds[k] == d;
      assert m[k] in m;
    }
  }

  /** A first line or column (1) and a missing one (0) both become 0. */
  lemma FirstAndMissingPositionsAreZero(issue: Issue, noLinterName: bool)
    requires issue.pos.line in {0, 1} && issue.pos.column in {0, 1}
    ensures ToDiagnostic(issue, noLinterName).range == ZeroRange
  {
  }

  /** The smallest int64 line wraps to the largest uint32 rather than clamping to 0. */
  lemma MinimumLineWraps(issue: Issue, noLinterName: bool)
    requires issue.pos.line == MinInt64
    ensures ToDiagnostic(issue, noLinterName).range.start.line == MaxUint32
  {
  }

  /** Appending one issue appends its diagnostic exactly when it is reported for `file`. */
  lemma DiagnosticsForSnoc(issues: seq<Issue>, x: Issue, file: string, noLinterName: bool)
    ensures DiagnosticsFor(issues + [x], file, noLinterName)
         == DiagnosticsFor(issues, file, noLinterName)
            + (if x.pos.filename == file then [ToDiagnostic(x, noLinterName)] else [])
  {
    MatchingAppend(issues, [x], file);
    var kept := Matching(issues, file);
    var tail := Matching([x], file);
    assert tail == (if x.pos.filename == file then [x] else []);
    var lhs := DiagnosticsFor(issues + [x], file, noLinterName);
    var rhs := DiagnosticsFor(issues, file, noLinterName)
               + (if x.pos.filename == file then [ToDiagnostic(x, noLinterName)] else []);
    assert |lhs| == |kept| + |tail| == |rhs|;
    forall k | 0 <= k < |lhs|
      ensures lhs[k] == rhs[k]
    {
      assert lhs[k] == ToDiagnostic((kept + tail)[k], noLinterName);
    }
  }

  /** The loop at handler.go:139-162: filter by file name and append one diagnostic per kept issue. */
  method MapIssues(issues: seq<Issue>, file: string, noLinterName: bool) returns (diagnostics: seq<Diagnostic>)
    ensures diagnostics == DiagnosticsFor(issues, file, noLinterName)
  {
    diagnostics := [];
    var i := 0;
    while i < |issues|
      invariant 0 <= i <= |issues|
      invariant diagnostics == DiagnosticsFor(issues[..i], file, noLinterName)
    {
      var issue := issues[i];
      DiagnosticsForSnoc(issues[..i], issue, file, noLinterName);
      assert issues[..i + 1] == issues[..i] + [issue];
      i := i + 1;
      if file != issue.pos.filename {
        continue;
      }
      var at := Position(ZeroBased(issue.pos.line), ZeroBased(issue.pos.column));
      var d := Diagnostic(Range(at, at), SeverityFromString(issue.severity), issue.fromLinter,
                          DiagnosticMessage(issue, noLinterName));
      diagnostics := diagnostics + [d];
    }
    assert issues[..i] == issues;
  }
}
