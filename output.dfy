/**
 * What `lint` does with the linter's standard output before mapping issues:
 * the first-line cut and the synthetic error diagnostic of `errToDiagnostics`.
 */
module Output {
  import opened Protocol

  /** The error values the pipeline turns into diagnostics. */
  datatype GoError =
    | ExitError(stderr: string)   // *exec.ExitError: the process ran and exited non-zero; its captured stderr
    | OtherError(text: string)    // any other error, by the text of its Error() method

  /** The first `\n`-delimited segment of the output, `bytes.Split(b, "\n")[0]`. */
  function FirstLine(out: string): (line: string)
    ensures line <= out
    ensures '\n' !in line
    ensures |line| < |out| ==> out[|line|] == '\n'
  {
    if out == [] || out[0] == '\n' then []
    else [out[0]] + FirstLine(out[1..])
  }

  /** Whatever follows the first newline never reaches the decoder. */
  lemma {:induction false} FirstLineIgnoresRest(line: string, rest: string)
    requires '\n' !in line
    ensures FirstLine(line + "\n" + rest) == line
    ensures FirstLine(line) == line
  {
    var out := line + "\n" + rest;
    var first := FirstLine(out);
    assert forall k :: 0 <= k < |line| ==> out[k] == line[k];
    assert out[|line|] == '\n';
    assert |first| == |line|;
    assert first == out[..|first|] && line == out[..|line|];
  }

  /** The message of `errToDiagnostics`: the captured stderr of an exit error, the error text otherwise. */
  function ErrorMessage(err: GoError): string {
    match err
    case ExitError(stderr) => stderr
    case OtherError(text) => text
  }

  /** handler.go errToDiagnostics: exactly one Error diagnostic with no range and no source. */
  function ErrToDiagnostics(err: GoError): (ds: seq<Diagnostic>)
    ensures |ds| == 1
    ensures ds[0].severity == Error && ds[0].range == ZeroRange && ds[0].source == ""
    ensures err.ExitError? ==> ds[0].message == err.stderr
    ensures err.OtherError? ==> ds[0].message == err.text
  {
    [Diagnostic(ZeroRange, Error, "", ErrorMessage(err))]
  }
}
