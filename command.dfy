/**
 * The command builder of `lint`: the argument vector handed to exec.Command
 * and the choice of working directory and of the file name the linter is
 * expected to report.
 */
module Commands {
  import opened Wrappers
  import opened GoRuntime
  import opened Paths

  /** What exec.Command runs: the executable, its arguments and the working directory. */
  datatype Invocation = Invocation(exe: string, args: seq<string>, dir: string)

  /** A ready invocation and the name under which the linter reports the linted file. */
  datatype Prepared = Prepared(invocation: Invocation, file: string)

  /**
   * The invocation for the document at `path`. `command[1:]` panics on an
   * empty (or nil) command, and `path[len(root)+1:]` panics when the path is
   * the root itself.
   */
  function Prepare(command: seq<string>, rootDir: string, path: string): Result<Prepared, Panic> {
    var parts := Split(path);
    if |command| == 0 then Err(SliceBoundsOutOfRange)
    else
      var args := command[1..] + [parts.0];
      if HasPrefix(path, rootDir) then
        if |path| < |rootDir| + 1 then Err(SliceBoundsOutOfRange)
        else Ok(Prepared(Invocation(command[0], args, rootDir), path[|rootDir| + 1..]))
      else Ok(Prepared(Invocation(command[0], args, parts.0), parts.1))
  }

  /** `Prepare` panics exactly on an empty command or on the root itself as the path, both out-of-range slices. */
  lemma PreparePanics(command: seq<string>, rootDir: string, path: string)
    ensures var r := Prepare(command, rootDir, path);
      && (r.Err? <==> |command| == 0 || path == rootDir)
      && (r.Err? ==> r.error == SliceBoundsOutOfRange)
  {
    if |command| > 0 && HasPrefix(path, rootDir) && |path| < |rootDir| + 1 {
      assert path == rootDir;
    }
  }

  /**
   * The arguments `Prepare` builds: the executable is command[0] and the
   * arguments are command[1:] followed by the directory part of the path.
   */
  lemma PrepareArguments(command: seq<string>, rootDir: string, path: string)
    requires Prepare(command, rootDir, path).Ok?
    ensures var inv := Prepare(command, rootDir, path).value.invocation;
      && inv.exe == command[0]
      && |inv.args| == |command|
      && inv.args[..|inv.args| - 1] == command[1..]
      && inv.args[|inv.args| - 1] == Split(path).0
  {
    var args := Prepare(command, rootDir, path).value.invocation.args;
    assert args == command[1..] + [Split(path).0];
    assert args[..|args| - 1] == command[1..];
  }

  /** Lines 109-121 of `lint`, statement by statement. */
  method BuildCommand(command: seq<string>, rootDir: string, path: string) returns (r: Result<Prepared, Panic>)
    ensures r == Prepare(command, rootDir, path)
  {
    var parts := Split(path);
    var dir, file := parts.0, parts.1;
    if |command| == 0 {
      return Err(SliceBoundsOutOfRange);
    }
    var args: seq<string> := [];
    args := args + command[1..];
    assert args == command[1..];
    args := args + [dir];
    var workDir: string;
    if HasPrefix(path, rootDir) {
      if |path| < |rootDir| + 1 {
        return Err(SliceBoundsOutOfRange);
      }
      workDir := rootDir;
      file := path[|rootDir| + 1..];
    } else {
      workDir := dir;
    }
    r := Ok(Prepared(Invocation(command[0], args, workDir), file));
  }

  /**
   * Outside the root, the linter runs in the directory part of the path and
   * reports the bare file name: the two make up the path, the name holds no
   * separator and the directory is empty or ends with one.
   */
  lemma OutsideRootUsesSplit(command: seq<string>, rootDir: string, path: string)
    requires |command| > 0 && !HasPrefix(path, rootDir)
    ensures Prepare(command, rootDir, path).Ok?
    ensures var r := Prepare(command, rootDir, path).value;
      && r.invocation.dir == Split(path).0 && r.file == Split(path).1
      && r.invocation.dir + r.file == path
      && Separator !in r.file
      && (r.invocation.dir == [] || r.invocation.dir[|r.invocation.dir| - 1] == Separator)
  {
  }

  /**
   * Inside the root, the linter runs in the root and reports the path with
   * `len(root)+1` leading characters removed: the root, one more character
   * and the reported name make up the path. The prefix test is on strings,
   * so that character need not be a separator.
   */
  lemma {:induction false} InsideRootDropsRootAndNextChar(command: seq<string>, rootDir: string, path: string)
    requires |command| > 0 && HasPrefix(path, rootDir) && path != rootDir
    ensures Prepare(command, rootDir, path).Ok?
    ensures Prepare(command, rootDir, path).value.invocation.dir == rootDir
    ensures Prepare(command, rootDir, path).value.file == path[|rootDir| + 1..]
    ensures path == rootDir + [path[|rootDir|]] + Prepare(command, rootDir, path).value.file
  {
    PrefixThenRest(path, rootDir);
  }
}
