/** Path handling of the command builder: filepath.Split and the workspace-root prefix test. */
module Paths {

  const Separator: char := '/'

  /** The index of the last separator in `p`, or -1 when there is none. */
  function LastSeparator(p: string): (i: int)
    ensures -1 <= i < |p|
    ensures i >= 0 ==> p[i] == Separator
    ensures forall k :: i < k < |p| ==> p[k] != Separator
  {
    if p == [] then -1
    else if p[|p| - 1] == Separator then |p| - 1
    else LastSeparator(p[..|p| - 1])
  }

  /**
   * filepath.Split on a Unix path: `dir` is everything up to and including the
   * last separator, `file` is the rest.
   */
  function Split(p: string): (r: (string, string))
    ensures r.0 + r.1 == p
    ensures Separator !in r.1
    ensures r.0 == [] || r.0[|r.0| - 1] == Separator
  {
    var i := LastSeparator(p);
    var dir := p[..i + 1];
    var file := p[i + 1..];
    assert Separator !in file by {
      forall k | 0 <= k < |file| ensures file[k] != Separator {
        assert file[k] == p[i + 1 + k];
      }
    }
    assert dir + file == p;
    assert dir == [] || dir[|dir| - 1] == p[i] == Separator;
    (dir, file)
  }

  /** Split is the only way to cut a path into a directory ending in a separator (or empty) and a bare name. */
  lemma {:induction false} SplitUnique(p: string, dir: string, file: string)
    requires dir + file == p
    requires Separator !in file
    requires dir == [] || dir[|dir| - 1] == Separator
    ensures Split(p) == (dir, file)
  {
    var (d, f) := Split(p);
    assert d == p[..|d|] && dir == p[..|dir|];
  }

  /** strings.HasPrefix. */
  predicate HasPrefix(s: string, prefix: string) {
    prefix <= s
  }

  /** A string that starts with a shorter prefix is the prefix, the next character and the rest. */
  lemma PrefixThenRest(s: string, prefix: string)
    requires HasPrefix(s, prefix) && s != prefix
    ensures |s| > |prefix|
    ensures s == prefix + [s[|prefix|]] + s[|prefix| + 1..]
  {
    assert s[..|prefix|] == prefix;
  }
}
