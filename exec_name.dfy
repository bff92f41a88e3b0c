/**
 * exec_name (src/main.c:503-508): argv[0] without its directory part, the text
 * after the last PATH_SEPARATOR, or all of argv[0] when it has none.
 */
module ExecName {
  import opened Wrappers

  /** PATH_SEPARATOR on POSIX systems. */
  const PathSeparator: char := '/'

  /** strrchr (s, c): the position of the last c in s. */
  function LastIndex(s: string, c: char): (r: Option<nat>)
    ensures r.Some? ==> r.value < |s| && s[r.value] == c && c !in s[r.value + 1..]
    ensures r.None? ==> c !in s
  {
    if s == [] then None
    else if s[|s| - 1] == c then Some(|s| - 1)
    else
      var r := LastIndex(s[..|s| - 1], c);
      assert s[..|s| - 1] + [s[|s| - 1]] == s;
      if r.Some? then
        assert s[r.value + 1..] == s[..|s| - 1][r.value + 1..] + [s[|s| - 1]];
        r
      else
        r
  }

  function ExecName(argv0: string): string {
    match LastIndex(argv0, PathSeparator)
    case None => argv0
    case Some(i) => argv0[i + 1..]
  }

  /**
   * argv[0] is a directory part, empty or ending in the separator, followed by
   * the name; the name holds no separator.
   */
  lemma ExecNameSplits(argv0: string)
    ensures var name := ExecName(argv0);
      PathSeparator !in name && |name| <= |argv0| && argv0[|argv0| - |name|..] == name &&
      (|name| < |argv0| ==> argv0[|argv0| - |name| - 1] == PathSeparator)
  {
  }

  /** A name without a separator is its own exec_name; so taking it twice changes nothing. */
  lemma ExecNameIdempotent(argv0: string)
    ensures PathSeparator !in argv0 ==> ExecName(argv0) == argv0
    ensures ExecName(ExecName(argv0)) == ExecName(argv0)
  {
    ExecNameSplits(argv0);
  }

  /** The directory part does not matter: dir + "/" + name has exec_name name when name has no separator. */
  lemma ExecNameOfPath(dir: string, name: string)
    requires PathSeparator !in name
    ensures ExecName(dir + [PathSeparator] + name) == name
  {
    var s := dir + [PathSeparator] + name;
    var i := |dir|;
    assert s[i] == PathSeparator;
    assert s[i + 1..] == name;
  }
}
