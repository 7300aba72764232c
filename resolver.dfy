/**
 * The path resolver of cmpsh (`find_executable`): the first directory of
 * the search list, in order, whose `dir/command` passes the executable
 * check. The check (`access(..., X_OK)`) is a parameter: the model does not
 * look at a filesystem.
 */
module Resolver {
  import opened Wrappers

  /** `sprintf(full_path, "%s/%s", dir, command)`: a `/` is always inserted,
      even when `command` already starts with one. */
  function Candidate(dir: string, command: string): (p: string)
    ensures |p| == |dir| + 1 + |command|
    ensures p[..|dir|] == dir && p[|dir|] == '/' && p[|dir| + 1..] == command
  {
    dir + "/" + command
  }

  /** `p` is the candidate in directory `i`, it passes the check, and no
      earlier directory's candidate does. */
  predicate FirstMatchAt(paths: seq<string>, command: string, isExecutable: string -> bool, i: int, p: string)
  {
    && 0 <= i < |paths|
    && p == Candidate(paths[i], command)
    && isExecutable(p)
    && forall j :: 0 <= j < i ==> !isExecutable(Candidate(paths[j], command))
  }

  /** The first candidate, in list order, that passes the check. */
  function Resolve(paths: seq<string>, command: string, isExecutable: string -> bool): (r: Option<string>)
    ensures r.None? <==> forall i :: 0 <= i < |paths| ==> !isExecutable(Candidate(paths[i], command))
    ensures r.Some? ==> exists i :: FirstMatchAt(paths, command, isExecutable, i, r.value)
  {
    if paths == [] then None
    else if isExecutable(Candidate(paths[0], command)) then
      assert FirstMatchAt(paths, command, isExecutable, 0, Candidate(paths[0], command));
      Some(Candidate(paths[0], command))
    else
      var r := Resolve(paths[1..], command, isExecutable);
      assert forall i :: 1 <= i < |paths| ==> paths[i] == paths[1..][i - 1];
      assert r.Some? ==> exists i :: FirstMatchAt(paths, command, isExecutable, i, r.value) by {
        if r.Some? {
          var k :| FirstMatchAt(paths[1..], command, isExecutable, k, r.value);
          assert FirstMatchAt(paths, command, isExecutable, k + 1, r.value);
        }
      }
      r
  }

  /** With an empty search list nothing resolves, not even an absolute name. */
  lemma EmptyListNeverResolves(command: string, isExecutable: string -> bool)
    ensures Resolve([], command, isExecutable) == None
  {
  }

  /** The search does not look past a match: what follows the first directory
      that has the command does not matter. */
  lemma {:induction false} ResolveIgnoresLater(paths: seq<string>, more: seq<string>, command: string, isExecutable: string -> bool)
    requires Resolve(paths, command, isExecutable).Some?
    ensures Resolve(paths + more, command, isExecutable) == Resolve(paths, command, isExecutable)
  {
    if !isExecutable(Candidate(paths[0], command)) {
      assert (paths + more)[1..] == paths[1..] + more;
      ResolveIgnoresLater(paths[1..], more, command, isExecutable);
    }
  }

  /** `path /bin /usr/bin`, then `ls`: `/bin/ls` when it is executable,
      otherwise `/usr/bin/ls` when that one is. */
  lemma ResolveExample(isExecutable: string -> bool)
    ensures isExecutable("/bin/ls") ==> Resolve(["/bin", "/usr/bin"], "ls", isExecutable) == Some("/bin/ls")
    ensures !isExecutable("/bin/ls") && isExecutable("/usr/bin/ls")
      ==> Resolve(["/bin", "/usr/bin"], "ls", isExecutable) == Some("/usr/bin/ls")
  {
    assert Candidate("/bin", "ls") == "/bin/ls";
    assert Candidate("/usr/bin", "ls") == "/usr/bin/ls";
    assert ["/bin", "/usr/bin"][1..] == ["/usr/bin"];
  }
}
