/**
 * The line-processing front end of cmpsh: the search-path list it keeps,
 * its builtins, and what `main` does with one input line (tokenize, extract
 * the redirection, split into stages, validate, dispatch). Process creation
 * is not modelled: the result of a line is the action `main` takes.
 */
module Cmpsh {
  import opened Wrappers
  import opened Tokenizer
  import opened Redirection
  import opened Stages
  import opened Resolver

  /** What `run_builtin` did. `Undefined` stands for the source handing the
      stage's NULL terminator to `chdir` or `strdup`, or reading past the
      argument vector, which happens when `token_count` counts stray `|`
      tokens (cmpsh.c:100, 113, 261, 286). */
  datatype BuiltinResult =
    | NotBuiltin                      // returned 0
    | Exited                          // exit(0)
    | PrintedCwd                      // run_pwd()
    | Handled(reportedError: bool)    // cd or path, returned 1
    | Undefined

  /** What `main` does with one line. */
  datatype Action =
    | Skip                                                   // no token, or no stage
    | Rejected                                               // a forbidden name inside a pipeline
    | RanBuiltin(result: BuiltinResult)
    | RunCommand(args: seq<string>)                          // one stage, forked directly
    | RunPipeline(commands: seq<seq<string>>, outputFile: Option<string>)

  const BuiltinNames: set<string> := {"exit", "cd", "pwd", "path"}

  /** `run_builtin(args, arg_count)` on the search list `paths`; `chdir` is
      the outcome of the directory change, true on success. The result and the
      new search list. */
  function Builtin(args: seq<string>, argCount: nat, paths: seq<string>, chdir: string -> bool)
    : (r: (BuiltinResult, seq<string>))
    requires args != [] && argCount >= |args|
    ensures r.0.NotBuiltin? <==> args[0] !in BuiltinNames
    ensures args[0] != "path" ==> r.1 == paths
    ensures args[0] == "path" && argCount == |args|
      ==> r == (Handled(false), args[1..]) && |r.1| == argCount - 1
    ensures args[0] == "cd" && argCount != 2 ==> r.0 == Handled(true)
    ensures args[0] == "cd" && argCount == 2 && |args| == 2 ==> r.0 == Handled(!chdir(args[1]))
    ensures args[0] == "cd" && argCount == 2 && |args| < 2 ==> r.0 == Undefined
    ensures args[0] == "path" && argCount > |args| ==> r.0 == Undefined
    ensures args[0] == "exit" <==> r.0 == Exited
    ensures args[0] == "pwd" <==> r.0 == PrintedCwd
  {
    if args[0] == "exit" then (Exited, paths)
    else if args[0] == "cd" then
      if argCount != 2 then (Handled(true), paths)
      else if |args| < 2 then (Undefined, paths)
      else (Handled(!chdir(args[1])), paths)
    else if args[0] == "pwd" then (PrintedCwd, paths)
    else if args[0] == "path" then
      if argCount > |args| then (Undefined, paths)
      else
        assert argCount == |args| ==> args[1..argCount] == args[1..];
        (Handled(false), args[1..argCount])
    else (NotBuiltin, paths)
  }

  /** What `main` does with the tokens of one line, on search list `paths`. */
  function EvalTokens(tokens: seq<string>, paths: seq<string>, chdir: string -> bool): (r: (Action, seq<string>))
    ensures tokens == [] ==> r == (Skip, paths)
    ensures r.0.RunCommand? ==> r.0.args != [] && r.0.args[0] !in BuiltinNames
    ensures r.0.RunPipeline? ==> |r.0.commands| > 1 || r.0.outputFile.Some?
    ensures r.1 != paths ==> r.0 == RanBuiltin(Handled(false))
  {
    if tokens == [] then (Skip, paths)
    else
      var red := Extract(tokens);
      var commands := Split(red.tokens);
      SplitAllStages(red.tokens);
      if commands == [] then (Skip, paths)
      else if Rejects(commands) then (Rejected, paths)
      else if |commands| == 1 && red.outputFile.None? then
        SingleStageTokenCount(red.tokens);
        var (b, newPaths) := Builtin(commands[0], |red.tokens|, paths, chdir);
        if b.NotBuiltin? then (RunCommand(commands[0]), paths) else (RanBuiltin(b), newPaths)
      else (RunPipeline(commands, red.outputFile), paths)
  }

  /** What `main` does with one input line. */
  function Eval(line: string, paths: seq<string>, chdir: string -> bool): (r: (Action, seq<string>))
    ensures Tokenize(line) == [] ==> r == (Skip, paths)
    ensures r.1 != paths ==> r.0 == RanBuiltin(Handled(false))
  {
    EvalTokens(Tokenize(line), paths, chdir)
  }

  /** The token array of `main` (cmpsh.c:236-273): extraction in place,
      then stage splitting over what is left. `tokenCount` is the
      `token_count` left after extraction. */
  method BuildPipeline(tokens: seq<string>) returns (commands: seq<seq<string>>, outputFile: Option<string>, tokenCount: nat)
    ensures outputFile == Extract(tokens).outputFile
    ensures tokenCount == |Extract(tokens).tokens|
    ensures commands == Split(Extract(tokens).tokens)
    ensures AllStages(commands)
  {
    var buffer := new string[|tokens|](i requires 0 <= i < |tokens| => tokens[i]);
    assert buffer[..|tokens|] == tokens;
    tokenCount, outputFile := ExtractRedirection(buffer, |tokens|);
    var rest := buffer[..tokenCount];
    assert Extract(tokens) == Redirected(rest, outputFile);
    commands := SplitStages(rest);
    SplitAllStages(rest);
  }

  /** The shell's state: the global search list (`search_paths`, whose length
      is `path_count`). */
  class Shell {
    var searchPaths: seq<string>

    /** The start of `main`: the list holds `/bin` only (cmpsh.c:213-215). */
    constructor ()
      ensures searchPaths == ["/bin"]
    {
      searchPaths := ["/bin"];
    }

    /** `find_executable`: a loop over the list with an early return. */
    method FindExecutable(command: string, isExecutable: string -> bool) returns (fullPath: Option<string>)
      ensures fullPath == Resolve(searchPaths, command, isExecutable)
    {
      if |searchPaths| == 0 {
        return None;
      }
      var i := 0;
      while i < |searchPaths|
        invariant 0 <= i <= |searchPaths|
        invariant Resolve(searchPaths, command, isExecutable) == Resolve(searchPaths[i..], command, isExecutable)
      {
        var candidate := searchPaths[i] + "/" + command;
        assert searchPaths[i..][1..] == searchPaths[i + 1..];
        if isExecutable(candidate) {
          return Some(candidate);
        }
        i := i + 1;
      }
      return None;
    }

    /** `run_builtin`: `path` replaces the whole list; nothing else touches it. */
    method RunBuiltin(args: seq<string>, argCount: nat, chdir: string -> bool) returns (result: BuiltinResult)
      requires args != [] && argCount >= |args|
      modifies this
      ensures (result, searchPaths) == Builtin(args, argCount, old(searchPaths), chdir)
    {
      if args[0] == "exit" {
        return Exited;
      } else if args[0] == "cd" {
        if argCount != 2 {
          return Handled(true);
        }
        if |args| < 2 {
          return Undefined;
        }
        return Handled(!chdir(args[1]));
      } else if args[0] == "pwd" {
        return PrintedCwd;
      } else if args[0] == "path" {
        if argCount > |args| {
          return Undefined;
        }
        var newPaths := [];
        var i := 0;
        while i < argCount - 1
          invariant 0 <= i <= argCount - 1
          invariant newPaths == args[1..i + 1]
        {
          newPaths := newPaths + [args[i + 1]];
          i := i + 1;
        }
        searchPaths := newPaths;
        return Handled(false);
      }
      return NotBuiltin;
    }

    /** One pass of `main`'s loop body (cmpsh.c:229-307) on an input line. */
    method ProcessLine(line: string, chdir: string -> bool) returns (action: Action)
      modifies this
      ensures (action, searchPaths) == Eval(line, old(searchPaths), chdir)
    {
      var tokens := TokenizeInput(line);
      if |tokens| == 0 {
        return Skip;
      }
      var commands, outputFile, tokenCount := BuildPipeline(tokens);
      if |commands| == 0 {
        return Skip;
      }
      var ok := ValidatePipeline(commands);
      if !ok {
        return Rejected;
      }
      if |commands| == 1 && outputFile.None? {
        var args := commands[0];
        SingleStageTokenCount(Extract(tokens).tokens);
        var b := RunBuiltin(args, tokenCount, chdir);
        if b.NotBuiltin? {
          return RunCommand(args);
        }
        return RanBuiltin(b);
      }
      return RunPipeline(commands, outputFile);
    }
  }

  // ----- properties of one line -----

  /** How `main` dispatches a line, in both directions. With `cs` the stages
      left after extraction: no stage means the line is skipped; a stage
      naming a forbidden builtin in a multi-stage line means it is rejected;
      one stage without redirection goes to `run_builtin` with `token_count`
      (and is forked when it is no builtin); every other line goes to
      `run_pipeline`. Only a `path` builtin changes the search list. */
  lemma DispatchRule(tokens: seq<string>, paths: seq<string>, chdir: string -> bool)
    ensures AllStages(Split(Extract(tokens).tokens))
    ensures var (a, newPaths) := EvalTokens(tokens, paths, chdir);
      var red := Extract(tokens);
      var cs := Split(red.tokens);
      && (a == Skip <==> cs == [])
      && (a == Rejected <==> cs != [] && Rejects(cs))
      && ((a.RanBuiltin? || a.RunCommand?) <==> cs != [] && !Rejects(cs) && |cs| == 1 && red.outputFile.None?)
      && (a.RunPipeline? <==> cs != [] && !Rejects(cs) && (|cs| > 1 || red.outputFile.Some?))
      && (a.RunCommand? <==> cs != [] && !Rejects(cs) && |cs| == 1 && red.outputFile.None? && cs[0][0] !in BuiltinNames)
      && (a.RunCommand? ==> cs == [a.args] && a.args[0] !in BuiltinNames)
      && (a.RanBuiltin? ==> |cs| == 1 && |red.tokens| >= |cs[0]|
                            && (a.result, newPaths) == Builtin(cs[0], |red.tokens|, paths, chdir))
      && (a.RunPipeline? ==> a.commands == cs && a.outputFile == red.outputFile)
      && (newPaths != paths ==> a == RanBuiltin(Handled(false)) && cs[0][0] == "path")
  {
    var red := Extract(tokens);
    var commands := Split(red.tokens);
    SplitAllStages(red.tokens);
    if tokens == [] {
      assert red.tokens == [];
      assert FirstPipe([]) == 0;
    } else if commands == [] || Rejects(commands) {
    } else if |commands| == 1 && red.outputFile.None? {
      SingleStageTokenCount(red.tokens);
    }
  }

  /** A line of only spaces and tabs does nothing. */
  lemma BlankLineSkipped(line: string, paths: seq<string>, chdir: string -> bool)
    requires AllBlank(line)
    ensures Eval(line, paths, chdir) == (Skip, paths)
  {
    BlankLine(line);
  }

  /** A token list that is one plain stage: no `|`, no `>`. */
  lemma SingleStage(tokens: seq<string>)
    requires tokens != [] && Pipe !in tokens && ">" !in tokens
    ensures Extract(tokens) == Redirected(tokens, None)
    ensures Split(tokens) == [tokens]
  {
    FirstRedirectNone(tokens);
    FirstPipeIs(tokens, |tokens|);
    assert tokens[..|tokens|] == tokens;
  }

  /** `path d1 ... dn` on its own replaces the search list by `d1 ... dn`,
      in order, whatever it held before. */
  lemma PathReplacesList(tokens: seq<string>, paths: seq<string>, chdir: string -> bool)
    requires tokens != [] && tokens[0] == "path" && Pipe !in tokens && ">" !in tokens
    ensures EvalTokens(tokens, paths, chdir) == (RanBuiltin(Handled(false)), tokens[1..])
  {
    SingleStage(tokens);
  }

  /** `path` with no argument empties the list; after it no command resolves. */
  lemma PathWithoutArgumentsDisablesResolution(paths: seq<string>, chdir: string -> bool, command: string, isExecutable: string -> bool)
    ensures Eval("path", paths, chdir) == (RanBuiltin(Handled(false)), [])
    ensures Resolve(Eval("path", paths, chdir).1, command, isExecutable) == None
  {
    PathTokens();
    assert Pipe !in ["path"] && ">" !in ["path"];
    PathReplacesList(["path"], paths, chdir);
  }

  lemma PathTokens()
    ensures Tokenize("path") == ["path"]
  {
    assert PlainWord("path");
    WordAccumulates(Init, "path");
    assert Init.current + "path" == "path";
    assert RunFrom(Init, "path") == Init.(current := "path");
  }

  /** A pipeline naming `cd`, `exit` or `paths` in any stage is rejected
      before anything runs, and the search list is unchanged. */
  lemma ForbiddenInPipelineRejected(tokens: seq<string>, paths: seq<string>, chdir: string -> bool, i: nat)
    requires var commands := Split(Extract(tokens).tokens);
      |commands| > 1 && i < |commands| && commands[i] != [] && commands[i][0] in Forbidden
    ensures EvalTokens(tokens, paths, chdir) == (Rejected, paths)
  {
    SplitAllStages(Extract(tokens).tokens);
  }

  /** `cmd1 arg | cmd2 > file.txt`: two stages, output to `file.txt`. */
  lemma PipelineExample(paths: seq<string>, chdir: string -> bool)
    ensures EvalTokens(["cmd1", "arg", "|", "cmd2", ">", "file.txt"], paths, chdir)
      == (RunPipeline([["cmd1", "arg"], ["cmd2"]], Some("file.txt")), paths)
  {
    var t := ["cmd1", "arg", "|", "cmd2", ">", "file.txt"];
    var ss := [["cmd1", "arg"], ["cmd2"]];
    RedirectExample();
    SplitExample();
    assert Extract(t).tokens == ["cmd1", "arg", "|", "cmd2"];
    assert Split(Extract(t).tokens) == ss;
    PipelineExampleAccepted(ss);
  }

  lemma PipelineExampleAccepted(ss: seq<seq<string>>)
    requires ss == [["cmd1", "arg"], ["cmd2"]]
    ensures AllStages(ss) && !Rejects(ss)
  {
    assert "cmd1" != Pipe && "arg" != Pipe && "cmd2" != Pipe;
    assert "cmd1" !in Forbidden && "cmd2" !in Forbidden;
  }

  /** `ls | path /x` is not rejected (the source's list names `paths`):
      it goes to the pipeline runner. */
  lemma PathInPipelineRuns(paths: seq<string>, chdir: string -> bool)
    ensures EvalTokens(["ls", "|", "path", "/x"], paths, chdir)
      == (RunPipeline([["ls"], ["path", "/x"]], None), paths)
  {
    PathInPipelineStages();
    assert "ls" !in Forbidden && "path" !in Forbidden;
  }

  lemma PathInPipelineStages()
    ensures Extract(["ls", "|", "path", "/x"]) == Redirected(["ls", "|", "path", "/x"], None)
    ensures Split(["ls", "|", "path", "/x"]) == [["ls"], ["path", "/x"]]
  {
    var t := ["ls", "|", "path", "/x"];
    assert "ls" != ">" && "|" != ">" && "path" != ">";
    FirstRedirectNone(t);
    var ss := [["ls"], ["path", "/x"]];
    assert "ls" != Pipe && "path" != Pipe && "/x" != Pipe;
    SplitJoin(ss);
    assert JoinPipes(ss[1..]) == ["path", "/x"];
    assert JoinPipes(ss) == t;
  }

  /** `echo '|' x`: the quoted `|` is compared by its contents
      (cmpsh.c:255), so it splits the line into two stages. */
  lemma QuotedPipeRuns(paths: seq<string>, chdir: string -> bool)
    ensures Eval("echo '|' x", paths, chdir) == (RunPipeline([["echo"], ["x"]], None), paths)
  {
    QuotedOperatorExample();
    QuotedPipeDispatch(paths, chdir);
  }

  lemma QuotedPipeDispatch(paths: seq<string>, chdir: string -> bool)
    ensures EvalTokens(["echo", "|", "x"], paths, chdir) == (RunPipeline([["echo"], ["x"]], None), paths)
  {
    QuotedPipeStages();
    assert "echo" !in Forbidden && "x" !in Forbidden;
  }

  lemma QuotedPipeStages()
    ensures Extract(["echo", "|", "x"]) == Redirected(["echo", "|", "x"], None)
    ensures Split(["echo", "|", "x"]) == [["echo"], ["x"]]
  {
    var t := ["echo", "|", "x"];
    assert "echo" != ">" && "|" != ">";
    FirstRedirectNone(t);
    var ss := [["echo"], ["x"]];
    assert "echo" != Pipe && "x" != Pipe;
    SplitJoin(ss);
    assert JoinPipes(ss) == t;
  }

  /** `cd /tmp` changes directory; `| cd /tmp` reports an error instead,
      because `run_builtin` is given the token count (3), not the stage
      length (2). */
  lemma StrayPipeBreaksCd(paths: seq<string>, chdir: string -> bool)
    ensures EvalTokens(["cd", "/tmp"], paths, chdir) == (RanBuiltin(Handled(!chdir("/tmp"))), paths)
    ensures EvalTokens(["|", "cd", "/tmp"], paths, chdir) == (RanBuiltin(Handled(true)), paths)
  {
    assert Pipe !in ["cd", "/tmp"] && ">" !in ["cd", "/tmp"];
    SingleStage(["cd", "/tmp"]);
    var t := ["|", "cd", "/tmp"];
    FirstRedirectNone(t);
    SplitLeadingPipe(["cd", "/tmp"]);
    assert t == [Pipe] + ["cd", "/tmp"];
  }

  /** `path /bin |`: the token count (3) exceeds the stage length (2), so
      `strdup` is given the vector's NULL terminator (cmpsh.c:113, 261). */
  lemma StrayPipeBreaksPath(paths: seq<string>, chdir: string -> bool)
    ensures EvalTokens(["path", "/bin", "|"], paths, chdir) == (RanBuiltin(Undefined), paths)
  {
    var t := ["path", "/bin", "|"];
    assert "path" != ">" && "/bin" != ">";
    FirstRedirectNone(t);
    SplitTrailingPipe(["path", "/bin"]);
    assert Pipe !in ["path", "/bin"] && ">" !in ["path", "/bin"];
    SingleStage(["path", "/bin"]);
    assert t == ["path", "/bin"] + [Pipe];
  }

  /** `cd |`: the stage is `cd` alone but the token count is 2, so the
      argument check passes and `chdir` is given the vector's NULL terminator
      (cmpsh.c:96-100, 261). */
  lemma StrayPipeLeavesCdWithoutArgument(paths: seq<string>, chdir: string -> bool)
    ensures EvalTokens(["cd", "|"], paths, chdir) == (RanBuiltin(Undefined), paths)
  {
    var t := ["cd", "|"];
    assert "cd" != ">";
    FirstRedirectNone(t);
    SplitTrailingPipe(["cd"]);
    assert Pipe !in ["cd"] && ">" !in ["cd"];
    SingleStage(["cd"]);
    assert t == ["cd"] + [Pipe];
  }
}
