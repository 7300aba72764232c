/**
 * The pipeline builder inside cmpsh's `main`: the token list (after
 * redirection extraction) is cut at `|` tokens into argument vectors,
 * empty runs are dropped, and a multi-stage line naming a forbidden
 * builtin is rejected.
 */
module Stages {
  import opened Seqs

  const Pipe: string := "|"

  /** The index of the first `|` token, or `|t|` when there is none. */
  function FirstPipe(t: seq<string>): (k: nat)
    ensures k <= |t|
    ensures k < |t| ==> t[k] == Pipe
    ensures forall j :: 0 <= j < k ==> t[j] != Pipe
  {
    if t == [] then 0 else if t[0] == Pipe then 0 else FirstPipe(t[1..]) + 1
  }

  /** The stages of `t`: the runs between `|` tokens, empty runs left out. */
  function Split(t: seq<string>): (r: seq<seq<string>>)
    ensures |r| <= |t|
    decreases |t|
  {
    var k := FirstPipe(t);
    var run := if k == 0 then [] else [t[..k]];
    if k == |t| then run else run + Split(t[k + 1..])
  }

  /** Stages joined back together with a `|` token between neighbours. */
  function JoinPipes(ss: seq<seq<string>>): seq<string>
  {
    if ss == [] then [] else if |ss| == 1 then ss[0] else ss[0] + [Pipe] + JoinPipes(ss[1..])
  }

  /** A valid stage: non-empty and free of `|` tokens. */
  predicate IsStage(s: seq<string>) { s != [] && Pipe !in s }

  predicate AllStages(ss: seq<seq<string>>) { forall i :: 0 <= i < |ss| ==> IsStage(ss[i]) }

  /** The stages still to come once `cmd_start` is `start`. */
  function SplitFrom(t: seq<string>, start: nat): seq<seq<string>>
  {
    if start <= |t| then Split(t[start..]) else []
  }

  /** The stage-splitting loop of `main` (cmpsh.c:251-273), carrying
      `cmd_start`; `commands` is the `commands` array. */
  method SplitStages(tokens: seq<string>) returns (commands: seq<seq<string>>)
    ensures commands == Split(tokens)
  {
    commands := [];
    var cmdStart := 0;
    var i := 0;
    while i <= |tokens|
      invariant cmdStart <= i <= |tokens| + 1
      invariant commands + Scan(tokens, cmdStart, i) == Scan(tokens, 0, 0)
      decreases |tokens| + 1 - i
    {
      if i == |tokens| || tokens[i] == Pipe {
        if i > cmdStart {
          commands := commands + [tokens[cmdStart..i]];
        }
        cmdStart := i + 1;
      }
      i := i + 1;
    }
    ScanIsSplit(tokens, 0, 0);
    assert tokens[0..] == tokens;
  }

  /** The loop from position `i` with the current stage starting at `start`:
      one iteration per index, as the source loop runs. */
  ghost function Scan(t: seq<string>, start: nat, i: nat): seq<seq<string>>
    requires start <= i
    decreases |t| + 1 - i
  {
    if i > |t| then []
    else if i == |t| || t[i] == Pipe then
      (if i > start then [t[start..i]] else []) + Scan(t, i + 1, i + 1)
    else Scan(t, start, i + 1)
  }

  /** The scan from `i`, with no `|` since `start`, yields the stages of the
      tokens from `start`. */
  lemma {:induction false} ScanIsSplit(t: seq<string>, start: nat, i: nat)
    requires start <= i <= |t| + 1
    requires i > |t| ==> start == i
    requires forall j :: start <= j < i && j < |t| ==> t[j] != Pipe
    ensures Scan(t, start, i) == SplitFrom(t, start)
    decreases |t| + 1 - i
  {
    if i > |t| {
    } else if i == |t| || t[i] == Pipe {
      ScanIsSplit(t, i + 1, i + 1);
      ScanCut(t, start, i);
    } else {
      ScanIsSplit(t, start, i + 1);
    }
  }

  /** At a cut, the scan agrees with the split once it agrees after the cut. */
  lemma ScanCut(t: seq<string>, start: nat, i: nat)
    requires start <= i <= |t|
    requires i == |t| || t[i] == Pipe
    requires forall j :: start <= j < i ==> t[j] != Pipe
    requires Scan(t, i + 1, i + 1) == SplitFrom(t, i + 1)
    ensures Scan(t, start, i) == SplitFrom(t, start)
  {
    SplitAt(t, start, i);
  }

  lemma FirstPipeIs(t: seq<string>, k: nat)
    requires k <= |t|
    requires k < |t| ==> t[k] == Pipe
    requires forall j :: 0 <= j < k ==> t[j] != Pipe
    ensures FirstPipe(t) == k
  {
  }

  /** One cut of the loop: at a `|` (or the end) the run since `cmd_start`
      becomes a stage unless it is empty, and splitting goes on after it. */
  lemma SplitAt(t: seq<string>, start: nat, i: nat)
    requires start <= i <= |t|
    requires i == |t| || t[i] == Pipe
    requires forall j :: start <= j < i ==> t[j] != Pipe
    ensures SplitFrom(t, start) == (if i > start then [t[start..i]] else []) + SplitFrom(t, i + 1)
  {
    var rest := t[start..];
    FirstPipeIs(rest, i - start);
    assert rest[..i - start] == t[start..i];
    if i < |t| {
      assert rest[i - start + 1..] == t[i + 1..];
    }
  }

  // ----- properties -----

  /** Every stage is non-empty and contains no `|` token. */
  lemma {:induction false} SplitAllStages(t: seq<string>)
    ensures AllStages(Split(t))
    decreases |t|
  {
    var k := FirstPipe(t);
    if k < |t| {
      SplitAllStages(t[k + 1..]);
      assert Pipe !in t[..k];
    } else {
      assert Pipe !in t[..k];
    }
  }

  /** The stages, in order, hold exactly the tokens that are not `|`. */
  lemma {:induction false} SplitFlatten(t: seq<string>)
    ensures Flatten(Split(t)) == Without(t, Pipe)
    decreases |t|
  {
    var k := FirstPipe(t);
    var run := if k == 0 then [] else [t[..k]];
    assert Pipe !in t[..k];
    WithoutAbsent(t[..k], Pipe);
    assert Flatten(run) == t[..k] by {
      if k != 0 {
        assert run[1..] == [];
      }
    }
    if k == |t| {
      assert t[..k] == t;
    } else {
      SplitFlatten(t[k + 1..]);
      FlattenAppend(run, Split(t[k + 1..]));
      assert t == t[..k] + [Pipe] + t[k + 1..];
      WithoutAppend(t[..k] + [Pipe], t[k + 1..], Pipe);
      WithoutAppend(t[..k], [Pipe], Pipe);
      assert Without([Pipe], Pipe) == [] by {
        assert [Pipe][1..] == [];
      }
    }
  }

  /** There are at most one more stages than `|` tokens. */
  lemma {:induction false} SplitCountBound(t: seq<string>)
    ensures |Split(t)| <= Count(t, Pipe) + 1
    decreases |t|
  {
    var k := FirstPipe(t);
    if k < |t| {
      SplitCountBound(t[k + 1..]);
      PipeCountAround(t, k);
    }
  }

  /** A `|` at index `k` counts once, between the two sides. */
  lemma PipeCountAround(t: seq<string>, k: nat)
    requires k < |t| && t[k] == Pipe
    ensures Count(t, Pipe) == Count(t[..k], Pipe) + 1 + Count(t[k + 1..], Pipe)
  {
    assert t == t[..k] + [Pipe] + t[k + 1..];
    CountAppend(t[..k] + [Pipe], t[k + 1..], Pipe);
    CountAppend(t[..k], [Pipe], Pipe);
    assert Count([Pipe], Pipe) == 1 by {
      assert [Pipe][1..] == [];
    }
  }

  predicate AllPipes(t: seq<string>) { forall j :: 0 <= j < |t| ==> t[j] == Pipe }

  /** No stage at all exactly when every token is `|`, so the line is skipped. */
  lemma {:induction false} SplitEmpty(t: seq<string>)
    ensures Split(t) == [] <==> AllPipes(t)
    decreases |t|
  {
    var k := FirstPipe(t);
    if k == 0 && t != [] {
      SplitEmpty(t[1..]);
      if AllPipes(t[1..]) {
        forall j | 0 <= j < |t| ensures t[j] == Pipe {
          if j > 0 {
            assert t[j] == t[1..][j - 1];
          }
        }
      } else {
        var m :| 0 <= m < |t[1..]| && t[1..][m] != Pipe;
        assert t[m + 1] != Pipe;
      }
    } else if t != [] {
      assert t[0] != Pipe;
      assert Split(t)[0] == t[..k];
    }
  }

  /** With a single stage, the token count is that stage's length plus the
      number of stray `|` tokens: the count `run_builtin` is given
      (cmpsh.c:286) is not the stage length when the line has a `|`. */
  lemma SingleStageTokenCount(t: seq<string>)
    requires |Split(t)| == 1
    ensures |t| == |Split(t)[0]| + Count(t, Pipe)
  {
    SplitFlatten(t);
    var ss := Split(t);
    assert ss[1..] == [];
    assert Flatten(ss) == ss[0];
    WithoutCount(t, Pipe);
  }

  /** Joining well-formed stages with `|` and splitting again gives them back. */
  lemma {:induction false} SplitJoin(ss: seq<seq<string>>)
    requires AllStages(ss)
    ensures Split(JoinPipes(ss)) == ss
  {
    if ss == [] {
    } else if |ss| == 1 {
      SplitSingle(ss[0]);
    } else {
      AllStagesTail(ss);
      SplitJoin(ss[1..]);
      SplitJoinStep(ss);
    }
  }

  lemma AllStagesTail(ss: seq<seq<string>>)
    requires ss != [] && AllStages(ss)
    ensures IsStage(ss[0]) && AllStages(ss[1..])
  {
    assert forall i :: 1 <= i < |ss| ==> ss[1..][i - 1] == ss[i];
  }

  /** The join of two or more stages splits back once its tail does. */
  lemma SplitJoinStep(ss: seq<seq<string>>)
    requires |ss| > 1 && IsStage(ss[0])
    requires Split(JoinPipes(ss[1..])) == ss[1..]
    ensures Split(JoinPipes(ss)) == ss
  {
    SplitCons(ss[0], JoinPipes(ss[1..]));
    assert ss == [ss[0]] + ss[1..];
  }

  /** A single stage splits into itself. */
  lemma SplitSingle(s0: seq<string>)
    requires IsStage(s0)
    ensures Split(s0) == [s0]
  {
    FirstPipeIs(s0, |s0|);
    assert s0[..|s0|] == s0;
  }

  /** A stage followed by `|` splits off as the first stage. */
  lemma SplitCons(s0: seq<string>, rest: seq<string>)
    requires IsStage(s0)
    ensures Split(s0 + [Pipe] + rest) == [s0] + Split(rest)
  {
    var t := s0 + [Pipe] + rest;
    FirstPipeIs(t, |s0|);
    assert t[..|s0|] == s0;
    assert t[|s0| + 1..] == rest;
  }

  /** `cmd1 arg | cmd2` splits into `[cmd1, arg]` and `[cmd2]`. */
  lemma SplitExample()
    ensures Split(["cmd1", "arg", "|", "cmd2"]) == [["cmd1", "arg"], ["cmd2"]]
  {
    var ss := [["cmd1", "arg"], ["cmd2"]];
    assert "cmd1" != Pipe && "arg" != Pipe && "cmd2" != Pipe;
    assert AllStages(ss);
    SplitJoin(ss);
    assert JoinPipes(ss[1..]) == ["cmd2"];
    assert JoinPipes(ss) == ["cmd1", "arg", "|", "cmd2"];
  }

  /** A leading `|` adds no stage. */
  lemma SplitLeadingPipe(t: seq<string>)
    ensures Split([Pipe] + t) == Split(t)
  {
    FirstPipeIs([Pipe] + t, 0);
    assert ([Pipe] + t)[1..] == t;
  }

  /** A trailing `|` adds no stage. */
  lemma {:induction false} SplitTrailingPipe(t: seq<string>)
    ensures Split(t + [Pipe]) == Split(t)
    decreases |t|
  {
    var k := FirstPipe(t);
    var u := t + [Pipe];
    FirstPipeIs(u, k);
    if k == |t| {
      assert u[k + 1..] == [];
      assert t[..k] == u[..k];
    } else {
      assert u[..k] == t[..k];
      assert u[k + 1..] == t[k + 1..] + [Pipe];
      SplitTrailingPipe(t[k + 1..]);
    }
  }

  /** Two `|` in a row split like one: the empty run between them is dropped. */
  lemma {:induction false} SplitDoublePipe(a: seq<string>, b: seq<string>)
    ensures Split(a + [Pipe, Pipe] + b) == Split(a + [Pipe] + b)
    decreases |a|
  {
    var k := FirstPipe(a);
    var u, v := a + [Pipe, Pipe] + b, a + [Pipe] + b;
    FirstPipeIs(u, k);
    FirstPipeIs(v, k);
    assert u[..k] == a[..k] == v[..k];
    if k == |a| {
      assert u[k + 1..] == [Pipe] + b;
      assert v[k + 1..] == b;
      SplitLeadingPipe(b);
    } else {
      assert u[k + 1..] == a[k + 1..] + [Pipe, Pipe] + b;
      assert v[k + 1..] == a[k + 1..] + [Pipe] + b;
      SplitDoublePipe(a[k + 1..], b);
    }
  }

  // ----- validation -----

  /** The names the source refuses inside a pipeline. The third is `paths`,
      not `path`. */
  const Forbidden: set<string> := {"cd", "exit", "paths"}

  /** A line with more than one stage is rejected when some stage's first
      word is a forbidden name. */
  predicate Rejects(commands: seq<seq<string>>)
    requires AllStages(commands)
  {
    |commands| > 1 && exists i :: 0 <= i < |commands| && commands[i][0] in Forbidden
  }

  /** The validation loop of `main` (cmpsh.c:275-282), leaving at the first
      offending stage. */
  method ValidatePipeline(commands: seq<seq<string>>) returns (ok: bool)
    requires AllStages(commands)
    ensures ok <==> !(|commands| > 1 && exists i :: 0 <= i < |commands| && commands[i][0] in Forbidden)
    ensures ok <==> !Rejects(commands)
  {
    var hasPipe := |commands| > 1;
    var i := 0;
    while i < |commands|
      invariant 0 <= i <= |commands|
      invariant hasPipe ==> forall j :: 0 <= j < i ==> commands[j][0] !in Forbidden
    {
      var cmd := commands[i][0];
      if hasPipe && (cmd == "cd" || cmd == "exit" || cmd == "paths") {
        return false;
      }
      i := i + 1;
    }
    return true;
  }

  /** Inside a pipeline `path` is not refused (the list names `paths`),
      while `cd` is. */
  lemma PipelineRejectionExamples()
    ensures !Rejects([["ls"], ["path", "/usr/bin"]])
    ensures Rejects([["ls"], ["cd", "/tmp"]])
    ensures !Rejects([["cd", "/tmp"]])
  {
    assert [["ls"], ["cd", "/tmp"]][1][0] == "cd";
  }
}
