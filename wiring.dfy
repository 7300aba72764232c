/**
 * How `run_pipeline` connects the stages of a pipeline (cmpsh.c:154-167),
 * as a plan: which descriptor each stage's standard input and output are
 * duplicated from. There are `n - 1` pipes, numbered from 0; the forks,
 * `dup2` calls and descriptor closing themselves are not modelled.
 */
module Wiring {
  import opened Wrappers

  datatype Endpoint =
    | Inherited                 // the shell's own standard input or output
    | PipeRead(pipe: nat)       // pipes[pipe][0]
    | PipeWrite(pipe: nat)      // pipes[pipe][1]
    | OutputFile(name: string)  // open(output_file, O_WRONLY | O_CREAT | O_TRUNC)

  /** Stage `i` reads from the pipe before it; stage 0 keeps standard input. */
  function StdinOf(i: nat): (e: Endpoint)
    ensures e.PipeRead? <==> i > 0
    ensures e.PipeRead? ==> e.pipe + 1 == i
    ensures e.Inherited? <==> i == 0
  {
    if i > 0 then PipeRead(i - 1) else Inherited
  }

  /** Stage `i` of `n` writes to the pipe after it; the last stage writes to
      the output file when there is one. */
  function StdoutOf(i: nat, n: nat, outputFile: Option<string>): (e: Endpoint)
    ensures e.PipeWrite? <==> i + 1 < n
    ensures e.PipeWrite? ==> e.pipe == i
    ensures e.OutputFile? <==> i + 1 >= n && outputFile.Some?
    ensures e.OutputFile? ==> e.name == outputFile.value
    ensures !e.PipeRead?
  {
    if i < n - 1 then PipeWrite(i)
    else if outputFile.Some? then OutputFile(outputFile.value)
    else Inherited
  }

  /** Each pipe joins two neighbouring stages: stage `k` is its only writer
      and stage `k + 1` its only reader; only the last stage can write to
      the output file, and it does when there is one. */
  lemma PipesJoinNeighbours(n: nat, outputFile: Option<string>)
    ensures forall k: nat :: k + 1 < n ==> StdoutOf(k, n, outputFile) == PipeWrite(k) && StdinOf(k + 1) == PipeRead(k)
    ensures forall i: nat, k: nat :: i < n && StdoutOf(i, n, outputFile) == PipeWrite(k) ==> i == k && k + 1 < n
    ensures forall i: nat, k: nat :: i < n && StdinOf(i) == PipeRead(k) ==> i == k + 1 && k + 1 < n
    ensures forall i: nat :: i < n && StdoutOf(i, n, outputFile).OutputFile? ==> i == n - 1 && outputFile.Some?
    ensures n > 0 && outputFile.Some? ==> StdoutOf(n - 1, n, outputFile) == OutputFile(outputFile.value)
  {
  }
}
