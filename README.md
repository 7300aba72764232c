# cmpsh line front end, in Dafny

A model of what the `cmpsh` shell (`cmpsh.c`) does with one input line
before any process is created:

- **Tokenizer** (`Tokenizer`). `tokenize_input` is a two-mode state machine,
  outside quotes or inside a quote of one kind. `Step` is one iteration of
  its loop and `Tokenize` folds `Step` over the line and then flushes.
  `TokenizeInput` is the source's loop, proved equal to `Tokenize`.
- **Redirection extraction** (`Redirection`). `ExtractRedirection` works in
  place on an `array<string>`, as the source does. It is proved equal to
  `Extract`.
- **Stage splitting and validation** (`Stages`). `SplitStages` is the loop
  carrying `cmd_start`, proved equal to `Split`. `Split` cuts at the first
  `|` token and drops empty runs. `ValidatePipeline` is the rejection loop.
- **Path resolver** (`Resolver`, and `Cmpsh.Shell.FindExecutable`). The
  executable check `access(..., X_OK)` is a parameter `isExecutable`.
- **Builtins and dispatch** (`Cmpsh`). The class `Shell` holds the global
  search list (`search_paths`, with `path_count` as its length).
  `RunBuiltin` replaces it for `path`. `ProcessLine` is one pass of
  `main`'s loop body. It returns the `Action` that `main` takes: skip the
  line, reject it, run a builtin, fork one command, or run a pipeline.
  `Eval` is its specification.
- **Pipe wiring** (`Wiring`). This is the plan of which descriptor each stage
  of `run_pipeline` reads and writes. The plan is modelled; the descriptors
  are not.

The code behaves as follows where a reader might expect otherwise; the
model follows the code:

- The list of names refused inside a pipeline is `cd`, `exit`, `paths`
  (cmpsh.c:278). It has no `path`, so `ls | path /x` is run as a pipeline
  (`Cmpsh.PathInPipelineRuns`).
- A second `>` is not an error, and neither is a `>` with nothing after it.
  The scan stops at the first `>` that has a token after it. That `>` and
  the token after it leave the list, even when that token is itself `>`:
  in `ls > >` the second `>` becomes the output file (cmpsh.c:240). Every
  `>` after them, and a `>` in the last position, stays in the token list
  and becomes an argument (`Redirection.ExtractCountsRedirects`,
  `Redirection.TrailingRedirectExample`). The error branch at
  cmpsh.c:244-246 cannot be reached: `ExtractRedirection` has
  `assert false` there.
- Quotes only group characters; they do not mark an operator as literal.
  A quoted `'|'` or `">"` becomes a bare `|` or `>` token, and redirection
  and splitting compare token contents (cmpsh.c:238, 255), so
  `echo '|' x` runs `echo` and `x` as a two-stage pipeline
  (`Tokenizer.QuotedOperatorExample`, `Cmpsh.QuotedPipeRuns`).
- `run_builtin` is given `token_count`, not the length of the stage
  (cmpsh.c:286). With one stage, `token_count` is the stage length plus the
  number of stray `|` tokens (`Stages.SingleStageTokenCount`). So
  `| cd /tmp` reports an error (`Cmpsh.StrayPipeBreaksCd`).
  In `path /bin |` the count is 3 but the stage holds 2 words, so `strdup`
  is given the vector's NULL terminator `args[2]` (cmpsh.c:113, 261); with
  two or more stray `|` the loop reads past the vector. In `cd |` the count
  is 2, so the argument check passes and `chdir` is given the NULL
  terminator (cmpsh.c:96-100). The model returns the outcome `Undefined`
  for these, rather than a precondition that rules them out
  (`Cmpsh.StrayPipeBreaksPath`, `Cmpsh.StrayPipeLeavesCdWithoutArgument`).

The directory change (`chdir`) and the executable check are oracles: total
functions `string -> bool` passed in by the caller.

## Model

| member | source | states |
|---|---|---|
| Tokenizer.TokenizeInput | cmpsh.c:24-69 | the character loop gives exactly `Tokenize(line)`; no token is empty; there are at most as many tokens as characters |
| Tokenizer.Step | cmpsh.c:34-61 | one character only appends tokens, at most two; tokens are emitted only outside quotes at a blank or an operator; the character opens a quote outside quotes and closes it only if it is the same quote; the number of tokens plus the length of the word in progress grows by at most one |
| Tokenizer.Tokenize | cmpsh.c:24-69 | the tokenizer never emits an empty token, because a word is flushed only when `token_index > 0`; there are at most as many tokens as characters |
| Tokenizer.WordAccumulates | cmpsh.c:58-60 | outside quotes, a run of ordinary characters is appended to the word being built |
| Tokenizer.WordThenOperator | cmpsh.c:51-57 | outside quotes, `\|` or `>` first flushes the word being built (if any), then becomes a one-character token of its own, and leaves no word in progress |
| Tokenizer.OperatorExample | cmpsh.c:33-66 | `ls\|wc>f` gives `ls`, `\|`, `wc`, `>`, `f`: with no spaces, each operator still ends the word before it |
| Tokenizer.WordThenBlank | cmpsh.c:45-50 | outside quotes, a space or tab flushes the word being built (if any), adds no token of its own, and leaves no word in progress |
| Tokenizer.QuotedOperatorExample | cmpsh.c:33-66 | `echo '\|' x` gives `echo`, `\|`, `x`: the quoted operator becomes a token equal to the operator |
| Tokenizer.InQuotesAccumulates | cmpsh.c:34-40 | inside a quote, every character other than that quote is kept verbatim |
| Tokenizer.QuotedRegion | cmpsh.c:34-44 | a region from a quote to the next quote of the same kind adds its contents verbatim to the current word, even spaces, `\|`, `>` and the other quote. The quotes are dropped, and the closing quote does not end the word |
| Tokenizer.UnterminatedQuote | cmpsh.c:33-66 | an unterminated quote takes the rest of the line, which ends up in the last token |
| Tokenizer.QuoteExample | cmpsh.c:33-66 | `"a b" c` gives `a b` and `c` |
| Tokenizer.QuoteJoinsExample | cmpsh.c:33-66 | `"a b"c` gives the single token `a bc` |
| Tokenizer.QuoteFreeConcat | cmpsh.c:41-66 | for a line without quotes, the tokens joined together are the line with its spaces and tabs deleted |
| Tokenizer.QuoteFreeShape | cmpsh.c:41-66 | for a line without quotes, every token is either a lone `\|` or `>`, or a non-empty word with no blank, operator or quote |
| Tokenizer.BlankLine | cmpsh.c:45-50 | a line of only spaces and tabs gives no token |
| Redirection.FirstRedirect | cmpsh.c:237-238 | the index found is the first `>` among all but the last token |
| Redirection.Extract | cmpsh.c:236-249 | an output file is taken exactly when there is a redirect; then it is the token after the first `>`, the two tokens leave, and the tokens before the `>` keep their places; without a redirect the tokens are unchanged |
| Redirection.ExtractRedirection | cmpsh.c:236-249 | the in-place scan-and-shift leaves `Extract` of the old tokens in the array prefix, and the error branch is unreachable |
| Redirection.ShiftLeftTwo | cmpsh.c:241-242 | shifting left by two removes exactly the two tokens at `i` and keeps the others in order; the two array slots past the new end are left as they were |
| Redirection.ExtractRoundTrip | cmpsh.c:239-243 | putting `>` and the file back at the redirect's index restores the original tokens; the count drops by exactly two; without a redirect nothing changes |
| Redirection.NoRedirectOnlyLast | cmpsh.c:237-249 | when no redirect is taken, the only place a `>` can be is the last token |
| Redirection.ExtractCountsRedirects | cmpsh.c:237-249 | only the redirect (and a file name that is itself `>`) leaves; a `>` in the last position and any later `>` stay |
| Redirection.TrailingRedirectExample | cmpsh.c:237 | `ls >` keeps both tokens and sets no output file |
| Redirection.RedirectExample | cmpsh.c:236-249 | `cmd1 arg \| cmd2 > file.txt` leaves `cmd1 arg \| cmd2` and output file `file.txt` |
| Stages.FirstPipe | cmpsh.c:254-255 | the index of the first `\|` token, or the length when there is none |
| Stages.Split | cmpsh.c:251-266 | there are never more stages than tokens |
| Stages.SplitStages | cmpsh.c:251-266 | the loop carrying `cmd_start` computes `Split(tokens)` |
| Stages.SplitAt | cmpsh.c:255-264 | at a `\|` or at the end, the run since `cmd_start` becomes a stage unless it is empty, and splitting continues after it |
| Stages.SplitCons | cmpsh.c:255-264 | a non-empty stage without `\|` followed by a `\|` token splits off as the first stage, whatever follows |
| Stages.SplitAllStages | cmpsh.c:255-263 | every stage is non-empty and holds no `\|` token |
| Stages.SplitFlatten | cmpsh.c:254-266 | the stages, concatenated in order, are the tokens with every `\|` removed |
| Stages.SplitCountBound | cmpsh.c:254-266 | there are at most (number of `\|` tokens + 1) stages |
| Stages.SplitEmpty | cmpsh.c:268-273 | there are no stages exactly when every token is `\|` |
| Stages.SplitLeadingPipe | cmpsh.c:256 | a leading `\|` adds no stage |
| Stages.SplitTrailingPipe | cmpsh.c:256 | a trailing `\|` adds no stage |
| Stages.SplitDoublePipe | cmpsh.c:256 | two `\|` in a row split like one |
| Stages.SplitJoin | cmpsh.c:251-266 | joining well-formed stages with `\|` and splitting again gives them back |
| Stages.SplitExample | cmpsh.c:251-266 | `cmd1 arg \| cmd2` gives `[cmd1, arg]` and `[cmd2]` |
| Stages.SingleStageTokenCount | cmpsh.c:286 | with one stage, the token count is the stage's length plus the number of `\|` tokens |
| Stages.ValidatePipeline | cmpsh.c:275-282 | the line is refused exactly when it has more than one stage and some stage's first word is `cd`, `exit` or `paths` |
| Stages.PipelineRejectionExamples | cmpsh.c:278 | `ls \| path /usr/bin` is accepted, `ls \| cd /tmp` is refused, and a lone `cd /tmp` is accepted |
| Resolver.Candidate | cmpsh.c:74-75 | the candidate is the directory, a `/`, then the command, so a `/` is inserted even before an absolute name |
| Resolver.Resolve | cmpsh.c:71-80 | NULL exactly when no directory's candidate passes the check; otherwise the candidate of the first directory, in list order, that passes |
| Resolver.EmptyListNeverResolves | cmpsh.c:72 | with an empty search list nothing resolves |
| Resolver.ResolveIgnoresLater | cmpsh.c:73-76 | directories after the first match do not affect the result |
| Resolver.ResolveExample | cmpsh.c:71-80 | with list `/bin /usr/bin`, `ls` resolves to `/bin/ls` if that is executable, and otherwise to `/usr/bin/ls` if that one is |
| Cmpsh.Builtin | cmpsh.c:92-118 | not a builtin exactly when `args[0]` is none of `exit`, `cd`, `pwd`, `path`; `exit` exactly exits and `pwd` exactly prints. `path` with the right count sets the list to `args[1..]`, of length `arg_count - 1`; with a count above the stage length it is `Undefined`. `cd` with `arg_count != 2` reports an error without calling `chdir`. `cd` with count 2 and an argument reports what `chdir` reports; with count 2 and no argument (`cd \|`) it is `Undefined`. Only `path` changes the list |
| Cmpsh.EvalTokens | cmpsh.c:229-301 | no tokens means nothing is done; a directly forked command is never a builtin name; `run_pipeline` is used only for several stages or an output file; only a `path` that ran changes the search list |
| Cmpsh.Eval | cmpsh.c:229-301 | a line without tokens does nothing; only a `path` that ran changes the search list |
| Cmpsh.Shell.constructor | cmpsh.c:213-215 | the search list starts as `/bin` alone |
| Cmpsh.Shell.FindExecutable | cmpsh.c:71-80 | the loop with early return computes `Resolve` on the current search list |
| Cmpsh.Shell.RunBuiltin | cmpsh.c:92-118 | the result and the new search list are those of `Builtin` |
| Cmpsh.BuildPipeline | cmpsh.c:236-273 | the token array, after in-place extraction and stage splitting, gives `Extract` and `Split` of the tokens; every stage is well formed |
| Cmpsh.Shell.ProcessLine | cmpsh.c:229-307 | one pass of `main`'s loop body takes the action `Eval` gives and leaves the search list `Eval` gives |
| Cmpsh.DispatchRule | cmpsh.c:268-301 | every stage is well formed. A line is skipped exactly when it has no stage, and rejected exactly when it has stages that validation refuses. A builtin or the directly forked command runs exactly when the stages are accepted, there is one stage and no output file; of these, the command is forked exactly when the stage's first word is not a builtin name, and it is that stage; a builtin gets that stage and the token count. `run_pipeline` is used exactly when the stages are accepted and there are several or an output file, and it gets those stages and that file. Only `path` changes the search list |
| Cmpsh.BlankLineSkipped | cmpsh.c:229-234 | a line of blanks does nothing |
| Cmpsh.PathReplacesList | cmpsh.c:107-115 | `path d1 ... dn` on its own replaces the whole list by `d1 ... dn`, in order |
| Cmpsh.PathWithoutArgumentsDisablesResolution | cmpsh.c:107-115 | `path` alone empties the list, and after that no command resolves |
| Cmpsh.ForbiddenInPipelineRejected | cmpsh.c:275-282 | a multi-stage line with `cd`, `exit` or `paths` as some stage's first word is rejected, and the list is unchanged |
| Cmpsh.PipelineExample | cmpsh.c:236-300 | `cmd1 arg \| cmd2 > file.txt` runs stages `[cmd1, arg]` and `[cmd2]` with output file `file.txt` |
| Cmpsh.PathInPipelineRuns | cmpsh.c:278 | `ls \| path /x` is not rejected and goes to `run_pipeline` |
| Cmpsh.QuotedPipeRuns | cmpsh.c:255-300 | `echo '\|' x` runs `echo` and `x` as a two-stage pipeline with no output file |
| Cmpsh.StrayPipeBreaksCd | cmpsh.c:286 | `cd /tmp` changes directory, while `\| cd /tmp` reports an argument-count error |
| Cmpsh.StrayPipeBreaksPath | cmpsh.c:110-113 | `path /bin \|` hands the vector's NULL terminator to `strdup`: the outcome is `Undefined` |
| Cmpsh.StrayPipeLeavesCdWithoutArgument | cmpsh.c:96-100 | `cd \|` passes the argument check with no argument, so `chdir` would get NULL: the outcome is `Undefined` and the list is unchanged |
| Wiring.StdinOf | cmpsh.c:157 | stage `i` reads pipe `i - 1` exactly when `i > 0`, and otherwise inherits standard input |
| Wiring.StdoutOf | cmpsh.c:158-167 | stage `i` writes pipe `i` exactly when it is not the last stage; the last stage writes the output file exactly when there is one; no stage's output is a pipe's read end |
| Wiring.PipesJoinNeighbours | cmpsh.c:157-167 | pipe `k` is written only by stage `k` and read only by stage `k + 1`; only the last stage can write to the output file, and it does when there is one |

## Left out

- `run_command` and `run_pipeline` (cmpsh.c:120-195): `fork`, `pipe`, `dup2`, `open`, `execv`, `waitpid`, `setpgid` and closing descriptors are process plumbing. Only the wiring plan of cmpsh.c:157-167 is modelled (`Wiring`). The in-child special case for `pwd` (cmpsh.c:129-132) is not modelled.
- `handle_signal` and `pipeline_pgid` (cmpsh.c:18-22, 175-178, 194, 291-294): asynchronous signal delivery to process groups.
- `run_pwd`: printing the working directory and the `getcwd` failure are output. The model only records `PrintedCwd`.
- `chdir`: its effect on the working directory is not modelled; its success is an oracle parameter. `exit(0)` is the outcome `Exited`.
- `access(..., X_OK)`: an oracle parameter `isExecutable`; no filesystem is modelled.
- The `main` I/O loop (cmpsh.c:197-228): the `argc` check, `fopen`, the prompt, `fgets` and newline stripping. A line is given as a string.
- Embedded NUL characters: a line is modelled as the C string's contents, so it is taken to contain no `'\0'`.
- `malloc`, `strdup` and `free`, and the fixed `MAX_TOKENS`/`MAX_LINE` buffers, whose bounds the source never checks: sequences grow as needed.
- Cmpsh.Builtin: after `Undefined`, the model keeps the old search list. The source has already changed `path_count` and the list when it reads past the argument vector, and what happens then is undefined.
- Cmpsh.Builtin: for `cd |` (stage `cd`, token count 2) the source calls `chdir(NULL)` (cmpsh.c:100); the model returns `Undefined` and does not model what `chdir` does when given NULL.
