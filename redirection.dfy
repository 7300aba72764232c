/**
 * Output redirection extraction, done inline in cmpsh's `main`: the first
 * `>` token among all but the last token is removed together with the token
 * after it, which becomes the output file.
 */
module Redirection {
  import opened Wrappers
  import opened Seqs

  /** The token list after extraction, and the output file if one was found. */
  datatype Redirected = Redirected(tokens: seq<string>, outputFile: Option<string>)

  /** The index of the first `>` that has a token after it. The scan never
      looks at the last token. */
  function FirstRedirect(t: seq<string>): (r: Option<nat>)
    ensures r.Some? ==> r.value + 1 < |t| && t[r.value] == ">"
    ensures r.Some? ==> forall j :: 0 <= j < r.value ==> t[j] != ">"
    ensures r.None? ==> forall j :: 0 <= j < |t| - 1 ==> t[j] != ">"
  {
    if |t| < 2 then None
    else if t[0] == ">" then Some(0)
    else match FirstRedirect(t[1..])
      case None => None
      case Some(k) => Some(k + 1)
  }

  /** What extraction leaves: the two tokens at the redirect removed. */
  function Extract(t: seq<string>): (r: Redirected)
    ensures r.outputFile.None? <==> FirstRedirect(t).None?
    ensures r.outputFile.None? ==> r.tokens == t
    ensures r.outputFile.Some? ==>
      && |r.tokens| == |t| - 2
      && r.outputFile.value == t[FirstRedirect(t).value + 1]
      && r.tokens[..FirstRedirect(t).value] == t[..FirstRedirect(t).value]
  {
    match FirstRedirect(t)
    case None => Redirected(t, None)
    case Some(i) => Redirected(t[..i] + t[i + 2..], Some(t[i + 1]))
  }

  /** The extraction loop of `main` (cmpsh.c:236-249), shifting the tokens
      left in place; `count` is `token_count`. The source's error branch
      is unreachable: the loop stops at the first `>` it sees, and the loop
      bound leaves a token after it. */
  method ExtractRedirection(tokens: array<string>, count: nat) returns (newCount: nat, outputFile: Option<string>)
    requires count <= tokens.Length
    modifies tokens
    ensures newCount <= count
    ensures Extract(old(tokens[..count])) == Redirected(tokens[..newCount], outputFile)
    ensures tokens[newCount..] == old(tokens[newCount..])
  {
    ghost var t := tokens[..count];
    outputFile := None;
    newCount := count;
    var i := 0;
    while i + 1 < newCount
      invariant newCount == count && tokens[..count] == t
      invariant 0 <= i <= count
      invariant forall j :: 0 <= j < i ==> t[j] != ">"
    {
      if tokens[i] == ">" {
        if outputFile.None? && i + 1 < newCount {
          outputFile := Some(tokens[i + 1]);
          newCount := newCount - 2;
          assert tokens[..i] == t[..i] && tokens[i + 2..count] == t[i + 2..];
          ShiftLeftTwo(tokens, i, count);
          assert tokens[..newCount] == t[..i] + t[i + 2..];
          FirstRedirectAt(t, i);
          return;
        } else {
          assert false;
        }
      }
      i := i + 1;
    }
    FirstRedirectNone(t);
  }

  /** `for (j = i; j < token_count; j++) tokens[j] = tokens[j + 2]`, after the
      count has dropped by two. */
  method ShiftLeftTwo(tokens: array<string>, i: nat, count: nat)
    requires i + 2 <= count <= tokens.Length
    modifies tokens
    ensures tokens[..count - 2] == old(tokens[..i]) + old(tokens[i + 2..count])
    ensures tokens[count - 2..] == old(tokens[count - 2..])
  {
    var j := i;
    while j < count - 2
      invariant i <= j <= count - 2
      invariant forall k :: 0 <= k < i ==> tokens[k] == old(tokens[k])
      invariant forall k :: i <= k < j ==> tokens[k] == old(tokens[k + 2])
      invariant forall k :: j <= k < tokens.Length ==> tokens[k] == old(tokens[k])
    {
      tokens[j] := tokens[j + 2];
      j := j + 1;
    }
  }

  lemma FirstRedirectAt(t: seq<string>, i: nat)
    requires i + 1 < |t| && t[i] == ">"
    requires forall j :: 0 <= j < i ==> t[j] != ">"
    ensures FirstRedirect(t) == Some(i)
  {
    match FirstRedirect(t)
    case None =>
    case Some(k) =>
  }

  lemma FirstRedirectNone(t: seq<string>)
    requires forall j :: 0 <= j < |t| - 1 ==> t[j] != ">"
    ensures FirstRedirect(t) == None
  {
  }

  // ----- properties -----

  /** Extraction can be undone: putting `>` and the file back where the
      redirect was gives the original tokens; without a redirect nothing
      changed. The count drops by exactly two when a redirect is found. */
  lemma ExtractRoundTrip(t: seq<string>)
    ensures var r := Extract(t);
      match r.outputFile
      case None => r.tokens == t
      case Some(f) =>
        var i := FirstRedirect(t).value;
        |r.tokens| == |t| - 2 && t == r.tokens[..i] + [">", f] + r.tokens[i..]
  {
    match FirstRedirect(t)
    case None =>
    case Some(i) =>
      var r := Extract(t);
      assert r.tokens[..i] == t[..i];
      assert r.tokens[i..] == t[i + 2..];
      assert t == t[..i] + [t[i], t[i + 1]] + t[i + 2..];
  }

  /** Without a redirect found, a `>` can only be the last token. */
  lemma NoRedirectOnlyLast(t: seq<string>)
    requires Extract(t).outputFile.None?
    ensures Extract(t).tokens == t
    ensures forall j :: 0 <= j < |t| && t[j] == ">" ==> j == |t| - 1
  {
  }

  /** Only the redirect itself (and a file name that happens to be `>`) is
      consumed: every other `>`, a last-position one or a second one, stays
      in the token list. */
  lemma {:induction false} ExtractCountsRedirects(t: seq<string>)
    ensures var r := Extract(t);
      Count(r.tokens, ">") == Count(t, ">") - match r.outputFile
        case None => 0
        case Some(f) => if f == ">" then 2 else 1
  {
    match FirstRedirect(t)
    case None =>
    case Some(i) =>
      assert t == t[..i] + [t[i], t[i + 1]] + t[i + 2..];
      CountAppend(t[..i] + [t[i], t[i + 1]], t[i + 2..], ">");
      CountAppend(t[..i], [t[i], t[i + 1]], ">");
      CountAppend(t[..i], t[i + 2..], ">");
      assert [t[i], t[i + 1]][1..] == [t[i + 1]];
      assert Count([t[i + 1]], ">") <= 1;
      if t[i + 1] == ">" {
        assert Count([t[i], t[i + 1]], ">") == 2;
      } else {
        assert Count([t[i], t[i + 1]], ">") == 1;
      }
  }

  /** `ls >`: a `>` in the last position is not a redirect; it stays, and
      becomes an argument of the command. */
  lemma TrailingRedirectExample()
    ensures Extract(["ls", ">"]) == Redirected(["ls", ">"], None)
  {
  }

  /** `cmd1 arg | cmd2 > file.txt` yields `file.txt` as the output file. */
  lemma RedirectExample()
    ensures Extract(["cmd1", "arg", "|", "cmd2", ">", "file.txt"])
      == Redirected(["cmd1", "arg", "|", "cmd2"], Some("file.txt"))
  {
    var t := ["cmd1", "arg", "|", "cmd2", ">", "file.txt"];
    FirstRedirectAt(t, 4);
    assert t[..4] + t[6..] == ["cmd1", "arg", "|", "cmd2"];
  }
}
