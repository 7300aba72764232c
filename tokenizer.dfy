/**
 * The tokenizer of cmpsh (`tokenize_input`): a character-by-character state
 * machine with two modes, outside quotes and inside a quote of one kind.
 * The specification is a left fold of `Step` over the line; the method
 * `TokenizeInput` is the source's loop, proved equal to it.
 */
module Tokenizer {
  import opened Seqs

  /** What the loop of `tokenize_input` carries from one character to the next:
      the tokens emitted so far, the word being built (`current_token`), and the
      quote mode (`in_quotes`, `quote_type`). */
  datatype TokState = TokState(tokens: seq<string>, current: string, inQuotes: bool, quoteType: char)

  const Init := TokState([], [], false, '\0')

  predicate IsQuote(c: char) { c == '"' || c == '\'' }
  predicate IsBlank(c: char) { c == ' ' || c == '\t' }
  predicate IsOperator(c: char) { c == '|' || c == '>' }

  /** A character that, outside quotes, is simply appended to the word. */
  predicate IsWordChar(c: char) { !IsQuote(c) && !IsBlank(c) && !IsOperator(c) }

  /** Emit the word being built, if there is one. */
  function Flush(st: TokState): TokState
  {
    if |st.current| > 0 then st.(tokens := st.tokens + [st.current], current := []) else st
  }

  /** One iteration of the loop, on character `c`. */
  function Step(st: TokState, c: char): (r: TokState)
    ensures st.tokens <= r.tokens && |r.tokens| <= |st.tokens| + 2
    ensures r.tokens != st.tokens ==> !st.inQuotes && (IsBlank(c) || IsOperator(c))
    ensures r.inQuotes <==> (if st.inQuotes then c != st.quoteType else IsQuote(c))
    ensures |r.tokens| + |r.current| <= |st.tokens| + |st.current| + 1
  {
    if st.inQuotes then
      if c == st.quoteType then st.(inQuotes := false, quoteType := '\0')
      else st.(current := st.current + [c])
    else if IsQuote(c) then st.(inQuotes := true, quoteType := c)
    else if IsBlank(c) then Flush(st)
    else if IsOperator(c) then
      var f := Flush(st);
      f.(tokens := f.tokens + [[c]])
    else st.(current := st.current + [c])
  }

  /** The loop run over all of `s`, starting in state `st`. */
  function RunFrom(st: TokState, s: string): TokState
    decreases s
  {
    if s == [] then st else RunFrom(Step(st, s[0]), s[1..])
  }

  /** The tokens of `line`: the loop, then the final flush. */
  function Tokenize(line: string): (r: seq<string>)
    ensures NoEmptyToken(r)
    ensures |r| <= |line|
  {
    RunKeepsTokensNonEmpty(Init, line);
    RunCountBound(Init, line);
    Flush(RunFrom(Init, line)).tokens
  }

  /** The line with every space and tab deleted. */
  function RemoveBlanks(s: string): string
  {
    if s == [] then [] else (if IsBlank(s[0]) then [] else [s[0]]) + RemoveBlanks(s[1..])
  }

  predicate QuoteFree(s: string) { forall i :: 0 <= i < |s| ==> !IsQuote(s[i]) }
  predicate AllBlank(s: string) { forall i :: 0 <= i < |s| ==> IsBlank(s[i]) }
  predicate PlainWord(w: string) { forall i :: 0 <= i < |w| ==> IsWordChar(w[i]) }

  /** Every token is non-empty. */
  predicate NoEmptyToken(ts: seq<string>) { forall i :: 0 <= i < |ts| ==> ts[i] != [] }

  /** A token a quote-free line can produce: one operator character, or a
      non-empty word made of word characters only. */
  predicate PlainToken(t: string)
  {
    (|t| == 1 && IsOperator(t[0])) || (t != [] && PlainWord(t))
  }

  // ----- the method -----

  /** `tokenize_input` (cmpsh.c:24-69): the source's loop over the line. */
  method TokenizeInput(line: string) returns (tokens: seq<string>)
    ensures tokens == Tokenize(line)
    ensures NoEmptyToken(tokens) && |tokens| <= |line|
  {
    tokens := [];
    var current: string := [];
    var inQuotes := false;
    var quoteType := '\0';
    var i := 0;
    while i < |line|
      invariant 0 <= i <= |line|
      invariant TokState(tokens, current, inQuotes, quoteType) == RunFrom(Init, line[..i])
    {
      ghost var before := TokState(tokens, current, inQuotes, quoteType);
      var c := line[i];
      if inQuotes {
        if c == quoteType {
          inQuotes := false;
          quoteType := '\0';
        } else {
          current := current + [c];
        }
      } else {
        if c == '"' || c == '\'' {
          inQuotes := true;
          quoteType := c;
        } else if c == ' ' || c == '\t' {
          if |current| > 0 {
            tokens := tokens + [current];
            current := [];
          }
        } else if c == '|' || c == '>' {
          if |current| > 0 {
            tokens := tokens + [current];
            current := [];
          }
          tokens := tokens + [[c]];
        } else {
          current := current + [c];
        }
      }
      assert line[..i + 1] == line[..i] + [c];
      RunFromSnoc(Init, line[..i], c);
      assert TokState(tokens, current, inQuotes, quoteType) == Step(before, c);
      i := i + 1;
    }
    if |current| > 0 {
      tokens := tokens + [current];
    }
    assert line[..i] == line;
  }

  // ----- how the fold composes -----

  lemma {:induction false} RunFromAppend(st: TokState, a: string, b: string)
    ensures RunFrom(st, a + b) == RunFrom(RunFrom(st, a), b)
    decreases a
  {
    if a == [] {
      assert a + b == b;
    } else {
      assert (a + b)[0] == a[0];
      assert (a + b)[1..] == a[1..] + b;
      RunFromAppend(Step(st, a[0]), a[1..], b);
    }
  }

  lemma RunFromSnoc(st: TokState, s: string, c: char)
    ensures RunFrom(st, s + [c]) == Step(RunFrom(st, s), c)
  {
    RunFromAppend(st, s, [c]);
  }

  // ----- properties of the tokenizer -----

  /** The tokenizer never emits an empty token. */
  lemma {:induction false} RunKeepsTokensNonEmpty(st: TokState, s: string)
    requires NoEmptyToken(st.tokens)
    ensures NoEmptyToken(RunFrom(st, s).tokens)
    decreases s
  {
    if s != [] {
      RunKeepsTokensNonEmpty(Step(st, s[0]), s[1..]);
    }
  }

  /** Each character adds at most one to tokens-plus-word-length. */
  lemma {:induction false} RunCountBound(st: TokState, s: string)
    ensures |RunFrom(st, s).tokens| + |RunFrom(st, s).current| <= |st.tokens| + |st.current| + |s|
    decreases s
  {
    if s != [] {
      RunCountBound(Step(st, s[0]), s[1..]);
    }
  }

  /** Outside quotes, a run of word characters is appended to the word being built. */
  lemma {:induction false} WordAccumulates(st: TokState, w: string)
    requires !st.inQuotes && PlainWord(w)
    ensures RunFrom(st, w) == st.(current := st.current + w)
    decreases w
  {
    if w != [] {
      assert st.current + w == (st.current + [w[0]]) + w[1..];
      WordAccumulates(Step(st, w[0]), w[1..]);
    }
  }

  /** Outside quotes, a word followed directly by `|` or `>` gives the word
      (completed from what was being built) and then the operator as a token
      of its own, and leaves no word in progress. */
  lemma WordThenOperator(st: TokState, w: string, op: char)
    requires !st.inQuotes && PlainWord(w) && IsOperator(op)
    ensures RunFrom(st, w + [op]) == st.(
      tokens := st.tokens + (if st.current + w == [] then [] else [st.current + w]) + [[op]],
      current := [])
  {
    RunFromAppend(st, w, [op]);
    WordAccumulates(st, w);
  }

  /** Outside quotes, a space or tab ends the word being built (if any) and
      adds no token of its own. */
  lemma WordThenBlank(st: TokState, w: string, b: char)
    requires !st.inQuotes && PlainWord(w) && IsBlank(b)
    ensures RunFrom(st, w + [b]) == st.(
      tokens := st.tokens + (if st.current + w == [] then [] else [st.current + w]),
      current := [])
  {
    RunFromAppend(st, w, [b]);
    WordAccumulates(st, w);
  }

  /** Inside a quote of kind `q`, every character other than `q` is kept. */
  lemma {:induction false} InQuotesAccumulates(st: TokState, body: string)
    requires st.inQuotes && st.quoteType !in body
    ensures RunFrom(st, body) == st.(current := st.current + body)
    decreases body
  {
    if body != [] {
      assert st.current + body == (st.current + [body[0]]) + body[1..];
      InQuotesAccumulates(Step(st, body[0]), body[1..]);
    }
  }

  /** A quoted region: the characters between an opening quote and the next
      quote of the same kind are copied verbatim (blanks, operators and the
      other quote included), the quotes are dropped, and the closing quote
      does not end the word. */
  lemma QuotedRegion(st: TokState, q: char, body: string)
    requires !st.inQuotes && st.quoteType == '\0' && IsQuote(q) && q !in body
    ensures RunFrom(st, [q] + body + [q]) == st.(current := st.current + body)
  {
    var quoting := st.(inQuotes := true, quoteType := q);
    var s := [q] + body + [q];
    assert s[0] == q && s[1..] == body + [q];
    assert Step(st, q) == quoting;
    assert RunFrom(st, s) == RunFrom(quoting, body + [q]);
    RunFromAppend(quoting, body, [q]);
    InQuotesAccumulates(quoting, body);
    var inside := quoting.(current := st.current + body);
    assert [q][0] == q && [q][1..] == [];
    assert RunFrom(inside, [q]) == Step(inside, q);
  }

  /** An unterminated quote consumes the rest of the line: what follows it
      ends up, verbatim, in the last token. */
  lemma UnterminatedQuote(st: TokState, q: char, body: string)
    requires !st.inQuotes && IsQuote(q) && q !in body
    ensures Flush(RunFrom(st, [q] + body)).tokens
      == st.tokens + (if st.current + body == [] then [] else [st.current + body])
  {
    var quoting := st.(inQuotes := true, quoteType := q);
    assert ([q] + body)[0] == q && ([q] + body)[1..] == body;
    assert Step(st, q) == quoting;
    InQuotesAccumulates(quoting, body);
    assert RunFrom(st, [q] + body) == quoting.(current := st.current + body);
  }

  /** Without quotes: the state never enters a quote, and the emitted tokens
      followed by the word in progress are the consumed text minus blanks. */
  lemma {:induction false} QuoteFreeRun(st: TokState, s: string)
    requires !st.inQuotes && QuoteFree(s)
    ensures !RunFrom(st, s).inQuotes
    ensures Flatten(RunFrom(st, s).tokens) + RunFrom(st, s).current
         == Flatten(st.tokens) + st.current + RemoveBlanks(s)
    decreases s
  {
    if s != [] {
      var c, rest := s[0], s[1..];
      var next := Step(st, c);
      assert QuoteFree(rest);
      QuoteFreeStep(st, c);
      QuoteFreeRun(next, rest);
      var before := Flatten(st.tokens) + st.current;
      var added: string := if IsBlank(c) then [] else [c];
      var r := RunFrom(next, rest);
      assert RunFrom(st, s) == r;
      assert RemoveBlanks(s) == added + RemoveBlanks(rest);
      assert Flatten(r.tokens) + r.current == before + added + RemoveBlanks(rest);
    }
  }

  /** One quote-free step: a blank adds nothing to the text, any other
      character is added at the end. */
  lemma QuoteFreeStep(st: TokState, c: char)
    requires !st.inQuotes && !IsQuote(c)
    ensures !Step(st, c).inQuotes
    ensures Flatten(Step(st, c).tokens) + Step(st, c).current
         == Flatten(st.tokens) + st.current + (if IsBlank(c) then [] else [c])
  {
    var next := Step(st, c);
    FlattenAppend(st.tokens, [st.current]);
    if IsBlank(c) {
      assert Flatten(next.tokens) + next.current == Flatten(st.tokens) + st.current;
    } else if IsOperator(c) {
      var f := Flush(st);
      assert Flatten(f.tokens) + f.current == Flatten(st.tokens) + st.current;
      FlattenAppend(f.tokens, [[c]]);
      assert Flatten(next.tokens) + next.current == Flatten(st.tokens) + st.current + [c];
    } else {
      assert Flatten(next.tokens) + next.current == Flatten(st.tokens) + st.current + [c];
    }
  }

  /** For a line without quote characters, joining the tokens gives back the
      line with its spaces and tabs deleted. */
  lemma QuoteFreeConcat(line: string)
    requires QuoteFree(line)
    ensures Flatten(Tokenize(line)) == RemoveBlanks(line)
  {
    QuoteFreeRun(Init, line);
    var r := RunFrom(Init, line);
    assert Flatten(Init.tokens) + Init.current == [];
    assert Flatten(r.tokens) + r.current == RemoveBlanks(line);
    FlattenAppend(r.tokens, [r.current]);
    assert Flatten([r.current]) == r.current + Flatten([r.current][1..]);
    assert [r.current][1..] == [];
  }

  /** Without quotes, every token is a lone operator or a plain word. */
  lemma {:induction false} QuoteFreeShapeRun(st: TokState, s: string)
    requires !st.inQuotes && QuoteFree(s) && PlainWord(st.current)
    requires forall i :: 0 <= i < |st.tokens| ==> PlainToken(st.tokens[i])
    ensures PlainWord(RunFrom(st, s).current)
    ensures forall i :: 0 <= i < |RunFrom(st, s).tokens| ==> PlainToken(RunFrom(st, s).tokens[i])
    decreases s
  {
    if s != [] {
      assert QuoteFree(s[1..]);
      QuoteFreeShapeRun(Step(st, s[0]), s[1..]);
    }
  }

  lemma QuoteFreeShape(line: string)
    requires QuoteFree(line)
    ensures forall i :: 0 <= i < |Tokenize(line)| ==> PlainToken(Tokenize(line)[i])
  {
    QuoteFreeShapeRun(Init, line);
  }

  /** A line of only spaces and tabs gives no token, so the shell skips it. */
  lemma {:induction false} BlankRun(s: string)
    requires AllBlank(s)
    ensures RunFrom(Init, s) == Init
  {
    if s != [] {
      assert Step(Init, s[0]) == Init;
      assert AllBlank(s[1..]);
      BlankRun(s[1..]);
    }
  }

  lemma BlankLine(line: string)
    requires AllBlank(line)
    ensures Tokenize(line) == []
  {
    BlankRun(line);
  }

  // ----- worked examples -----

  lemma RunFromCons(st: TokState, c: char, s: string)
    ensures RunFrom(st, [c] + s) == RunFrom(Step(st, c), s)
  {
    assert ([c] + s)[0] == c && ([c] + s)[1..] == s;
  }

  /** `ls|wc>f` gives `ls`, `|`, `wc`, `>`, `f`: each operator is a token of
      its own and ends the word before it. */
  lemma OperatorExample()
    ensures Tokenize("ls|wc>f") == ["ls", "|", "wc", ">", "f"]
  {
    var last := Init.(tokens := ["ls", "|", "wc", ">"], current := "f");
    OperatorExampleRun(last);
    assert Flush(last).tokens == last.tokens + ["f"];
  }

  lemma OperatorExampleRun(last: TokState)
    requires last == Init.(tokens := ["ls", "|", "wc", ">"], current := "f")
    ensures RunFrom(Init, "ls|wc>f") == last
  {
    var s1 := Init.(tokens := ["ls", "|", "wc", ">"]);
    OperatorExampleHead(s1);
    assert PlainWord("f");
    WordAccumulates(s1, "f");
    assert "ls|wc>f" == "ls|wc>" + "f";
    RunFromAppend(Init, "ls|wc>", "f");
  }

  lemma OperatorExampleHead(s1: TokState)
    requires s1 == Init.(tokens := ["ls", "|", "wc", ">"])
    ensures RunFrom(Init, "ls|wc>") == s1
  {
    var s0 := Init.(tokens := ["ls", "|"]);
    OperatorExampleLs(s0);
    OperatorExampleWc(s0, s1);
    assert "ls|wc>" == "ls|" + "wc>";
    RunFromAppend(Init, "ls|", "wc>");
  }

  lemma OperatorExampleLs(s0: TokState)
    requires s0 == Init.(tokens := ["ls", "|"])
    ensures RunFrom(Init, "ls|") == s0
  {
    assert PlainWord("ls") && "ls|" == "ls" + ['|'];
    WordThenOperator(Init, "ls", '|');
    assert Init.current + "ls" == "ls";
    assert Init.tokens + ["ls"] + [['|']] == ["ls", "|"];
  }

  lemma OperatorExampleWc(s0: TokState, s1: TokState)
    requires s0 == Init.(tokens := ["ls", "|"])
    requires s1 == Init.(tokens := ["ls", "|", "wc", ">"])
    ensures RunFrom(s0, "wc>") == s1
  {
    assert PlainWord("wc") && "wc>" == "wc" + ['>'];
    WordThenOperator(s0, "wc", '>');
    assert s0.current + "wc" == "wc";
    assert s0.tokens + ["wc"] + [['>']] == ["ls", "|", "wc", ">"];
  }

  /** `"a b" c` gives `a b` and `c`. */
  lemma QuoteExample()
    ensures Tokenize("\"a b\" c") == ["a b", "c"]
  {
    var last := Init.(tokens := ["a b"], current := "c");
    QuoteExampleRun(last);
    assert Flush(last).tokens == ["a b", "c"];
  }

  lemma QuoteExampleRun(last: TokState)
    requires last == Init.(tokens := ["a b"], current := "c")
    ensures RunFrom(Init, "\"a b\" c") == last
  {
    var region := ['"'] + "a b" + ['"'];
    var m := Init.(current := "a b");
    QuotedRegion(Init, '"', "a b");
    assert RunFrom(Init, region) == m;
    QuoteExampleTail(m, last);
    assert "\"a b\" c" == region + " c";
    RunFromAppend(Init, region, " c");
  }

  lemma QuoteExampleTail(m: TokState, last: TokState)
    requires m == Init.(current := "a b")
    requires last == Init.(tokens := ["a b"], current := "c")
    ensures RunFrom(m, " c") == last
  {
    assert " c" == [' '] + "c";
    RunFromCons(m, ' ', "c");
    var n := Step(m, ' ');
    assert n == Init.(tokens := ["a b"]);
    assert PlainWord("c");
    WordAccumulates(n, "c");
    assert n.current + "c" == "c";
  }

  /** `"a b"c` gives the single token `a bc`: the closing quote does not end it. */
  lemma QuoteJoinsExample()
    ensures Tokenize("\"a b\"c") == ["a bc"]
  {
    var region := ['"'] + "a b" + ['"'];
    assert "\"a b\"c" == region + "c";
    RunFromAppend(Init, region, "c");
    QuotedRegion(Init, '"', "a b");
    assert RunFrom(Init, region) == Init.(current := "a b");
    assert PlainWord("c");
    WordAccumulates(Init.(current := "a b"), "c");
    assert "a b" + "c" == "a bc";
    assert RunFrom(Init, "\"a b\"c") == Init.(current := "a bc");
  }

  /** `echo '|' x` gives `echo`, `|`, `x`: a quoted operator loses its quotes
      and becomes a token indistinguishable from the operator itself. */
  lemma QuotedOperatorExample()
    ensures Tokenize("echo '|' x") == ["echo", "|", "x"]
  {
    var st1 := Init.(tokens := ["echo"]);
    QuotedOperatorExampleHead();
    var region := ['\''] + "|" + ['\''];
    assert "echo '|' x" == "echo " + (region + (" " + "x"));
    RunFromAppend(Init, "echo ", region + (" " + "x"));
    RunFromAppend(st1, region, " " + "x");
    QuotedRegion(st1, '\'', "|");
    var st2 := st1.(current := "|");
    assert RunFrom(st1, region) == st2;
    QuotedOperatorExampleTail(st2);
  }

  lemma QuotedOperatorExampleHead()
    ensures RunFrom(Init, "echo ") == Init.(tokens := ["echo"])
  {
    assert PlainWord("echo");
    assert "echo " == "echo" + [' '];
    WordThenBlank(Init, "echo", ' ');
    assert Init.current + "echo" == "echo" != [];
    assert Init.tokens + ["echo"] == ["echo"];
  }

  lemma QuotedOperatorExampleTail(st: TokState)
    requires st == TokState(["echo"], "|", false, '\0')
    ensures Flush(RunFrom(st, " " + "x")).tokens == ["echo", "|", "x"]
  {
    assert PlainWord([]) && PlainWord("x");
    assert " " == [] + [' '];
    RunFromAppend(st, " ", "x");
    WordThenBlank(st, [], ' ');
    assert st.current + [] == "|" != [];
    var st3 := st.(tokens := ["echo", "|"], current := []);
    assert RunFrom(st, " ") == st3;
    WordAccumulates(st3, "x");
    assert st3.current + "x" == "x";
    assert Flush(st3.(current := "x")).tokens == ["echo", "|", "x"];
  }
}
