/**
 * The request line parser (QueryRequest): a line is trimmed, split on runs of
 * whitespace, the first token lower-cased into the query name, the rest kept as
 * arguments in order and in their original case.
 */
module Request {
  import opened Text

  /** A token: a non-empty string without whitespace. */
  predicate IsWord(w: string) {
    |w| > 0 && forall i :: 0 <= i < |w| ==> !IsSpace(w[i])
  }

  predicate AllSpace(s: string) {
    forall i :: 0 <= i < |s| ==> IsSpace(s[i])
  }

  /** Length of the longest whitespace-free prefix of s. */
  function WordLength(s: string): (n: nat)
    ensures n <= |s|
  {
    if s == [] || IsSpace(s[0]) then 0 else 1 + WordLength(s[1..])
  }

  /**
   * The maximal whitespace-free runs of s, left to right. Whitespace before the
   * first run and after the last one yields no token (the effect of trim()).
   */
  function Tokens(s: string): (ts: seq<string>)
    ensures |ts| <= |s|
    ensures forall i :: 0 <= i < |ts| ==> ts[i] != []
    decreases |s|
  {
    if s == [] then []
    else if IsSpace(s[0]) then Tokens(s[1..])
    else
      var n := WordLength(s);
      [s[..n]] + Tokens(s[n..])
  }

  /**
   * `line.trim().split("\\s+")`: the tokens of the line, except that a blank line
   * splits into the single empty string. The split never comes back empty.
   */
  function Split(line: string): (parts: seq<string>)
    ensures |parts| >= 1
  {
    var ts := Tokens(line);
    if ts == [] then [""] else ts
  }

  /** A parsed request line. */
  datatype QueryRequest = QueryRequest(queryName: string, args: seq<string>)

  /**
   * The requests the parser can produce: a lower-case token as name and tokens as
   * arguments, or the empty name with no arguments.
   */
  predicate WellFormed(r: QueryRequest) {
    && ToLower(r.queryName) == r.queryName
    && (r.queryName == "" ==> r.args == [])
    && (r.queryName != "" ==> IsWord(r.queryName))
    && forall i :: 0 <= i < |r.args| ==> IsWord(r.args[i])
  }

  /** The QueryRequest constructor: the first part lower-cased, the others copied in order. */
  function Parse(commandLine: string): (r: QueryRequest)
    ensures r.queryName == "" <==> Tokens(commandLine) == []
    ensures |r.args| == |Split(commandLine)| - 1
  {
    var split := Split(commandLine);
    QueryRequest(ToLower(split[0]), split[1..])
  }

  /**
   * getUniqueCommandLine / toString: the query name followed, for each argument in
   * order, by a space and the argument.
   */
  function CommandLine(r: QueryRequest): (line: string)
    ensures r.queryName <= line
    ensures r.args == [] <==> line == r.queryName
  {
    Join(r.queryName, r.args)
  }

  /** The concatenation loop: `line += " " + arg` for each argument, left to right. */
  function Join(head: string, args: seq<string>): (line: string)
    ensures head <= line
    ensures |line| >= |head| + |args|
    decreases |args|
  {
    if args == [] then head else Join(head, args[..|args| - 1]) + " " + args[|args| - 1]
  }

  // ---------------------------------------------------------------------------
  // Facts about Tokens
  // ---------------------------------------------------------------------------

  /** The length is that of the first word: no whitespace before it, whitespace (or the end) at it. */
  lemma {:induction false} WordLengthSpec(s: string)
    ensures forall i :: 0 <= i < WordLength(s) ==> !IsSpace(s[i])
    ensures WordLength(s) < |s| ==> IsSpace(s[WordLength(s)])
    decreases |s|
  {
    if s != [] && !IsSpace(s[0]) {
      WordLengthSpec(s[1..]);
      forall i | 0 < i < WordLength(s) ensures !IsSpace(s[i]) {
        assert s[i] == s[1..][i - 1];
      }
    }
  }

  /** Every token is a word. */
  lemma {:induction false} TokensAreWords(s: string)
    ensures forall i :: 0 <= i < |Tokens(s)| ==> IsWord(Tokens(s)[i])
    decreases |s|
  {
    if s != [] {
      if IsSpace(s[0]) {
        TokensAreWords(s[1..]);
      } else {
        var n := WordLength(s);
        WordLengthSpec(s);
        TokensAreWords(s[n..]);
        assert IsWord(s[..n]);
      }
    }
  }

  /** A line has no tokens exactly when it is blank. */
  lemma {:induction false} TokensBlank(s: string)
    ensures Tokens(s) == [] <==> AllSpace(s)
    decreases |s|
  {
    if s != [] {
      if IsSpace(s[0]) {
        TokensBlank(s[1..]);
        assert AllSpace(s) <==> AllSpace(s[1..]) by {
          if AllSpace(s[1..]) {
            forall i | 0 <= i < |s| ensures IsSpace(s[i]) {
              if i > 0 { assert s[i] == s[1..][i - 1]; }
            }
          }
        }
      } else {
        assert !AllSpace(s);
      }
    }
  }

  /** A single token splits into itself. */
  lemma WordTokens(w: string)
    requires IsWord(w)
    ensures Tokens(w) == [w]
  {
    var n := WordLength(w);
    WordLengthSpec(w);
    assert n == |w|;
    assert w[..n] == w;
    assert w[n..] == [];
  }

  /**
   * Tokens of a concatenation are the concatenation of the tokens, as long as the
   * seam does not fall inside a token.
   */
  lemma {:induction false} TokensAppend(a: string, b: string)
    requires a == [] || b == [] || IsSpace(a[|a| - 1]) || IsSpace(b[0])
    ensures Tokens(a + b) == Tokens(a) + Tokens(b)
    decreases |a|
  {
    if a == [] {
      assert a + b == b;
    } else if b == [] {
      assert a + b == a;
    } else if IsSpace(a[0]) {
      TokensAppend(a[1..], b);
      SpaceThen(a, b);
    } else if WordLength(a) == |a| {
      WordLengthSpec(a);
      WordThenSpace(a, b);
    } else {
      var n := WordLength(a);
      assert a[n..][|a[n..]| - 1] == a[|a| - 1];
      TokensAppend(a[n..], b);
      TokensAppendWord(a, b);
    }
  }

  /** Leading whitespace yields no token, also when something follows. */
  lemma SpaceThen(a: string, b: string)
    requires a != [] && IsSpace(a[0])
    requires Tokens(a[1..] + b) == Tokens(a[1..]) + Tokens(b)
    ensures Tokens(a + b) == Tokens(a) + Tokens(b)
  {
    assert (a + b)[1..] == a[1..] + b;
  }

  /** A word followed by whitespace: the word is the first token, the rest follow. */
  lemma WordThenSpace(a: string, b: string)
    requires a != [] && !IsSpace(a[0]) && WordLength(a) == |a|
    requires b != [] && IsSpace(b[0])
    ensures Tokens(a + b) == Tokens(a) + Tokens(b)
  {
    var n := |a|;
    assert WordLength(a + b) == n by { WordLengthPrefix(a, b); }
    assert (a + b)[..n] == a;
    assert (a + b)[n..] == b;
    assert a[..n] == a && a[n..] == [];
    assert Tokens(a) == [a] + Tokens([]);
  }

  /** When the first word of a ends inside a, it is also the first token of a + b. */
  lemma TokensAppendWord(a: string, b: string)
    requires a != [] && !IsSpace(a[0]) && WordLength(a) < |a|
    requires Tokens(a[WordLength(a)..] + b) == Tokens(a[WordLength(a)..]) + Tokens(b)
    ensures Tokens(a + b) == Tokens(a) + Tokens(b)
  {
    var n := WordLength(a);
    WordLengthPrefix(a, b);
    assert (a + b)[..n] == a[..n];
    assert (a + b)[n..] == a[n..] + b;
    assert Tokens(a + b) == [a[..n]] + Tokens(a[n..] + b);
    assert [a[..n]] + Tokens(a[n..]) + Tokens(b) == [a[..n]] + (Tokens(a[n..]) + Tokens(b));
  }

  /** The leading token of a + b is that of a, if it ends inside a or at a seam of whitespace. */
  lemma {:induction false} WordLengthPrefix(a: string, b: string)
    requires WordLength(a) < |a| || b == [] || IsSpace(b[0])
    ensures WordLength(a + b) == WordLength(a)
    decreases |a|
  {
    if a == [] {
      assert a + b == b;
    } else if !IsSpace(a[0]) {
      assert (a + b)[1..] == a[1..] + b;
      WordLengthPrefix(a[1..], b);
    }
  }

  // ---------------------------------------------------------------------------
  // Properties of the parser
  // ---------------------------------------------------------------------------

  /** Parse in terms of Tokens: a blank line gives the empty name and no arguments. */
  lemma ParseIsTokens(line: string)
    ensures var ts := Tokens(line);
      if ts == [] then Parse(line) == QueryRequest("", [])
      else Parse(line) == QueryRequest(ToLower(ts[0]), ts[1..])
  {
  }

  /** The text of a string without its whitespace, in order. */
  function NonSpace(s: string): (t: string)
    ensures |t| <= |s|
  {
    if s == [] then []
    else if IsSpace(s[0]) then NonSpace(s[1..])
    else [s[0]] + NonSpace(s[1..])
  }

  /** The tokens written one after the other, without separators. */
  function Flatten(ts: seq<string>): string {
    if ts == [] then [] else ts[0] + Flatten(ts[1..])
  }

  /** A whitespace-free prefix is kept whole by NonSpace. */
  lemma {:induction false} NonSpaceWord(s: string, n: nat)
    requires n <= |s|
    requires forall i :: 0 <= i < n ==> !IsSpace(s[i])
    ensures NonSpace(s) == s[..n] + NonSpace(s[n..])
    decreases n
  {
    if n > 0 {
      NonSpaceWord(s[1..], n - 1);
      assert s[1..][..n - 1] == s[1..n];
      assert s[1..][n - 1..] == s[n..];
      assert s[..n] == [s[0]] + s[1..n];
    }
  }

  /**
   * Splitting loses no character and reorders none: the tokens, written one after
   * the other, are the line with its whitespace removed.
   */
  lemma {:induction false} TokensKeepText(s: string)
    ensures Flatten(Tokens(s)) == NonSpace(s)
    decreases |s|
  {
    if s != [] {
      if IsSpace(s[0]) {
        TokensKeepText(s[1..]);
      } else {
        var n := WordLength(s);
        WordLengthSpec(s);
        TokensKeepText(s[n..]);
        NonSpaceWord(s, n);
        var ts := [s[..n]] + Tokens(s[n..]);
        assert ts[0] == s[..n] && ts[1..] == Tokens(s[n..]);
      }
    }
  }

  /**
   * What parsing keeps of a line: its non-whitespace characters start with the
   * query name (up to letter case) and go on with the arguments, in order.
   */
  lemma ParseKeepsText(line: string)
    ensures var r, text := Parse(line), NonSpace(line);
      && |r.queryName| <= |text|
      && ToLower(text[..|r.queryName|]) == r.queryName
      && text[|r.queryName|..] == Flatten(r.args)
  {
    TokensKeepText(line);
    var ts := Tokens(line);
    if ts != [] {
      var text := NonSpace(line);
      assert text == ts[0] + Flatten(ts[1..]);
      assert text[..|ts[0]|] == ts[0];
      assert text[|ts[0]|..] == Flatten(ts[1..]);
    }
  }

  /**
   * The split is the single empty string exactly for a blank line, and otherwise
   * consists of words.
   */
  lemma SplitSpec(line: string)
    ensures Split(line) == [""] <==> AllSpace(line)
    ensures Split(line) != [""] ==> forall i :: 0 <= i < |Split(line)| ==> IsWord(Split(line)[i])
  {
    TokensBlank(line);
    TokensAreWords(line);
    if Tokens(line) != [] {
      assert IsWord(Tokens(line)[0]);
    }
  }

  /** Lower-casing keeps a word a word. */
  lemma LowerWord(w: string)
    requires IsWord(w)
    ensures IsWord(ToLower(w))
  {
    ToLowerSpec(w);
  }

  /** Every parsed request is well formed. */
  lemma ParseWellFormed(line: string)
    ensures WellFormed(Parse(line))
  {
    SplitSpec(line);
    var split := Split(line);
    ToLowerIdempotent(split[0]);
    if split != [""] {
      LowerWord(split[0]);
    }
  }

  /** Exactly the blank lines parse to the empty query name, and those have no arguments. */
  lemma BlankLine(line: string)
    ensures Parse(line).queryName == "" <==> AllSpace(line)
    ensures AllSpace(line) ==> Parse(line).args == []
  {
    SplitSpec(line);
    if !AllSpace(line) {
      assert IsWord(Split(line)[0]);
    }
  }

  /** Joining a name and its arguments and splitting again gives them back. */
  lemma {:induction false} TokensJoin(head: string, args: seq<string>)
    requires IsWord(head)
    requires forall i :: 0 <= i < |args| ==> IsWord(args[i])
    ensures Tokens(Join(head, args)) == [head] + args
    decreases |args|
  {
    if args == [] {
      WordTokens(head);
    } else {
      var init, last := args[..|args| - 1], args[|args| - 1];
      TokensJoin(head, init);
      var prefix := Join(head, init);
      assert Join(head, args) == prefix + (" " + last);
      TokensAppend(prefix, " " + last);
      TokensAppend(" ", last);
      assert Tokens(" ") == [];
      WordTokens(last);
      assert [head] + init + [last] == [head] + args;
    }
  }

  /** Printing a request and parsing the printed line gives back the same request. */
  lemma RoundTrip(r: QueryRequest)
    requires WellFormed(r)
    ensures Parse(CommandLine(r)) == r
  {
    if r.queryName == "" {
      assert CommandLine(r) == "";
      TokensBlank("");
    } else {
      TokensJoin(r.queryName, r.args);
      TokensBlank(CommandLine(r));
      ToLowerIdempotent(r.queryName);
    }
  }

  /** The printed form of a parsed line is canonical: it parses to the same request. */
  lemma CanonicalLine(line: string)
    ensures Parse(CommandLine(Parse(line))) == Parse(line)
  {
    ParseWellFormed(line);
    RoundTrip(Parse(line));
  }
}
