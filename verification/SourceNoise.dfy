/** Where noise ends: code around comments and literals survives as it was, each blanked up to its own end. */
module SourceNoise {
  import opened SourceScanner

  /** The text with its noise blanked out. */
  function Clean(s: string): string {
    Blanked(s, 0, Code)
  }

  /** A piece of noise blanked out: spaces, and its newlines. */
  function Spaces(s: string): (t: string)
    ensures |t| == |s|
    ensures forall k :: 0 <= k < |s| ==> t[k] == if s[k] == '\n' then '\n' else ' '
  {
    seq(|s|, k requires 0 <= k < |s| => if s[k] == '\n' then '\n' else ' ')
  }

  lemma {:induction false} BlankedOfTheRest(s: string, t: string, i: nat, j: nat, mode: Mode)
    requires i <= |s| && j <= |t| && s[i..] == t[j..]
    ensures Blanked(s, i, mode) == Blanked(t, j, mode)
    decreases |s| - i
  {
    assert |s| - i == |t| - j;
    if i < |s| {
      assert s[i] == s[i..][0] == t[j..][0] == t[j];
      assert s[i + 1..] == s[i..][1..] == t[j..][1..] == t[j + 1..];
      if i + 1 < |s| {
        assert s[i + 1] == s[i..][1] == t[j..][1] == t[j + 1];
      }
      BlankedOfTheRest(s, t, i + 1, j + 1, Next(s, i, mode));
    }
  }

  /** Code that holds no quote, opens no comment and does not end on a slash. */
  predicate PlainCode(a: string) {
    && (forall k :: 0 <= k < |a| ==> a[k] != '"' && a[k] != '\'')
    && (forall k :: 0 < k < |a| && a[k - 1] == '/' ==> a[k] != '/' && a[k] != '*')
    && (a != "" ==> a[|a| - 1] != '/')
  }

  lemma PlainIsQuiet(a: string)
    requires PlainCode(a)
    ensures Quiet(a)
  {}

  /** Such code is kept, whatever comes after it. */
  lemma CodeSurvives(a: string, rest: string)
    requires PlainCode(a)
    ensures Clean(a + rest) == a + Clean(rest)
  {
    hide Quiet;
    PlainIsQuiet(a);
    QuietSurvives(a, rest);
  }

  lemma {:induction false} QuietSurvives(a: string, rest: string)
    requires Quiet(a) && (a != "" ==> a[|a| - 1] != '/')
    ensures Clean(a + rest) == a + Clean(rest)
  {
    var s := a + rest;
    if a == "" {
      assert s == rest;
    } else {
      var tail := a[1..];
      QuietTail(a);
      QuietSurvives(tail, rest);
      assert s[1..] == tail + rest == (tail + rest)[0..];
      StillCode(a, rest);
      CodeIsKept(s, 0);
      BlankedOfTheRest(s, tail + rest, 1, 0, Code);
      assert [s[0]] + (tail + Clean(rest)) == a + Clean(rest);
    }
  }

  lemma QuietTail(a: string)
    requires Quiet(a) && a != ""
    ensures Quiet(a[1..]) && (a[1..] != "" ==> a[1..][|a| - 2] == a[|a| - 1])
  {
    forall k | 0 <= k < |a[1..]|
      ensures !IsQuote(a[1..][k]) && !Starts(a[1..], k, '/', '/') && !Starts(a[1..], k, '/', '*')
    {
      assert a[1..][k] == a[k + 1];
      assert !IsQuote(a[k + 1]) && !Starts(a, k + 1, '/', '/') && !Starts(a, k + 1, '/', '*');
    }
  }

  lemma StillCode(a: string, rest: string)
    requires Quiet(a) && a != "" && a[|a| - 1] != '/'
    ensures !IsNoise(a + rest, 0, Code)
  {
    assert !IsQuote(a[0]) && !Starts(a, 0, '/', '/') && !Starts(a, 0, '/', '*');
  }

  // ---------- Line comments ----------

  lemma {:induction false} LineRuns(c: string, b: string)
    requires '\n' !in c && (b == "" || b[0] == '\n')
    ensures Blanked(c + b, 0, Line) == Spaces(c) + Clean(b)
  {
    var s := c + b;
    if c == "" {
      assert s == b;
      LineEnds(b);
    } else {
      assert s[1..] == c[1..] + b == (c[1..] + b)[0..];
      BlankedOfTheRest(s, c[1..] + b, 1, 0, Line);
      LineRuns(c[1..], b);
      assert [' '] + Spaces(c[1..]) == Spaces(c);
    }
  }

  lemma LineEnds(b: string)
    requires b == "" || b[0] == '\n'
    ensures Blanked(b, 0, Line) == Clean(b)
  {}

  /** A line comment runs up to its newline, which is kept, and what comes after it is read as before. */
  lemma LineCommentsEnd(a: string, c: string, b: string)
    requires PlainCode(a)
    requires '\n' !in c && (b == "" || b[0] == '\n')
    ensures Clean(a + ("//" + c + b)) == a + (Spaces("//" + c) + Clean(b))
  {
    var s := "//" + c + b;
    CodeSurvives(a, s);
    NoiseByte(s, 0, Code);
    assert s[1..] == (("/" + c) + b)[0..];
    BlankedOfTheRest(s, ("/" + c) + b, 1, 0, Line);
    LineRuns("/" + c, b);
    assert [' '] + Spaces("/" + c) == Spaces("//" + c);
  }

  // ---------- Block comments ----------

  /** `c` holds no closing mark, nor the first half of the one that follows it. */
  predicate ClosedOnlyAfter(c: string) {
    forall k :: 0 <= k < |c| && c[k] == '*' ==> (c + "*/")[k + 1] != '/'
  }

  lemma BlockByte(c: string, b: string)
    requires c != "" && !(c[0] == '*' && |c| > 1 && c[1] == '/') && (|c| == 1 ==> b == "" || b[0] != '/')
    requires Blanked(c[1..] + b, 0, Block) == Spaces(c[1..]) + Clean(b)
    ensures Blanked(c + b, 0, Block) == Spaces(c) + Clean(b)
  {
    hide Blanked;
    var s := c + b;
    NoiseByte(s, 0, Block);
    assert s[1..] == c[1..] + b == (c[1..] + b)[0..];
    BlankedOfTheRest(s, c[1..] + b, 1, 0, Block);
    assert [Blank(c[0])] + Spaces(c[1..]) == Spaces(c);
  }

  lemma {:induction false} BlockRuns(c: string, b: string)
    requires ClosedOnlyAfter(c)
    ensures Blanked(c + ("*/" + b), 0, Block) == Spaces(c + "*/") + Clean(b)
  {
    hide Blanked, Spaces, Clean;
    assert c + ("*/" + b) == (c + "*/") + b;
    if c == "" {
      BlockEnds(b);
      assert c + "*/" == "*/";
    } else {
      TailClosed(c);
      BlockRuns(c[1..], b);
      assert (c + "*/")[1..] == c[1..] + "*/";
      assert c[1..] + ("*/" + b) == (c[1..] + "*/") + b;
      assert (c + "*/")[0] == c[0];
      BlockByte(c + "*/", b);
    }
  }

  lemma TailClosed(c: string)
    requires ClosedOnlyAfter(c) && c != ""
    ensures ClosedOnlyAfter(c[1..])
  {
    forall k | 0 <= k < |c[1..]| && c[1..][k] == '*' ensures (c[1..] + "*/")[k + 1] != '/' {
      assert c[k + 1] == '*' && (c + "*/")[k + 2] != '/';
    }
  }

  lemma BlockEnds(b: string)
    ensures Blanked("*/" + b, 0, Block) == Spaces("*/") + Clean(b)
  {
    var s := "*/" + b;
    NoiseByte(s, 0, Block);
    NoiseByte(s, 1, Closing);
    assert s[2..] == b == b[0..];
    BlankedOfTheRest(s, b, 2, 0, Code);
    assert [' '] + [' '] == Spaces("*/");
  }

  lemma BlockOpens(rest: string)
    ensures Clean("/*" + rest) == "  " + Blanked(rest, 0, Block)
  {
    hide Blanked;
    var s := "/*" + rest;
    NoiseByte(s, 0, Code);
    NoiseByte(s, 1, Opening);
    assert s[2..] == rest == rest[0..];
    BlankedOfTheRest(s, rest, 2, 0, Block);
    assert [' '] + ([' '] + Blanked(rest, 0, Block)) == "  " + Blanked(rest, 0, Block);
  }

  /** A block comment runs through its first closing mark. */
  lemma BlockCommentsEnd(a: string, c: string, b: string)
    requires PlainCode(a) && ClosedOnlyAfter(c)
    ensures Clean(a + ("/*" + c + "*/" + b)) == a + (Spaces("/*" + c + "*/") + Clean(b))
  {
    hide Clean, Blanked, ClosedOnlyAfter, PlainCode;
    assert "/*" + c + "*/" + b == "/*" + (c + ("*/" + b));
    CodeSurvives(a, "/*" + (c + ("*/" + b)));
    BlockOpens(c + ("*/" + b));
    BlockRuns(c, b);
    assert "  " + Spaces(c + "*/") == Spaces("/*" + c + "*/");
    assert ("  " + Spaces(c + "*/")) + Clean(b) == "  " + (Spaces(c + "*/") + Clean(b));
  }

  // ---------- Literals ----------

  /** What stands in a literal: any byte but its quote and a backslash, or a backslash and any byte. */
  predicate Body(c: string, quote: char) {
    || c == ""
    || (c[0] != quote && c[0] != '\\' && Body(c[1..], quote))
    || (c[0] == '\\' && |c| >= 2 && Body(c[2..], quote))
  }

  /** One byte of a literal, and one byte after a backslash. */
  lemma LiteralByte(c: string, quote: char, b: string)
    requires IsQuote(quote) && c != "" && c[0] != quote && c[0] != '\\'
    requires Blanked(c[1..] + b, 0, Literal(quote)) == Spaces(c[1..]) + Clean(b)
    ensures Blanked(c + b, 0, Literal(quote)) == Spaces(c) + Clean(b)
  {
    hide Blanked;
    var s := c + b;
    NoiseByte(s, 0, Literal(quote));
    assert s[1..] == c[1..] + b == (c[1..] + b)[0..];
    BlankedOfTheRest(s, c[1..] + b, 1, 0, Literal(quote));
    assert [Blank(c[0])] + Spaces(c[1..]) == Spaces(c);
  }

  lemma EscapedByte(c: string, quote: char, b: string)
    requires IsQuote(quote) && |c| >= 2 && c[0] == '\\'
    requires Blanked(c[2..] + b, 0, Literal(quote)) == Spaces(c[2..]) + Clean(b)
    ensures Blanked(c + b, 0, Literal(quote)) == Spaces(c) + Clean(b)
  {
    hide Blanked;
    var s := c + b;
    NoiseByte(s, 0, Literal(quote));
    NoiseByte(s, 1, Escaped(quote));
    assert s[2..] == c[2..] + b == (c[2..] + b)[0..];
    BlankedOfTheRest(s, c[2..] + b, 2, 0, Literal(quote));
    assert [Blank(c[0])] + ([Blank(c[1])] + Spaces(c[2..])) == Spaces(c);
  }

  lemma QuoteCloses(quote: char, b: string)
    requires IsQuote(quote)
    ensures Blanked([quote] + b, 0, Literal(quote)) == Spaces([quote]) + Clean(b)
  {
    hide Blanked;
    var s := [quote] + b;
    NoiseByte(s, 0, Literal(quote));
    assert s[1..] == b == b[0..];
    BlankedOfTheRest(s, b, 1, 0, Code);
    assert [' '] == Spaces([quote]);
  }

  lemma {:induction false} LiteralRuns(c: string, quote: char, b: string)
    requires IsQuote(quote) && Body(c, quote)
    ensures Blanked(c + [quote] + b, 0, Literal(quote)) == Spaces(c + [quote]) + Clean(b)
  {
    hide Blanked, Spaces, Clean;
    if c == "" {
      QuoteCloses(quote, b);
      assert c + [quote] == [quote];
    } else if c[0] == '\\' && c[0] != quote && |c| >= 2 && Body(c[2..], quote) {
      LiteralRuns(c[2..], quote, b);
      assert (c + [quote])[2..] == c[2..] + [quote];
      EscapedByte(c + [quote], quote, b);
    } else {
      LiteralRuns(c[1..], quote, b);
      assert (c + [quote])[1..] == c[1..] + [quote];
      LiteralByte(c + [quote], quote, b);
    }
  }

  lemma LiteralOpens(quote: char, rest: string)
    requires quote == '"' || quote == '\''
    ensures Clean([quote] + rest) == [' '] + Blanked(rest, 0, Literal(quote))
  {
    hide Blanked;
    var s := [quote] + rest;
    NoiseByte(s, 0, Code);
    assert s[1..] == rest == rest[0..];
    BlankedOfTheRest(s, rest, 1, 0, Literal(quote));
  }

  /** A literal runs through its first quote that is not escaped. */
  lemma LiteralsEnd(a: string, quote: char, c: string, b: string)
    requires PlainCode(a) && (quote == '"' || quote == '\'') && Body(c, quote)
    ensures Clean(a + ([quote] + c + [quote] + b)) == a + (Spaces([quote] + c + [quote]) + Clean(b))
  {
    hide Clean, Blanked, Body, PlainCode;
    assert [quote] + c + [quote] + b == [quote] + (c + [quote] + b);
    CodeSurvives(a, [quote] + (c + [quote] + b));
    LiteralOpens(quote, c + [quote] + b);
    LiteralRuns(c, quote, b);
    assert [' '] + Spaces(c + [quote]) == Spaces([quote] + c + [quote]);
    assert ([' '] + Spaces(c + [quote])) + Clean(b) == [' '] + (Spaces(c + [quote]) + Clean(b));
  }

  // ---------- Noise that is never closed ----------

  lemma {:induction false} UnclosedBlock(c: string)
    requires forall k :: 0 < k < |c| && c[k - 1] == '*' ==> c[k] != '/'
    ensures Blanked(c, 0, Block) == Spaces(c)
  {
    if c != "" {
      assert c[1..] == c[1..][0..];
      NoiseByte(c, 0, Block);
      BlankedOfTheRest(c, c[1..], 1, 0, Block);
      forall k | 0 < k < |c[1..]| && c[1..][k - 1] == '*' ensures c[1..][k] != '/' {
        assert c[k] == '*';
      }
      UnclosedBlock(c[1..]);
      assert [Blank(c[0])] + Spaces(c[1..]) == Spaces(c);
    }
  }

  /** A block comment without a closing mark runs to the end. */
  lemma UnclosedCommentsRun(a: string, c: string)
    requires PlainCode(a) && forall k :: 0 < k < |c| && c[k - 1] == '*' ==> c[k] != '/'
    ensures Clean(a + ("/*" + c)) == a + Spaces("/*" + c)
  {
    hide Clean, Blanked, PlainCode;
    CodeSurvives(a, "/*" + c);
    BlockOpens(c);
    UnclosedBlock(c);
    assert "  " + Spaces(c) == Spaces("/*" + c);
  }

  /** No quote closes the literal: each is escaped, and a backslash may be the last byte. */
  predicate NoQuoteCloses(c: string, quote: char) {
    || c == ""
    || (c[0] != quote && c[0] != '\\' && NoQuoteCloses(c[1..], quote))
    || (c[0] == '\\' && (|c| == 1 || NoQuoteCloses(c[2..], quote)))
  }

  lemma {:induction false} UnclosedLiteral(c: string, quote: char)
    requires IsQuote(quote) && NoQuoteCloses(c, quote)
    ensures Blanked(c, 0, Literal(quote)) == Spaces(c)
  {
    hide Blanked;
    if c == "" {
      NothingLeft(c, Literal(quote));
    } else {
      NoiseByte(c, 0, Literal(quote));
      if c[0] != '\\' {
        assert c[1..] == c[1..][0..];
        BlankedOfTheRest(c, c[1..], 1, 0, Literal(quote));
        UnclosedLiteral(c[1..], quote);
        assert [Blank(c[0])] + Spaces(c[1..]) == Spaces(c);
      } else if |c| == 1 {
        NothingLeft(c, Escaped(quote));
        assert [Blank(c[0])] == Spaces(c);
      } else {
        NoiseByte(c, 1, Escaped(quote));
        assert c[2..] == c[2..][0..];
        BlankedOfTheRest(c, c[2..], 2, 0, Literal(quote));
        UnclosedLiteral(c[2..], quote);
        assert [Blank(c[0])] + ([Blank(c[1])] + Spaces(c[2..])) == Spaces(c);
      }
    }
  }

  /** A literal without a quote that closes it runs to the end. */
  lemma UnclosedLiteralsRun(a: string, quote: char, c: string)
    requires PlainCode(a) && (quote == '"' || quote == '\'') && NoQuoteCloses(c, quote)
    ensures Clean(a + ([quote] + c)) == a + Spaces([quote] + c)
  {
    hide Clean, Blanked, NoQuoteCloses, PlainCode;
    CodeSurvives(a, [quote] + c);
    LiteralOpens(quote, c);
    UnclosedLiteral(c, quote);
    assert [' '] + Spaces(c) == Spaces([quote] + c);
  }
}
