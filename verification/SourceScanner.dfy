/** Reading the constants of an enum out of source text (gen-skin-property.rs): blanking comments and
    literals, and matching brackets. Bytes are characters here. */
module SourceScanner {
  // ---------- What is noise, byte by byte ----------

  /** What the byte at hand is part of. `Opening` and `Closing` are the second bytes of the marks around a
      block comment, `Escaped` the byte after a backslash in a literal. */
  datatype Mode = Code | Line | Opening | Block | Closing | Literal(quote: char) | Escaped(quote: char)

  predicate IsQuote(c: char) {
    c == '"' || c == '\''
  }

  predicate Starts(s: string, i: nat, first: char, second: char) {
    i + 1 < |s| && s[i] == first && s[i + 1] == second
  }

  predicate IsNoise(s: string, i: nat, mode: Mode)
    requires i < |s|
  {
    match mode
    case Code => Starts(s, i, '/', '/') || Starts(s, i, '/', '*') || IsQuote(s[i])
    case Line => s[i] != '\n'
    case _ => true
  }

  function Next(s: string, i: nat, mode: Mode): Mode
    requires i < |s|
  {
    match mode
    case Code =>
      if Starts(s, i, '/', '/') then Line
      else if Starts(s, i, '/', '*') then Opening
      else if IsQuote(s[i]) then Literal(s[i])
      else Code
    case Line => if s[i] == '\n' then Code else Line
    case Opening => Block
    case Block => if Starts(s, i, '*', '/') then Closing else Block
    case Closing => Code
    case Literal(quote) => if s[i] == quote then Code else if s[i] == '\\' then Escaped(quote) else Literal(quote)
    case Escaped(quote) => Literal(quote)
  }

  function Blank(c: char): char {
    if c == '\n' then '\n' else ' '
  }

  /** The text from `i` on with noise blanked out, when the byte at `i` is read in `mode`. */
  function Blanked(s: string, i: nat, mode: Mode): string
    requires i <= |s|
    decreases |s| - i
  {
    if i == |s| then ""
    else [if IsNoise(s, i, mode) then Blank(s[i]) else s[i]] + Blanked(s, i + 1, Next(s, i, mode))
  }

  /** Bytes keep their places and newlines are kept; nothing else appears than what was there or a space. */
  lemma {:induction false} BlankingKeepsPlaces(s: string, i: nat, mode: Mode, k: nat)
    requires i <= |s|
    ensures |Blanked(s, i, mode)| == |s| - i
    ensures k < |s| - i ==> (Blanked(s, i, mode)[k] == '\n' <==> s[i + k] == '\n')
    ensures k < |s| - i ==> Blanked(s, i, mode)[k] == s[i + k] || Blanked(s, i, mode)[k] == ' '
    decreases |s| - i
  {
    if i < |s| {
      BlankingKeepsPlaces(s, i + 1, Next(s, i, mode), if k == 0 then 0 else k - 1);
    }
  }

  /** No comment and no literal opens in `s`. */
  predicate Quiet(s: string) {
    forall k :: 0 <= k < |s| ==> !IsQuote(s[k]) && !Starts(s, k, '/', '/') && !Starts(s, k, '/', '*')
  }

  lemma {:induction false} BlankedIsQuietAt(s: string, i: nat, mode: Mode, k: nat)
    requires i <= |s| && k < |Blanked(s, i, mode)|
    ensures var t := Blanked(s, i, mode);
            !IsQuote(t[k]) && !Starts(t, k, '/', '/') && !Starts(t, k, '/', '*')
    decreases |s| - i
  {
    var rest := Blanked(s, i + 1, Next(s, i, mode));
    if k > 0 {
      BlankedIsQuietAt(s, i + 1, Next(s, i, mode), k - 1);
    } else if i + 1 < |s| {
      BlankingKeepsPlaces(s, i + 1, Next(s, i, mode), 0);
    }
  }

  lemma BlankedIsQuiet(s: string)
    ensures Quiet(Blanked(s, 0, Code))
  {
    hide Blanked, IsQuote, Starts;
    var t := Blanked(s, 0, Code);
    forall k | 0 <= k < |t| ensures !IsQuote(t[k]) && !Starts(t, k, '/', '/') && !Starts(t, k, '/', '*') {
      BlankedIsQuietAt(s, 0, Code, k);
    }
  }

  lemma {:induction false} QuietIsUnchanged(s: string, i: nat)
    requires i <= |s| && Quiet(s)
    ensures Blanked(s, i, Code) == s[i..]
    decreases |s| - i
  {
    if i < |s| {
      QuietIsUnchanged(s, i + 1);
    }
  }

  /** Blanking keeps length and newlines, leaves no comment and no literal opening, and blanking again
      changes nothing. */
  lemma BlankingIsSound(s: string)
    ensures var clean := Blanked(s, 0, Code);
            && |clean| == |s|
            && (forall k ::
                  0 <= k < |s| ==> (clean[k] == '\n' <==> s[k] == '\n') && (clean[k] == s[k] || clean[k] == ' '))
            && Quiet(clean)
            && Blanked(clean, 0, Code) == clean
  {
    hide Blanked, Quiet;
    var clean := Blanked(s, 0, Code);
    BlankingKeepsPlaces(s, 0, Code, 0);
    forall k | 0 <= k < |s| ensures (clean[k] == '\n' <==> s[k] == '\n') && (clean[k] == s[k] || clean[k] == ' ') {
      BlankingKeepsPlaces(s, 0, Code, k);
    }
    BlankedIsQuiet(s);
    QuietIsUnchanged(clean, 0);
    assert clean[0..] == clean;
  }

  // ---------- The program's search for the end of noise ----------

  /** The first newline from `i` on, or the end. */
  function LineEnd(s: string, i: nat): (end: nat)
    requires i <= |s|
    ensures i <= end <= |s|
    decreases |s| - i
  {
    if i == |s| || s[i] == '\n' then i else LineEnd(s, i + 1)
  }

  /** Just after the first mark closing a block comment from `i` on, or the end. */
  function BlockEnd(s: string, i: nat): (end: nat)
    requires i <= |s|
    ensures i <= end <= |s|
    decreases |s| - i
  {
    if i == |s| then i else if Starts(s, i, '*', '/') then i + 2 else BlockEnd(s, i + 1)
  }

  function AllBlank(s: string, i: nat, j: nat): string
    requires i <= j <= |s|
  {
    seq(j - i, k requires 0 <= k < j - i => Blank(s[i + k]))
  }

  lemma FirstBlank(s: string, i: nat, j: nat)
    requires i < j <= |s|
    ensures AllBlank(s, i, j) == [Blank(s[i])] + AllBlank(s, i + 1, j)
  {}

  lemma {:induction false} LineIsBlank(s: string, i: nat)
    requires i <= |s|
    ensures Blanked(s, i, Line) == AllBlank(s, i, LineEnd(s, i)) + Blanked(s, LineEnd(s, i), Code)
    decreases |s| - i
  {
    if i < |s| && s[i] != '\n' {
      LineIsBlank(s, i + 1);
      FirstBlank(s, i, LineEnd(s, i));
    }
  }

  lemma {:induction false} BlockIsBlank(s: string, i: nat)
    requires i <= |s|
    ensures Blanked(s, i, Block) == AllBlank(s, i, BlockEnd(s, i)) + Blanked(s, BlockEnd(s, i), Code)
    decreases |s| - i
  {
    if i < |s| {
      FirstBlank(s, i, BlockEnd(s, i));
      if Starts(s, i, '*', '/') {
        FirstBlank(s, i + 1, i + 2);
      } else {
        BlockIsBlank(s, i + 1);
      }
    }
  }

  /** Just after the quote that closes the literal being read from `i` on, or the end. */
  function LiteralEnd(s: string, i: nat, quote: char): (end: nat)
    requires i <= |s|
    ensures i <= end <= |s|
    decreases |s| - i
  {
    if i == |s| then i
    else if s[i] == quote then i + 1
    else if s[i] == '\\' then (if i + 1 == |s| then |s| else LiteralEnd(s, i + 2, quote))
    else LiteralEnd(s, i + 1, quote)
  }

  lemma NoiseByte(s: string, i: nat, mode: Mode)
    requires i < |s| && IsNoise(s, i, mode)
    ensures Blanked(s, i, mode) == [Blank(s[i])] + Blanked(s, i + 1, Next(s, i, mode))
  {}

  lemma NoBytes(s: string, i: nat)
    requires i <= |s|
    ensures AllBlank(s, i, i) == ""
  {}

  lemma {:induction false} LiteralIsBlank(s: string, i: nat, quote: char)
    requires i <= |s| && IsQuote(quote)
    ensures Blanked(s, i, Literal(quote))
            == AllBlank(s, i, LiteralEnd(s, i, quote)) + Blanked(s, LiteralEnd(s, i, quote), Code)
    decreases |s| - i, 1
  {
    hide Blanked, AllBlank, Blank;
    if i == |s| {
      NothingLeft(s, Literal(quote));
    } else {
      FirstBlank(s, i, LiteralEnd(s, i, quote));
      NoiseByte(s, i, Literal(quote));
      if s[i] == '\\' {
        EscapeIsBlank(s, i, quote);
      } else if s[i] != quote {
        LiteralIsBlank(s, i + 1, quote);
      } else {
        NoBytes(s, i + 1);
      }
    }
  }

  lemma {:induction false} EscapeIsBlank(s: string, i: nat, quote: char)
    requires i < |s| && IsQuote(quote) && s[i] == '\\'
    ensures Blanked(s, i + 1, Escaped(quote))
            == AllBlank(s, i + 1, LiteralEnd(s, i, quote)) + Blanked(s, LiteralEnd(s, i, quote), Code)
    decreases |s| - i, 0
  {
    hide Blanked, AllBlank, Blank;
    if i + 1 == |s| {
      NothingLeft(s, Escaped(quote));
    } else {
      FirstBlank(s, i + 1, LiteralEnd(s, i, quote));
      NoiseByte(s, i + 1, Escaped(quote));
      LiteralIsBlank(s, i + 2, quote);
    }
  }

  lemma NothingLeft(s: string, mode: Mode)
    ensures Blanked(s, |s|, mode) == "" && AllBlank(s, |s|, |s|) == "" && Blanked(s, |s|, Code) == ""
  {}

  /** Where noise that begins at `i` ends; `i` when none begins. */
  function NoiseEnd(s: string, i: nat): (end: nat)
    requires i < |s|
    ensures i <= end <= |s|
  {
    if Starts(s, i, '/', '/') then LineEnd(s, i)
    else if Starts(s, i, '/', '*') then BlockEnd(s, i + 2)
    else if IsQuote(s[i]) then LiteralEnd(s, i + 1, s[i])
    else i
  }

  lemma NoiseIsBlank(s: string, i: nat)
    requires i < |s| && IsNoise(s, i, Code)
    ensures NoiseEnd(s, i) > i
    ensures Blanked(s, i, Code) == AllBlank(s, i, NoiseEnd(s, i)) + Blanked(s, NoiseEnd(s, i), Code)
  {
    hide Blanked, AllBlank, Blank, LiteralEnd, BlockEnd;
    FirstBlank(s, i, NoiseEnd(s, i));
    NoiseByte(s, i, Code);
    if Starts(s, i, '/', '/') {
      LineIsBlank(s, i + 1);
    } else if Starts(s, i, '/', '*') {
      FirstBlank(s, i + 1, NoiseEnd(s, i));
      NoiseByte(s, i + 1, Opening);
      BlockIsBlank(s, i + 2);
    } else {
      LiteralIsBlank(s, i + 1, s[i]);
    }
  }

  method FindLiteralEnd(s: string, start: nat) returns (end: nat)
    requires start < |s|
    ensures end == LiteralEnd(s, start + 1, s[start])
  {
    var cursor: nat := start + 1;
    while cursor < |s| && s[cursor] != s[start]
      invariant cursor > start
      invariant cursor <= |s| ==> LiteralEnd(s, cursor, s[start]) == LiteralEnd(s, start + 1, s[start])
      invariant cursor > |s| ==> LiteralEnd(s, start + 1, s[start]) == |s|
    {
      cursor := cursor + if s[cursor] == '\\' then 2 else 1;
    }
    end := if cursor + 1 < |s| then cursor + 1 else |s|;
  }

  method BlankOut(clean: array<char>, from: nat, to: nat)
    requires from <= to <= clean.Length
    modifies clean
    ensures clean[..] == old(clean[..from]) + AllBlank(old(clean[..]), from, to) + old(clean[to..])
  {
    for i := from to to
      invariant forall k ::
                  0 <= k < clean.Length ==> clean[k] == if from <= k < i then Blank(old(clean[k])) else old(clean[k])
    {
      if clean[i] != '\n' {
        clean[i] := ' ';
      }
    }
  }

  lemma SameBlank(s: string, t: string, from: nat, to: nat)
    requires from <= to <= |s| == |t| && s[from..] == t[from..]
    ensures AllBlank(s, from, to) == AllBlank(t, from, to)
  {
    forall k | 0 <= k < to - from ensures AllBlank(s, from, to)[k] == AllBlank(t, from, to)[k] {
      assert s[from..][k] == t[from..][k];
    }
  }

  method WithoutNoise(source: string) returns (clean: array<char>)
    ensures clean[..] == Blanked(source, 0, Code)
  {
    hide Blanked, NoiseEnd, LineEnd, BlockEnd, LiteralEnd, AllBlank;
    clean := new char[|source|](i requires 0 <= i < |source| => source[i]);
    var index: nat := 0;
    assert clean[..] == source;
    NoMoreToBlank(source);
    while index < |source|
      invariant index <= |source| == clean.Length
      invariant clean[index..] == source[index..]
      invariant clean[..index] + Blanked(source, index, Code) == Blanked(source, 0, Code)
    {
      ghost var was := clean[..];
      if !Starts(source, index, '/', '/') && !Starts(source, index, '/', '*') && !IsQuote(source[index]) {
        CodeIsKept(source, index);
        assert was[..index + 1] == was[..index] + [was[index]];
        assert was[index] == was[index..][0] == source[index];
        assert was[..index + 1] + Blanked(source, index + 1, Code) == was[..index] + Blanked(source, index, Code);
        assert was[index + 1..] == was[index..][1..];
        index := index + 1;
        continue;
      }
      var end := FindNoiseEnd(source, index);
      NoiseIsBlank(source, index);
      BlankOut(clean, index, end);
      SameBlank(was, source, index, end);
      Stitched(was[..index], AllBlank(source, index, end), was[end..], clean[..], index, end);
      assert was[end..] == was[index..][end - index..];
      index := end;
    }
  }

  lemma Stitched(before: string, blank: string, rest: string, all: string, index: nat, end: nat)
    requires all == before + blank + rest && |before| == index && |blank| == end - index && index <= end
    ensures all[..end] == before + blank && all[end..] == rest
  {}

  lemma NoMoreToBlank(s: string)
    ensures |s| <= |s| && Blanked(s, |s|, Code) == ""
  {}

  lemma CodeIsKept(s: string, i: nat)
    requires i < |s| && !IsNoise(s, i, Code)
    ensures Blanked(s, i, Code) == [s[i]] + Blanked(s, i + 1, Code)
  {}

  method FindNoiseEnd(s: string, index: nat) returns (end: nat)
    requires index < |s| && IsNoise(s, index, Code)
    ensures end == NoiseEnd(s, index)
  {
    if Starts(s, index, '/', '/') {
      end := LineEnd(s, index);
    } else if Starts(s, index, '/', '*') {
      end := BlockEnd(s, index + 2);
    } else {
      end := FindLiteralEnd(s, index);
    }
  }
}
