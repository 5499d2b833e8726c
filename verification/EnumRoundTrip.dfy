/** Reading the constants of an enum gives back the constants as they are written, whatever blanks stand
    between them. */
module EnumRoundTrip {
  import opened Common
  import opened EnumReader

  /** A constant as it stands in a source: `lead name gap (first,others) bodyGap {body}`. */
  datatype Constant = Constant(
    lead: string, name: string, gap: string, first: string, others: string, bodyGap: string, body: Option<string>)

  predicate All(s: string, has: char -> bool) {
    forall i :: 0 <= i < |s| ==> has(s[i])
  }

  /** ASCII white space, by its codes: tab, line feed, form feed, carriage return and space. */
  predicate White(c: char) {
    c as int in {9, 10, 12, 13, 32}
  }

  /** What a name is written in: ASCII digits, letters and the underscore. */
  predicate OfNames(c: char) {
    48 <= c as int <= 57 || 65 <= c as int <= 90 || c as int == 95 || 97 <= c as int <= 122
  }

  /** What may stand between two constants: white space and commas. */
  predicate Between(c: char) {
    White(c) || c as int == 44
  }

  lemma AllAre(s: string)
    ensures All(s, White) <==> All(s, IsBlank)
    ensures All(s, OfNames) <==> All(s, InName)
    ensures All(s, Between) <==> All(s, Skipped)
  {}

  /** Every bracket that closes in `s` opens in it, and the other way round. */
  ghost predicate Enclosed(s: string) {
    Net(s) == 0 && forall j :: 0 <= j <= |s| ==> Net(s[..j]) >= 0
  }

  /** Where a comma stands outside of every bracket. */
  ghost function OuterCommas(s: string): set<nat> {
    set k: nat | k < |s| && s[k] == ',' && Net(s[..k]) == 0
  }

  lemma {:induction false} CommasAreOuter(s: string)
    ensures |Commas(s)| == |OuterCommas(s)|
    ensures forall k: nat :: k in OuterCommas(s) <==> k in Commas(s)
  {
    hide Net;
    if s != "" {
      var init := s[..|s| - 1];
      CommasAreOuter(init);
      CommasAreWithin(init);
      assert forall k :: 0 <= k < |init| ==> init[..k] == s[..k];
      assert OuterCommas(s) == if s[|init|] == ',' && Net(init) == 0 then OuterCommas(init) + {|init|}
                               else OuterCommas(init);
    }
  }

  lemma NoneOuter(s: string)
    ensures OuterCommas(s) == {} <==> Commas(s) == []
  {
    hide Commas, OuterCommas;
    CommasAreOuter(s);
  }

  ghost predicate WellWritten(c: Constant) {
    && All(c.lead, Between) && c.name != "" && All(c.name, OfNames) && All(c.gap, White)
    && Enclosed(c.first) && OuterCommas(c.first) == {} && Enclosed(c.others)
    && All(c.bodyGap, White) && (c.body.Some? ==> Enclosed(c.body.value))
  }

  lemma AsTheProgramSees(c: Constant)
    requires WellWritten(c)
    ensures All(c.lead, Skipped) && All(c.name, InName) && All(c.gap, IsBlank) && All(c.bodyGap, IsBlank)
  {
    hide All, Enclosed, Commas;
    AllAre(c.lead);
    AllAre(c.name);
    AllAre(c.gap);
    AllAre(c.bodyGap);
  }

  function BodyText(c: Constant): string {
    match c.body
    case None => ""
    case Some(body) => c.bodyGap + ("{" + (body + "}"))
  }

  function Arguments(c: Constant): string {
    (c.first + ",") + c.others
  }

  /** The text of a constant from its name on, with `tail` after it. */
  function NameOn(c: Constant, tail: string): string {
    c.name + (c.gap + ("(" + (Arguments(c) + (")" + (BodyText(c) + tail)))))
  }

  function TextsOf(constants: seq<Constant>, tail: string): string {
    if constants == [] then tail else constants[0].lead + NameOn(constants[0], TextsOf(constants[1..], tail))
  }

  predicate Resolves(c: Constant, resolver: Resolver) {
    resolver.id(c.first).Some? && resolver.scope(c.name, c.others).Some?
  }

  ghost function EntryFor(c: Constant, resolver: Resolver): Entry
    requires Resolves(c, resolver)
  {
    Entry(c.name, resolver.id(c.first).value, resolver.scope(c.name, c.others).value, |OuterCommas(Arguments(c))| + 1)
  }

  ghost predicate AllResolve(constants: seq<Constant>, resolver: Resolver) {
    forall i :: 0 <= i < |constants| ==> WellWritten(constants[i]) && Resolves(constants[i], resolver)
  }

  ghost function EntriesFor(constants: seq<Constant>, resolver: Resolver): seq<Entry>
    requires AllResolve(constants, resolver)
  {
    if constants == [] then [] else [EntryFor(constants[0], resolver)] + EntriesFor(constants[1..], resolver)
  }

  /** No constant has the name of one before it. */
  ghost predicate AllNew(constants: seq<Constant>, earlier: seq<Entry>, resolver: Resolver)
    requires AllResolve(constants, resolver)
    decreases |constants|
  {
    constants == []
    || (!Named(earlier, constants[0].name)
       && AllNew(constants[1..], earlier + [EntryFor(constants[0], resolver)], resolver))
  }

  // ---------- Pieces ----------

  lemma {:induction false} LeadingOf(prefix: string, tail: string, has: char -> bool)
    requires All(prefix, has) && tail != "" && !has(tail[0])
    ensures Leading(prefix + tail, has) == |prefix| && Before(prefix + tail, has) == |prefix|
  {
    if prefix == "" {
      assert prefix + tail == tail;
    } else {
      assert (prefix + tail)[1..] == prefix[1..] + tail;
      LeadingOf(prefix[1..], tail, has);
    }
  }

  lemma {:induction false} NetOfTwo(s: string, t: string)
    ensures Net(s + t) == Net(s) + Net(t)
  {
    if t == "" {
      assert s + t == s;
    } else {
      NetOfTwo(s, t[..|t| - 1]);
      assert (s + t)[..|s + t| - 1] == s + t[..|t| - 1];
    }
  }

  lemma EnclosedTogether(s: string, t: string)
    requires Enclosed(s) && Enclosed(t)
    ensures Enclosed(s + t)
  {
    hide Net;
    NetOfTwo(s, t);
    forall j | 0 <= j <= |s + t| ensures Net((s + t)[..j]) >= 0 {
      if j <= |s| {
        assert (s + t)[..j] == s[..j];
      } else {
        assert (s + t)[..j] == s + t[..j - |s|];
        NetOfTwo(s, t[..j - |s|]);
      }
    }
  }

  lemma CommaIsEnclosed()
    ensures Enclosed(",")
  {
    forall j | 0 <= j <= 1 ensures Net(","[..j]) == 0 {
      assert ","[..j] == "" || ","[..j] == ",";
      assert ","[..0] == "";
    }
  }

  lemma {:induction false} CommasOfTwo(s: string, t: string)
    ensures |Commas(s)| <= |Commas(s + t)| && Commas(s + t)[..|Commas(s)|] == Commas(s)
  {
    if t == "" {
      assert s + t == s;
    } else {
      CommasOfTwo(s, t[..|t| - 1]);
      assert (s + t)[..|s + t| - 1] == s + t[..|t| - 1];
    }
  }

  lemma CommaAfter(first: string)
    requires Enclosed(first) && OuterCommas(first) == {}
    ensures Commas(first + ",") == [|first|]
  {
    hide Net, OuterCommas;
    NoneOuter(first);
    assert (first + ",")[..|first|] == first;
  }

  lemma FirstComma(c: Constant)
    requires WellWritten(c)
    ensures Commas(Arguments(c)) != [] && Commas(Arguments(c))[0] == |c.first|
    ensures Enclosed(Arguments(c))
  {
    hide Net, All, Commas, OuterCommas, Enclosed;
    CommaAfter(c.first);
    CommasOfTwo(c.first + ",", c.others);
    assert Commas(Arguments(c))[..1][0] == |c.first|;
    CommaIsEnclosed();
    EnclosedTogether(c.first, ",");
    EnclosedTogether(c.first + ",", c.others);
  }

  lemma NetOfOne(c: char)
    ensures Net([c]) == Turn(c)
  {
    assert [c][..0] == "";
  }

  function Bracketed(open: char, inner: string, close: char, tail: string): string {
    [open] + (inner + ([close] + tail))
  }

  lemma StillOpen(open: char, inner: string, close: char, tail: string, j: nat)
    requires Opens(open) && Enclosed(inner) && j <= |inner|
    ensures Net(Bracketed(open, inner, close, tail)[..j + 1]) > 0
  {
    hide Net;
    NetOfOne(open);
    assert Bracketed(open, inner, close, tail)[..j + 1] == [open] + inner[..j];
    NetOfTwo([open], inner[..j]);
  }

  /** A bracket closes after what it encloses. */
  lemma ClosesAfter(open: char, inner: string, close: char, tail: string)
    requires Opens(open) && Closes(close) && Enclosed(inner)
    ensures ClosingOf(Bracketed(open, inner, close, tail)) == Some(|inner| + 1)
  {
    hide Net, ClosingOf;
    var all := Bracketed(open, inner, close, tail);
    ClosingIsFirst(all);
    NetOfOne(open);
    NetOfOne(close);
    assert all[..|inner| + 2] == [open] + (inner + [close]);
    NetOfTwo([open], inner + [close]);
    NetOfTwo(inner, [close]);
    var found := ClosingOf(all);
    if found.Some? && found.value < |inner| + 1 {
      StillOpen(open, inner, close, tail, found.value);
      assert false;
    }
  }

  /** No class body begins here. */
  predicate NoBody(tail: string) {
    tail != "" && tail[Before(tail, IsBlank)] != '{'
  }

  lemma {:induction false} LeadingUpTo(s: string, k: nat, has: char -> bool)
    requires k < |s| && !has(s[k])
    ensures Leading(s, has) <= k
  {
    if k > 0 {
      LeadingUpTo(s[1..], k - 1, has);
    }
  }

  lemma {:induction false} LeadHasNoBody(lead: string, tail: string)
    requires All(lead, Skipped) && tail != "" && !Skipped(tail[0]) && tail[0] != '{'
    ensures NoBody(lead + tail)
  {
    var all := lead + tail;
    LeadingUpTo(all, |lead|, IsBlank);
    if lead == "" {
      assert all == tail;
    } else {
      LeadHasNoBody(lead[1..], tail);
      assert all[1..] == lead[1..] + tail;
      LeadingUpTo(all[1..], |lead| - 1, IsBlank);
    }
  }

  // ---------- One constant ----------

  lemma BodyReads(c: Constant, tail: string)
    requires WellWritten(c) && NoBody(tail)
    ensures BodyLength(BodyText(c) + tail) == Ok(|BodyText(c)|)
  {
    hide Net, Leading, ClosingOf, Commas;
    match c.body
    case None => assert BodyText(c) + tail == tail;
    case Some(body) =>
      var braced := "{" + (body + ("}" + tail));
      assert BodyText(c) + tail == c.bodyGap + braced;
      LeadingOf(c.bodyGap, braced, IsBlank);
      assert (c.bodyGap + braced)[|c.bodyGap|..] == braced;
      ClosesAfter('{', body, '}', tail);
  }

  lemma ArgumentsRead(c: Constant, earlier: seq<Entry>, resolver: Resolver)
    requires WellWritten(c) && Resolves(c, resolver) && !Named(earlier, c.name)
    ensures EntryOf(c.name, Arguments(c), earlier, resolver) == Ok(EntryFor(c, resolver))
  {
    hide Net, Commas, Named, Enclosed, All;
    CommasAreOuter(Arguments(c));
    FirstComma(c);
    assert Arguments(c)[..|c.first|] == c.first;
    assert Arguments(c)[|c.first| + 1..] == c.others;
  }

  lemma ConstantReads(c: Constant, tail: string, earlier: seq<Entry>, resolver: Resolver)
    requires WellWritten(c) && Resolves(c, resolver) && !Named(earlier, c.name) && NoBody(tail)
    ensures ConstantOf(NameOn(c, tail), earlier, resolver) == Ok((EntryFor(c, resolver), |NameOn(c, tail)| - |tail|))
  {
    hide Net, Leading, Before, ClosingOf, Commas, Named, EntryOf, BodyLength, Enclosed, BodyText, Arguments, NoBody;
    var rest, afterBody := NameOn(c, tail), BodyText(c) + tail;
    var bracketed := "(" + (Arguments(c) + (")" + afterBody));
    GapThenBracket(c, bracketed);
    assert rest[|c.name|..] == c.gap + bracketed;
    assert rest[..|c.name|] == c.name;
    assert rest[|c.name| + |c.gap|..] == bracketed;
    FirstComma(c);
    ClosesAfter('(', Arguments(c), ')', afterBody);
    assert bracketed[1..|Arguments(c)| + 1] == Arguments(c);
    ArgumentsRead(c, earlier, resolver);
    assert rest[|c.name| + |c.gap| + (|Arguments(c)| + 1) + 1..] == afterBody;
    BodyReads(c, tail);
  }

  lemma GapThenBracket(c: Constant, bracketed: string)
    requires WellWritten(c) && bracketed != "" && bracketed[0] == '('
    ensures Before(c.name + (c.gap + bracketed), InName) == |c.name|
    ensures Before(c.gap + bracketed, IsBlank) == |c.gap|
  {
    hide Net, Leading, Before, Commas, Enclosed;
    LeadingOf(c.name, c.gap + bracketed, InName);
    LeadingOf(c.gap, bracketed, IsBlank);
  }

  // ---------- Main result ----------

  lemma {:induction false} TailHasNoBody(constants: seq<Constant>, lead: string, junk: string)
    requires forall i :: 0 <= i < |constants| ==> WellWritten(constants[i])
    requires All(lead, Skipped)
    ensures NoBody(TextsOf(constants, lead + (";" + junk)))
  {
    hide NoBody, Enclosed, Commas;
    if constants == [] {
      LeadHasNoBody(lead, ";" + junk);
    } else {
      LeadHasNoBody(constants[0].lead, NameOn(constants[0], TextsOf(constants[1..], lead + (";" + junk))));
    }
  }

  lemma ReadsEnd(lead: string, junk: string, earlier: seq<Entry>, resolver: Resolver)
    requires All(lead, Skipped) && earlier != []
    ensures Read(lead + (";" + junk), earlier, resolver) == Ok(earlier)
  {
    hide ConstantOf, Leading;
    LeadingOf(lead, ";" + junk, Skipped);
  }

  lemma ReadStep(lead: string, rest: string, earlier: seq<Entry>, resolver: Resolver)
    requires All(lead, Skipped) && rest != "" && !Skipped(rest[0]) && rest[0] != ';'
             && ConstantOf(rest, earlier, resolver).Ok?
    ensures var (entry, length) := ConstantOf(rest, earlier, resolver).value;
            Read(lead + rest, earlier, resolver) == Read(rest[length..], earlier + [entry], resolver)
  {
    hide ConstantOf, Leading, Before, All;
    LeadingOf(lead, rest, Skipped);
    assert (lead + rest)[|lead|..] == rest;
    var (entry, length) := ConstantOf(rest, earlier, resolver).value;
    assert (lead + rest)[|lead| + length..] == rest[length..];
  }

  lemma NameOnEnds(c: Constant, tail: string)
    requires WellWritten(c)
    ensures NameOn(c, tail) != "" && !Skipped(NameOn(c, tail)[0]) && NameOn(c, tail)[0] != ';'
    ensures |NameOn(c, tail)| >= |tail| && NameOn(c, tail)[|NameOn(c, tail)| - |tail|..] == tail
  {
    hide Enclosed, Commas, Arguments, BodyText;
    assert NameOn(c, tail)[0] == c.name[0] && InName(c.name[0]);
    var all := c.name + (c.gap + ("(" + (Arguments(c) + (")" + BodyText(c)))));
    assert NameOn(c, tail) == all + tail;
  }

  lemma ReadsNext(c: Constant, tail: string, earlier: seq<Entry>, resolver: Resolver)
    requires WellWritten(c) && Resolves(c, resolver) && !Named(earlier, c.name) && NoBody(tail)
    ensures Read(c.lead + NameOn(c, tail), earlier, resolver) == Read(tail, earlier + [EntryFor(c, resolver)], resolver)
  {
    hide Read, ConstantOf, NoBody, Enclosed, Commas, Named, Resolves, EntryFor, NameOn, All;
    NameOnEnds(c, tail);
    AsTheProgramSees(c);
    ConstantReads(c, tail, earlier, resolver);
    ReadStep(c.lead, NameOn(c, tail), earlier, resolver);
  }

  /** Whatever blanks, commas and class bodies stand between them, the constants are read back in order,
      each with its name, its id and how many arguments it takes. */
  lemma {:induction false} ReadsBack(
    constants: seq<Constant>, lead: string, junk: string, earlier: seq<Entry>, resolver: Resolver)
    requires AllResolve(constants, resolver) && AllNew(constants, earlier, resolver) && All(lead, Between)
    requires constants != [] || earlier != []
    ensures Read(TextsOf(constants, lead + (";" + junk)), earlier, resolver)
            == Ok(earlier + EntriesFor(constants, resolver))
    decreases |constants|
  {
    hide Read, NoBody, WellWritten, Named, Resolves, EntryFor, NameOn, All;
    AllAre(lead);
    if constants == [] {
      ReadsEnd(lead, junk, earlier, resolver);
      assert earlier + [] == earlier;
    } else {
      var c, tail := constants[0], TextsOf(constants[1..], lead + (";" + junk));
      TailHasNoBody(constants[1..], lead, junk);
      ReadsNext(c, tail, earlier, resolver);
      ReadsBack(constants[1..], lead, junk, earlier + [EntryFor(c, resolver)], resolver);
      assert (earlier + [EntryFor(c, resolver)]) + EntriesFor(constants[1..], resolver)
        == earlier + EntriesFor(constants, resolver);
    }
  }
}
