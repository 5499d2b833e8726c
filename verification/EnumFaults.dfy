/** What is read of an enum that is not as it should be: the constants before the fault are read as they are, and the
    fault is said. */
module EnumFaults {
  import opened Common
  import opened EnumReader
  import opened EnumRoundTrip

  // ---------- Brackets ----------

  /** The depth at the end of a text is how many brackets of the three kinds open in it, less those that close. */
  lemma {:induction false} NetCounts(s: string)
    ensures Net(s) + multiset(s)[')'] + multiset(s)['}'] + multiset(s)[']']
            == multiset(s)['('] + multiset(s)['{'] + multiset(s)['[']
  {
    if s != "" {
      NetCounts(s[..|s| - 1]);
      assert s == s[..|s| - 1] + [s[|s| - 1]];
    }
  }

  // ---------- Arguments ----------

  lemma {:induction false} CommasAdd(s: string, t: string)
    requires Net(s) == 0
    ensures |Commas(s + t)| == |Commas(s)| + |Commas(t)|
  {
    hide Net;
    if t == "" {
      assert s + t == s;
    } else {
      var init := t[..|t| - 1];
      CommasAdd(s, init);
      NetOfTwo(s, init);
      assert (s + t)[..|s + t| - 1] == s + init;
    }
  }

  /** A list of arguments written one after another. */
  function Listing(arguments: seq<string>): string {
    if arguments == [] then ""
    else if |arguments| == 1 then arguments[0]
    else arguments[0] + "," + Listing(arguments[1..])
  }

  /** One argument: its brackets close, and no comma of it is outside of them. */
  ghost predicate IsArgument(argument: string) {
    Enclosed(argument) && OuterCommas(argument) == {}
  }

  lemma EnclosedIsLevel(s: string)
    requires Enclosed(s)
    ensures Net(s) == 0
  {}

  /** A constant is counted as many arguments as it is written with, and its first comma ends the first. */
  lemma {:induction false} ArgumentsAreCounted(arguments: seq<string>)
    requires arguments != [] && forall i :: 0 <= i < |arguments| ==> IsArgument(arguments[i])
    ensures |Commas(Listing(arguments))| + 1 == |arguments|
    ensures |arguments| > 1 ==> Commas(Listing(arguments))[0] == |arguments[0]|
  {
    hide Net, OuterCommas, Enclosed, Commas;
    if |arguments| == 1 {
      NoneOuter(arguments[0]);
    } else {
      var first, rest := arguments[0], Listing(arguments[1..]);
      assert IsArgument(first);
      CommaAfter(first);
      ArgumentsAreCounted(arguments[1..]);
      CommaIsEnclosed();
      EnclosedTogether(first, ",");
      EnclosedIsLevel(first + ",");
      CommasAdd(first + ",", rest);
      CommasOfTwo(first + ",", rest);
      assert Commas((first + ",") + rest)[..1][0] == |first|;
    }
  }

  // ---------- The constants before a fault ----------

  lemma {:induction false} TextHasNoBody(constants: seq<Constant>, tail: string)
    requires forall i :: 0 <= i < |constants| ==> WellWritten(constants[i])
    requires NoBody(tail)
    ensures NoBody(TextsOf(constants, tail))
  {
    hide NoBody, Enclosed, Commas;
    if constants != [] {
      LeadHasNoBody(constants[0].lead, NameOn(constants[0], TextsOf(constants[1..], tail)));
    }
  }

  /** Constants well written are read as they are, whatever follows them. */
  lemma {:induction false} ReadUpTo(constants: seq<Constant>, tail: string, earlier: seq<Entry>, resolver: Resolver)
    requires AllResolve(constants, resolver) && AllNew(constants, earlier, resolver) && NoBody(tail)
    ensures Read(TextsOf(constants, tail), earlier, resolver)
            == Read(tail, earlier + EntriesFor(constants, resolver), resolver)
    decreases |constants|
  {
    hide Read, NoBody, WellWritten, Named, Resolves, EntryFor, NameOn, All;
    if constants == [] {
      assert earlier + [] == earlier;
    } else {
      var c, rest := constants[0], TextsOf(constants[1..], tail);
      TextHasNoBody(constants[1..], tail);
      ReadsNext(c, rest, earlier, resolver);
      ReadUpTo(constants[1..], tail, earlier + [EntryFor(c, resolver)], resolver);
      assert (earlier + [EntryFor(c, resolver)]) + EntriesFor(constants[1..], resolver)
        == earlier + EntriesFor(constants, resolver);
    }
  }

  // ---------- Faults ----------

  lemma {:induction false} LeadingOfAll(lead: string, has: char -> bool)
    requires All(lead, has)
    ensures Leading(lead, has) == |lead|
  {
    if lead != "" {
      LeadingOfAll(lead[1..], has);
    }
  }

  /** A text that ends before its terminator, and one that has no constant before it. */
  lemma EndsWithout(lead: string, junk: string, earlier: seq<Entry>, resolver: Resolver)
    requires All(lead, Between)
    ensures Read(lead, earlier, resolver) == Err(NoTerminator)
    ensures Read(lead + (";" + junk), [], resolver) == Err(NoConstants)
  {
    hide ConstantOf, Leading;
    AllAre(lead);
    LeadingOfAll(lead, Skipped);
    LeadingOf(lead, ";" + junk, Skipped);
  }

  lemma FaultIsSaid(lead: string, rest: string, earlier: seq<Entry>, resolver: Resolver)
    requires All(lead, Skipped) && rest != "" && !Skipped(rest[0]) && rest[0] != ';'
    requires ConstantOf(rest, earlier, resolver).Err?
    ensures Read(lead + rest, earlier, resolver) == Err(ConstantOf(rest, earlier, resolver).error)
  {
    hide ConstantOf, Leading, Before, All;
    LeadingOf(lead, rest, Skipped);
    assert (lead + rest)[|lead|..] == rest;
  }

  /** Something else where a constant should be: no name, or no bracket after it. */
  lemma NoConstantHere(
    lead: string, name: string, gap: string, rest: string, earlier: seq<Entry>, resolver: Resolver)
    requires All(lead, Between) && All(name, OfNames) && All(gap, White)
    requires rest != "" && !OfNames(rest[0]) && !White(rest[0]) && rest[0] != '('
    requires name == "" ==> gap == "" && !Between(rest[0]) && rest[0] != ';'
    ensures Read(lead + (name + (gap + rest)), earlier, resolver)
            == Err(NotAConstant(if earlier == [] then None else Some(earlier[|earlier| - 1].name)))
  {
    hide Leading, Before, EntryOf, BodyLength, ClosingOf;
    var all := name + (gap + rest);
    AllAre(lead);
    AllAre(name);
    AllAre(gap);
    if name == "" {
      assert all == rest;
      LeadingOf("", rest, InName);
      assert "" + rest == rest;
    } else {
      assert all[0] == name[0] && InName(name[0]);
      LeadingOf(name, gap + rest, InName);
      LeadingOf(gap, rest, IsBlank);
      assert all[|name|..] == gap + rest;
      assert all[|name| + |gap|] == rest[0];
    }
    assert ConstantOf(all, earlier, resolver) == Err(NotAConstant(LastName(earlier)));
    FaultIsSaid(lead, all, earlier, resolver);
  }

  /** A bracket that is never closed: an argument list's or a class body's. */
  ghost predicate StaysOpen(inner: string) {
    forall j :: 0 <= j <= |inner| ==> Net(inner[..j]) >= 0
  }

  lemma NothingClosesIt(open: char, inner: string)
    requires Opens(open) && StaysOpen(inner)
    ensures ClosingOf([open] + inner) == None
  {
    hide Net, ClosingOf;
    var all := [open] + inner;
    ClosingIsFirst(all);
    NetOfOne(open);
    if ClosingOf(all).Some? {
      var k := ClosingOf(all).value;
      assert all[..k + 1] == [open] + inner[..k];
      NetOfTwo([open], inner[..k]);
      assert false;
    }
  }

  lemma ArgumentsNeverClosed(
    lead: string, name: string, gap: string, inner: string, earlier: seq<Entry>, resolver: Resolver)
    requires All(lead, Between) && name != "" && All(name, OfNames) && All(gap, White) && StaysOpen(inner)
    ensures Read(lead + (name + (gap + ("(" + inner))), earlier, resolver) == Err(NeverClosed)
  {
    hide Leading, Before, EntryOf, BodyLength, ClosingOf, StaysOpen, Read, All, Skipped;
    var bracketed := "(" + inner;
    var all := name + (gap + bracketed);
    AllAre(lead);
    AllAre(name);
    AllAre(gap);
    NameThenBracket(name, gap, bracketed);
    NothingClosesIt('(', inner);
    FaultIsSaid(lead, all, earlier, resolver);
  }

  /** A name and its gap before a bracket, as the program finds them. */
  lemma NameThenBracket(name: string, gap: string, bracketed: string)
    requires name != "" && All(name, InName) && All(gap, IsBlank) && bracketed != "" && bracketed[0] == '('
    ensures var all := name + (gap + bracketed);
            && all != "" && !Skipped(all[0]) && all[0] != ';'
            && Before(all, InName) == |name| && all[..|name|] == name
            && Before(all[|name|..], IsBlank) == |gap|
            && all[|name| + |gap|..] == bracketed
  {
    hide Leading, Before;
    var all := name + (gap + bracketed);
    assert all[0] == name[0] && InName(name[0]);
    LeadingOf(name, gap + bracketed, InName);
    LeadingOf(gap, bracketed, IsBlank);
    assert all[|name|..] == gap + bracketed && all[|name| + |gap|..] == bracketed;
  }

  /** A constant written as it should be, up to the end of its arguments, whose arguments the program refuses. */
  lemma ArgumentsRefused(
    c: Constant, arguments: string, rest: string, earlier: seq<Entry>, resolver: Resolver)
    requires All(c.lead, Skipped) && c.name != "" && All(c.name, InName) && All(c.gap, IsBlank) && Enclosed(arguments)
    requires EntryOf(c.name, arguments, earlier, resolver).Err?
    ensures Read(c.lead + (c.name + (c.gap + ("(" + (arguments + (")" + rest))))), earlier, resolver)
            == Err(EntryOf(c.name, arguments, earlier, resolver).error)
  {
    hide Leading, Before, EntryOf, BodyLength, ClosingOf, Enclosed, Read, All, Skipped;
    var bracketed := "(" + (arguments + (")" + rest));
    NameThenBracket(c.name, c.gap, bracketed);
    ClosesAfter('(', arguments, ')', rest);
    assert bracketed[1..|arguments| + 1] == arguments;
    FaultIsSaid(c.lead, c.name + (c.gap + bracketed), earlier, resolver);
  }

  /** A single argument, an id nobody knows, a scope nobody knows, and a name that was there before, in this order. */
  lemma RefusedConstants(c: Constant, rest: string, earlier: seq<Entry>, resolver: Resolver)
    requires WellWritten(c)
    ensures Read(c.lead + (c.name + (c.gap + ("(" + (c.first + (")" + rest))))), earlier, resolver)
            == Err(SingleArgument(c.name))
    ensures var text := c.lead + (c.name + (c.gap + ("(" + (Arguments(c) + (")" + rest)))));
            var id, scope := resolver.id(c.first), resolver.scope(c.name, c.others);
            && (id.None? ==> Read(text, earlier, resolver) == Err(UnknownId(c.name)))
            && (id.Some? && scope.None? ==> Read(text, earlier, resolver) == Err(UnknownScope(c.name)))
            && (id.Some? && scope.Some? && (exists i :: 0 <= i < |earlier| && earlier[i].name == c.name) ==>
                  Read(text, earlier, resolver) == Err(DeclaredTwice(c.name)))
  {
    hide Read, Commas, Enclosed, All, Net;
    AsTheProgramSees(c);
    NoneOuter(c.first);
    FirstComma(c);
    assert Arguments(c)[..|c.first|] == c.first && Arguments(c)[|c.first| + 1..] == c.others;
    ArgumentsRefused(c, c.first, rest, earlier, resolver);
    var entry := EntryOf(c.name, Arguments(c), earlier, resolver);
    if entry.Err? {
      ArgumentsRefused(c, Arguments(c), rest, earlier, resolver);
    }
  }
}
