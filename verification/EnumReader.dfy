/** Matching brackets and reading the constants of an enum out of blanked source text
    (gen-skin-property.rs). */
module EnumReader {
  import opened Common

  predicate IsBlank(c: char) {
    c == ' ' || c == '\t' || c == '\n' || c == '\r' || c == 12 as char
  }

  predicate InName(c: char) {
    'a' <= c <= 'z' || 'A' <= c <= 'Z' || '0' <= c <= '9' || c == '_'
  }

  predicate Opens(c: char) {
    c == '(' || c == '{' || c == '['
  }

  predicate Closes(c: char) {
    c == ')' || c == '}' || c == ']'
  }

  function Turn(c: char): int {
    if Opens(c) then 1 else if Closes(c) then -1 else 0
  }

  /** How many more brackets open in `s` than close. */
  function Net(s: string): int {
    if s == "" then 0 else Net(s[..|s| - 1]) + Turn(s[|s| - 1])
  }

  // ---------- Brackets ----------

  /** Where the last of `depth` open brackets closes in `rest`. */
  function CloserOf(rest: string, depth: nat): Option<nat>
    requires depth > 0
  {
    if rest == "" then None
    else if Closes(rest[0]) && depth == 1 then Some(0)
    else
      match CloserOf(rest[1..], depth + Turn(rest[0]))
      case None => None
      case Some(k) => Some(k + 1)
  }

  lemma {:induction false} NetOfFirst(s: string)
    requires s != ""
    ensures Net(s) == Turn(s[0]) + Net(s[1..])
  {
    if |s| > 1 {
      NetOfFirst(s[..|s| - 1]);
      assert s[..|s| - 1][1..] == s[1..][..|s| - 2];
    }
  }

  /** The bracket found is the first at which the depth comes back to zero; none is found exactly when it
      never does. */
  lemma {:induction false} CloserIsFirst(rest: string, depth: nat, j: nat)
    requires depth > 0
    ensures CloserOf(rest, depth).Some? ==>
              var k := CloserOf(rest, depth).value;
              && k < |rest| && Closes(rest[k])
              && depth + Net(rest[..k + 1]) == 0
              && (j <= k ==> depth + Net(rest[..j]) > 0)
    ensures CloserOf(rest, depth).None? && j <= |rest| ==> depth + Net(rest[..j]) > 0
  {
    if rest != "" {
      if Closes(rest[0]) && depth == 1 {
        assert rest[..1] == [rest[0]];
        assert [rest[0]][..0] == "";
      } else {
        CloserIsFirst(rest[1..], depth + Turn(rest[0]), if j == 0 then 0 else j - 1);
        if 0 < j <= |rest| {
          NetOfPrefix(rest, j);
        }
        if CloserOf(rest, depth).Some? {
          NetOfPrefix(rest, CloserOf(rest, depth).value + 1);
        }
      }
    }
  }

  lemma NetOfPrefix(s: string, j: nat)
    requires 0 < j <= |s|
    ensures Net(s[..j]) == Turn(s[0]) + Net(s[1..][..j - 1])
  {
    NetOfFirst(s[..j]);
    assert s[..j][1..] == s[1..][..j - 1];
  }

  /** The bracket that closes the one `rest` begins with. */
  function ClosingOf(rest: string): Option<nat>
    requires rest != "" && Opens(rest[0])
  {
    match CloserOf(rest[1..], 1)
    case None => None
    case Some(k) => Some(k + 1)
  }

  /** In a text that begins with a bracket, the first place where the depth is back at zero. */
  lemma ClosingIsFirst(rest: string)
    requires rest != "" && Opens(rest[0])
    ensures match ClosingOf(rest)
            case Some(k) => 0 < k < |rest| && Net(rest[..k + 1]) == 0 && (forall j :: 0 < j <= k ==> Net(rest[..j]) > 0)
            case None => forall j :: 0 < j <= |rest| ==> Net(rest[..j]) > 0
  {
    hide CloserOf;
    CloserIsFirst(rest[1..], 1, 0);
    forall j | 0 < j <= (match ClosingOf(rest) case Some(k) => k case None => |rest|) ensures Net(rest[..j]) > 0 {
      CloserIsFirst(rest[1..], 1, j - 1);
      NetOfPrefix(rest, j);
    }
    if ClosingOf(rest).Some? {
      NetOfPrefix(rest, ClosingOf(rest).value + 1);
    }
  }

  lemma ClosingStep(clean: string, open: nat, index: nat, depth: nat)
    requires open < index < |clean| && depth > 0
    ensures CloserOf(clean[index..], depth)
            == if Closes(clean[index]) && depth == 1 then Some(0)
               else
                 match CloserOf(clean[index + 1..], depth + Turn(clean[index]))
                 case None => None
                 case Some(k) => Some(k + 1)
  {
    assert clean[index..][1..] == clean[index + 1..];
  }

  /** The program's count never goes below zero. */
  method FindClosing(clean: string, open: nat) returns (close: Option<nat>)
    requires open < |clean| && Opens(clean[open])
    ensures close == match ClosingOf(clean[open..]) case None => None case Some(k) => Some(open + k)
  {
    hide CloserOf;
    var depth: nat := 0;
    assert clean[open..][1..] == clean[open + 1..];
    for index := open to |clean|
      invariant index == open ==> depth == 0
      invariant index > open ==> depth > 0
      invariant index > open ==>
                  ClosingOf(clean[open..])
                  == match CloserOf(clean[index..], depth) case None => None case Some(k) => Some(k + index - open)
    {
      if index > open {
        ClosingStep(clean, open, index, depth);
      }
      if Opens(clean[index]) {
        depth := depth + 1;
      } else if Closes(clean[index]) {
        depth := depth - 1;
        if depth == 0 {
          return Some(index);
        }
      }
    }
    NothingCloses(depth);
    assert clean[|clean|..] == "";
    return None;
  }

  lemma NothingCloses(depth: nat)
    requires depth > 0
    ensures CloserOf("", depth) == None
  {}

  // ---------- Constants ----------

  datatype Entry = Entry(name: string, id: int, scope: int, arguments: nat)

  datatype Fault =
    | NoTerminator
    | NotAConstant(after: Option<string>)
    | NeverClosed
    | SingleArgument(name: string)
    | UnknownId(name: string)
    | UnknownScope(name: string)
    | DeclaredTwice(name: string)
    | NoConstants

  /** What the rest of the program makes of a constant's arguments: its id from the first, its scope from
      the others. */
  datatype Resolver = Resolver(id: string -> Option<int>, scope: (string, string) -> Option<int>)

  predicate Skipped(c: char) {
    IsBlank(c) || c == ','
  }

  /** How many bytes at the start of `rest` have the property. */
  function Leading(rest: string, has: char -> bool): (n: nat)
    ensures n <= |rest|
  {
    if rest == "" || !has(rest[0]) then 0 else 1 + Leading(rest[1..], has)
  }

  /** The length of what comes before the first byte without the property, or 0 if there is none. */
  function Before(rest: string, has: char -> bool): (n: nat)
    ensures n <= |rest| && (rest != "" ==> n < |rest|)
  {
    if Leading(rest, has) == |rest| then 0 else Leading(rest, has)
  }

  /** The commas of an argument list that are inside no bracket of it. */
  function Commas(arguments: string): seq<nat> {
    if arguments == "" then []
    else
      var init := arguments[..|arguments| - 1];
      Commas(init) + (if arguments[|init|] == ',' && Net(init) == 0 then [|init|] else [])
  }

  lemma {:induction false} CommasAreWithin(arguments: string)
    ensures forall i :: 0 <= i < |Commas(arguments)| ==> Commas(arguments)[i] < |arguments|
  {
    if arguments != "" {
      CommasAreWithin(arguments[..|arguments| - 1]);
    }
  }

  predicate Named(entries: seq<Entry>, name: string) {
    exists i :: 0 <= i < |entries| && entries[i].name == name
  }

  function LastName(entries: seq<Entry>): Option<string> {
    if entries == [] then None else Some(entries[|entries| - 1].name)
  }

  /** The arguments of a constant, and what they come to. */
  function EntryOf(name: string, arguments: string, earlier: seq<Entry>, resolver: Resolver): Result<Entry, Fault> {
    CommasAreWithin(arguments);
    var commas := Commas(arguments);
    if commas == [] then Err(SingleArgument(name))
    else
      var id := resolver.id(arguments[..commas[0]]);
      if id.None? then Err(UnknownId(name))
      else
        var scope := resolver.scope(name, arguments[commas[0] + 1..]);
        if scope.None? then Err(UnknownScope(name))
        else if Named(earlier, name) then Err(DeclaredTwice(name))
        else Ok(Entry(name, id.value, scope.value, |commas| + 1))
  }

  /** The length of a class body at the start of `rest`, if one is there. */
  function BodyLength(rest: string): (length: Result<nat, Fault>)
    ensures length.Ok? ==> length.value <= |rest|
  {
    var next := Before(rest, IsBlank);
    if next < |rest| && rest[next] == '{' then
      (ClosingIsFirst(rest[next..]);
       match ClosingOf(rest[next..])
       case None => Err(NeverClosed)
       case Some(k) => Ok(next + k + 1))
    else Ok(0)
  }

  /** The constant `rest` begins with, and its length. */
  function ConstantOf(rest: string, earlier: seq<Entry>, resolver: Resolver): (read: Result<(Entry, nat), Fault>)
    ensures read.Ok? ==> 0 < read.value.1 <= |rest|
  {
    var nameEnd := Before(rest, InName);
    var open := nameEnd + Before(rest[nameEnd..], IsBlank);
    if nameEnd == 0 || rest[open] != '(' then Err(NotAConstant(LastName(earlier)))
    else
      ClosingIsFirst(rest[open..]);
      match ClosingOf(rest[open..])
      case None => Err(NeverClosed)
      case Some(k) =>
        match EntryOf(rest[..nameEnd], rest[open..][1..k], earlier, resolver)
        case Err(fault) => Err(fault)
        case Ok(entry) =>
          match BodyLength(rest[open + k + 1..])
          case Err(fault) => Err(fault)
          case Ok(length) => Ok((entry, open + k + 1 + length))
  }

  /** The constants from the start of `rest` on, after the ones read earlier. */
  function Read(rest: string, earlier: seq<Entry>, resolver: Resolver): Result<seq<Entry>, Fault>
    decreases |rest|
  {
    var lead := Leading(rest, Skipped);
    if lead == |rest| then Err(NoTerminator)
    else if rest[lead] == ';' then (if earlier == [] then Err(NoConstants) else Ok(earlier))
    else
      match ConstantOf(rest[lead..], earlier, resolver)
      case Err(fault) => Err(fault)
      case Ok((entry, length)) => Read(rest[lead + length..], earlier + [entry], resolver)
  }

  // ---------- The program's loops ----------

  /** Inside a bracket and up to where it closes the depth never goes below zero. */
  method FindCommas(arguments: string) returns (commas: seq<nat>)
    requires forall j :: 0 <= j <= |arguments| ==> Net(arguments[..j]) >= 0
    ensures commas == Commas(arguments)
  {
    commas := [];
    var depth: nat := 0;
    for index := 0 to |arguments|
      invariant depth == Net(arguments[..index])
      invariant commas == Commas(arguments[..index])
    {
      assert arguments[..index + 1][..index] == arguments[..index];
      assert Net(arguments[..index + 1]) >= 0;
      if Opens(arguments[index]) {
        depth := depth + 1;
      } else if Closes(arguments[index]) {
        depth := depth - 1;
      }
      if arguments[index] == ',' && depth == 0 {
        commas := commas + [index];
      }
    }
    assert arguments[..|arguments|] == arguments;
  }

  lemma ArgumentsStayOpen(rest: string, k: nat)
    requires rest != "" && Opens(rest[0]) && ClosingOf(rest) == Some(k)
    ensures 0 < k < |rest|
    ensures forall j :: 0 <= j <= |rest[1..k]| ==> Net(rest[1..k][..j]) >= 0
  {
    hide Net, ClosingOf;
    ClosingIsFirst(rest);
    forall j | 0 <= j <= |rest[1..k]| ensures Net(rest[1..k][..j]) >= 0 {
      NetOfPrefix(rest, j + 1);
      assert rest[1..][..j] == rest[1..k][..j];
    }
  }

  method SkipBody(body: string, after: nat) returns (length: Result<nat, Fault>)
    requires after <= |body|
    ensures length == BodyLength(body[after..])
  {
    hide Leading, Net, ClosingOf;
    var next := after + Before(body[after..], IsBlank);
    assert body[after..][next - after..] == body[next..];
    if next < |body| && body[next] == '{' {
      var end := FindClosing(body, next);
      if end.None? {
        return Err(NeverClosed);
      }
      return Ok(end.value + 1 - after);
    }
    return Ok(0);
  }

  method ReadConstant(body: string, cursor: nat, earlier: seq<Entry>, resolver: Resolver)
    returns (read: Result<(Entry, nat), Fault>)
    requires cursor < |body|
    ensures read == ConstantOf(body[cursor..], earlier, resolver)
  {
    hide Leading, Net, Commas, ClosingOf, Named, EntryOf, BodyLength, Before;
    ghost var rest := body[cursor..];
    var nameEnd := cursor + Before(body[cursor..], InName);
    assert rest[nameEnd - cursor..] == body[nameEnd..];
    var name := body[cursor..nameEnd];
    assert rest[..nameEnd - cursor] == name;
    var open := nameEnd + Before(body[nameEnd..], IsBlank);
    if name == "" || body[open] != '(' {
      return Err(NotAConstant(LastName(earlier)));
    }
    var close := FindClosing(body, open);
    assert rest[open - cursor..] == body[open..];
    if close.None? {
      return Err(NeverClosed);
    }
    ArgumentsStayOpen(body[open..], close.value - open);
    var arguments := body[open + 1..close.value];
    assert body[open..][1..close.value - open] == arguments;
    var entry := ReadEntry(name, arguments, earlier, resolver);
    if entry.Err? {
      return Err(entry.error);
    }
    var after := close.value + 1;
    assert rest[after - cursor..] == body[after..];
    var length := SkipBody(body, after);
    if length.Err? {
      return Err(length.error);
    }
    return Ok((entry.value, after + length.value - cursor));
  }

  method ReadEntry(name: string, arguments: string, earlier: seq<Entry>, resolver: Resolver)
    returns (entry: Result<Entry, Fault>)
    requires forall j :: 0 <= j <= |arguments| ==> Net(arguments[..j]) >= 0
    ensures entry == EntryOf(name, arguments, earlier, resolver)
  {
    hide Net, Commas;
    var commas := FindCommas(arguments);
    CommasAreWithin(arguments);
    if commas == [] {
      return Err(SingleArgument(name));
    }
    var id := resolver.id(arguments[..commas[0]]);
    if id.None? {
      return Err(UnknownId(name));
    }
    var scope := resolver.scope(name, arguments[commas[0] + 1..]);
    if scope.None? {
      return Err(UnknownScope(name));
    }
    if Named(earlier, name) {
      return Err(DeclaredTwice(name));
    }
    return Ok(Entry(name, id.value, scope.value, |commas| + 1));
  }

  method ReadConstants(body: string, resolver: Resolver) returns (read: Result<seq<Entry>, Fault>)
    ensures read == Read(body, [], resolver)
  {
    hide ConstantOf, Leading;
    var entries: seq<Entry> := [];
    var cursor: nat := 0;
    assert body[0..] == body;
    while true
      invariant cursor <= |body|
      invariant Read(body[cursor..], entries, resolver) == Read(body, [], resolver)
      decreases |body| - cursor
    {
      ghost var rest := body[cursor..];
      var lead := Leading(body[cursor..], Skipped);
      if lead == |body[cursor..]| {
        return Err(NoTerminator);
      }
      cursor := cursor + lead;
      if body[cursor] == ';' {
        break;
      }
      assert rest[lead..] == body[cursor..];
      var one := ReadConstant(body, cursor, entries, resolver);
      if one.Err? {
        return Err(one.error);
      }
      assert rest[lead + one.value.1..] == body[cursor + one.value.1..];
      entries := entries + [one.value.0];
      cursor := cursor + one.value.1;
    }
    if entries == [] {
      return Err(NoConstants);
    }
    return Ok(entries);
  }
}
