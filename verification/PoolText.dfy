/** Resolving an index of the constant pool to text (`res` in class-disassembler.py), and when that
    ends. */
module PoolText {
  import opened Common
  import opened Bytes
  import opened ClassFile
  import opened Counting

  /** What `res` prints for an index, or that it raises, or that it calls itself deeper than allowed. */
  datatype Shown =
    | Unknown
    | Literal(text: seq<Byte>)
    | Decimal(integer: int)
    | KindName(of: Entry)
    | Dotted(left: Shown, right: Shown)
    | Coloned(before: Shown, after: Shown)
    | IndexError
    | TooDeep

  function Both(left: Shown, right: Shown, coloned: bool): Shown {
    if left.TooDeep? || left.IndexError? then left
    else if right.TooDeep? || right.IndexError? then right
    else if coloned then Coloned(left, right)
    else Dotted(left, right)
  }

  /** `res`, with at most `depth` calls one inside another. */
  function Res(pool: Pool, i: nat, depth: nat): Shown
    decreases depth
  {
    if depth == 0 then TooDeep
    else if i >= |pool| then IndexError
    else if pool[i].None? then Unknown
    else
      match pool[i].value
      case Utf8(text) => Literal(text)
      case Number(integer) => Decimal(integer)
      case Ref(kind, index) =>
        if kind == Class || kind == Str then Res(pool, index, depth - 1) else KindName(pool[i].value)
      case Pair(kind, first, second) =>
        if kind == Dynamic || kind == InvokeDynamic then KindName(pool[i].value)
        else Both(Res(pool, first, depth - 1), Res(pool, second, depth - 1), kind == NameAndType)
      case other => KindName(other)
  }

  ghost predicate IsText(pool: Pool, i: nat) {
    i < |pool| && pool[i].Some? && pool[i].value.Utf8?
  }

  ghost predicate IsClass(pool: Pool, i: nat) {
    i < |pool| && pool[i].Some? && pool[i].value.Ref? && pool[i].value.kind == Class
  }

  ghost predicate IsNameAndType(pool: Pool, i: nat) {
    i < |pool| && pool[i].Some? && pool[i].value.Pair? && pool[i].value.pairKind == NameAndType
  }

  /** What section 4.4 asks of the entries the reader follows. */
  ghost predicate WellLinked(pool: Pool) {
    forall i :: 0 <= i < |pool| && pool[i].Some? ==>
      match pool[i].value
      case Ref(kind, index) => (kind == Class || kind == Str) ==> IsText(pool, index)
      case Pair(kind, first, second) =>
        && (kind == NameAndType ==> IsText(pool, first) && IsText(pool, second))
        && ((kind == Field || kind == Method || kind == InterfaceMethod)
           ==> IsClass(pool, first) && IsNameAndType(pool, second))
      case _ => true
  }

  /** In a well-linked pool every index resolves within three calls, and more room changes nothing. */
  lemma ResEnds(pool: Pool, i: nat, depth: nat)
    requires WellLinked(pool) && depth >= 3
    ensures Res(pool, i, depth) == Res(pool, i, 3)
    ensures !Res(pool, i, 3).TooDeep?
    ensures i < |pool| ==> !Res(pool, i, 3).IndexError?
  {
    if i < |pool| && pool[i].Some? && pool[i].value.Pair? && pool[i].value.pairKind.NameAndType? {
      TextEnds(pool, pool[i].value.first, depth - 1);
      TextEnds(pool, pool[i].value.second, depth - 1);
    } else if i < |pool| && pool[i].Some? && pool[i].value.Pair?
              && IsClass(pool, pool[i].value.first) && IsNameAndType(pool, pool[i].value.second) {
      var entry := pool[i].value;
      var pair := pool[entry.second].value;
      TextEnds(pool, pool[entry.first].value.index, depth - 2);
      TextEnds(pool, pair.first, depth - 2);
      TextEnds(pool, pair.second, depth - 2);
    } else if i < |pool| && pool[i].Some? && pool[i].value.Ref? && IsText(pool, pool[i].value.index) {
      TextEnds(pool, pool[i].value.index, depth - 1);
    }
  }

  lemma TextEnds(pool: Pool, i: nat, depth: nat)
    requires IsText(pool, i) && depth >= 1
    ensures Res(pool, i, depth) == Literal(pool[i].value.text)
  {}

  /** What is printed: a class or a string by its text, a field or a method by its class, a dot, its name, a colon
      and its descriptor. */
  lemma ReferencesAreNamed(pool: Pool, i: nat)
    requires WellLinked(pool) && i < |pool| && pool[i].Some?
    ensures var e, shown := pool[i].value, Res(pool, i, 3);
            && (e.Utf8? ==> shown == Literal(e.text))
            && (e.Number? ==> shown == Decimal(e.integer))
            && (e.Ref? && (e.kind == Class || e.kind == Str) ==> shown == Literal(pool[e.index].value.text))
            && (e.Pair? && e.pairKind == NameAndType ==>
                  shown == Coloned(Literal(pool[e.first].value.text), Literal(pool[e.second].value.text)))
            && (e.Pair? && e.pairKind in {Field, Method, InterfaceMethod} ==>
                  var owner, named := pool[pool[e.first].value.index].value, pool[e.second].value;
                  shown == Dotted(Literal(owner.text),
                                  Coloned(Literal(pool[named.first].value.text),
                                          Literal(pool[named.second].value.text))))
            && (e.Number8? || e.Handle? ==> shown == KindName(e))
            && (e.Ref? && e.kind != Class && e.kind != Str ==> shown == KindName(e))
            && (e.Pair? && e.pairKind in {Dynamic, InvokeDynamic} ==> shown == KindName(e))
  {
    if pool[i].value.Pair? && pool[i].value.pairKind in {Field, Method, InterfaceMethod} {
      assert IsClass(pool, pool[i].value.first) && IsNameAndType(pool, pool[i].value.second);
    }
  }

  // ---------- When it ends, in any pool ----------

  /** The call returns: it neither raises nor goes on calling itself. */
  predicate Settled(shown: Shown) {
    !shown.TooDeep? && !shown.IndexError?
  }

  /** Once calls this deep are enough, deeper ones change nothing. */
  lemma {:induction false} DeeperIsTheSame(pool: Pool, i: nat, depth: nat, deeper: nat)
    requires depth <= deeper && !Res(pool, i, depth).TooDeep?
    ensures Res(pool, i, deeper) == Res(pool, i, depth)
    decreases depth
  {
    if depth > 0 && i < |pool| && pool[i].Some? {
      match pool[i].value
      case Ref(kind, index) =>
        if kind == Class || kind == Str {
          DeeperIsTheSame(pool, index, depth - 1, deeper - 1);
        }
      case Pair(kind, first, second) =>
        if kind != Dynamic && kind != InvokeDynamic {
          DeeperIsTheSame(pool, first, depth - 1, deeper - 1);
          if Settled(Res(pool, first, depth - 1)) {
            DeeperIsTheSame(pool, second, depth - 1, deeper - 1);
          }
        }
      case _ =>
    }
  }

  ghost predicate Returns(pool: Pool, i: nat) {
    exists depth: nat :: Settled(Res(pool, i, depth))
  }

  /** Resolving `i` comes to resolve `j`: a class and a string follow their one link, a pair its first and,
      if that returns, its second. */
  ghost predicate Follows(pool: Pool, i: nat, j: nat) {
    i < |pool| && pool[i].Some?
    && match pool[i].value
       case Ref(kind, index) => (kind == Class || kind == Str) && j == index
       case Pair(kind, first, second) =>
         kind != Dynamic && kind != InvokeDynamic && (j == first || (j == second && Returns(pool, first)))
       case _ => false
  }

  ghost predicate Path(pool: Pool, xs: seq<nat>) {
    forall k :: 0 < k < |xs| ==> Follows(pool, xs[k - 1], xs[k])
  }

  /** Following links from `i` comes round. */
  ghost predicate ComesRound(pool: Pool, i: nat) {
    exists xs: seq<nat>, a: nat, b: nat :: IsRound(pool, i, xs, a, b)
  }

  ghost predicate IsRound(pool: Pool, i: nat, xs: seq<nat>, a: nat, b: nat) {
    a < b < |xs| && xs[0] == i && Path(pool, xs) && xs[a] == xs[b]
  }

  lemma TooDeepFollows(pool: Pool, i: nat, depth: nat) returns (j: nat)
    requires depth > 0 && Res(pool, i, depth).TooDeep?
    ensures Follows(pool, i, j) && Res(pool, j, depth - 1).TooDeep?
  {
    match pool[i].value
    case Ref(_, index) => j := index;
    case Pair(_, first, second) =>
      j := if Res(pool, first, depth - 1).TooDeep? then first else second;
  }

  /** Calls that go too deep follow a path as long as they are deep. */
  lemma {:induction false} DeepPath(pool: Pool, i: nat, depth: nat) returns (xs: seq<nat>)
    requires Res(pool, i, depth).TooDeep?
    ensures |xs| == depth + 1 && xs[0] == i && Path(pool, xs)
    decreases depth
  {
    hide Res, Follows;
    if depth == 0 {
      xs := [i];
    } else {
      var j := TooDeepFollows(pool, i, depth);
      var rest := DeepPath(pool, j, depth - 1);
      xs := [i] + rest;
      forall k | 0 < k < |xs| ensures Follows(pool, xs[k - 1], xs[k]) {
        if k > 1 {
          assert Follows(pool, rest[k - 2], rest[k - 1]);
        }
      }
    }
  }

  /** More calls inside one another than the pool has entries come round. */
  lemma DeepComesRound(pool: Pool, i: nat)
    requires Res(pool, i, |pool| + 1).TooDeep?
    ensures ComesRound(pool, i)
  {
    hide Res;
    var xs := DeepPath(pool, i, |pool| + 1);
    var inside := xs[..|pool| + 1];
    forall k | 0 <= k < |inside| ensures 0 <= inside[k] < |pool| {
      assert Follows(pool, xs[k], xs[k + 1]);
    }
    var a, b := Repeats(inside, 0, |pool|);
    assert IsRound(pool, i, xs, a, b);
  }

  lemma FollowsTooDeep(pool: Pool, i: nat, j: nat, depth: nat)
    requires Follows(pool, i, j) && Res(pool, j, depth).TooDeep?
    ensures Res(pool, i, depth + 1).TooDeep?
  {
    match pool[i].value
    case Ref(_, _) =>
    case Pair(_, first, _) =>
      if j != first && !Res(pool, first, depth).TooDeep? {
        var enough: nat :| Settled(Res(pool, first, enough));
        if enough <= depth {
          DeeperIsTheSame(pool, first, enough, depth);
        } else {
          DeeperIsTheSame(pool, first, depth, enough);
        }
      }
  }

  lemma {:induction false} RoundIsTooDeep(pool: Pool, i: nat, xs: seq<nat>, a: nat, b: nat, k: nat, depth: nat)
    requires IsRound(pool, i, xs, a, b) && k < b
    ensures Res(pool, xs[k], depth).TooDeep?
    decreases depth
  {
    hide Res, Follows;
    if depth == 0 {
      NoCalls(pool, xs[k]);
    } else {
      RoundIsTooDeep(pool, i, xs, a, b, if k + 1 < b then k + 1 else a, depth - 1);
      assert Follows(pool, xs[k], xs[k + 1]);
      FollowsTooDeep(pool, xs[k], xs[k + 1], depth - 1);
    }
  }

  lemma NoCalls(pool: Pool, i: nat)
    ensures Res(pool, i, 0).TooDeep?
  {}

  /** In any pool resolving an index ends exactly when following its links never comes round, and then
      one call more than the pool has entries is deep enough. */
  lemma ResEndsExactly(pool: Pool, i: nat, depth: nat)
    ensures (exists d: nat :: !Res(pool, i, d).TooDeep?) <==> !ComesRound(pool, i)
    ensures !ComesRound(pool, i) <==> !Res(pool, i, |pool| + 1).TooDeep?
    ensures depth >= |pool| + 1 ==> Res(pool, i, depth) == Res(pool, i, |pool| + 1)
  {
    hide Res, Follows, Path;
    if Res(pool, i, |pool| + 1).TooDeep? {
      DeepComesRound(pool, i);
    } else if depth >= |pool| + 1 {
      DeeperIsTheSame(pool, i, |pool| + 1, depth);
    }
    if ComesRound(pool, i) {
      var xs: seq<nat>, a: nat, b: nat :| IsRound(pool, i, xs, a, b);
      forall d: nat ensures Res(pool, i, d).TooDeep? {
        RoundIsTooDeep(pool, i, xs, a, b, 0, d);
      }
      TooDeepIsOne(Res(pool, i, depth), Res(pool, i, |pool| + 1));
    }
  }

  lemma TooDeepIsOne(a: Shown, b: Shown)
    requires a.TooDeep? && b.TooDeep?
    ensures a == b
  {}

  // ---------- A class that names itself ----------

  const SELF_NAMED := File([0, 0, 0, 0, 0, 0, 0, 0], [Constant(Ref(Class, 1), false)], 0, 1, 0, [], [], [], [])

  /** A class file whose only entry is a class that names itself is read, and that entry never resolves,
      however deep the calls may go. */
  lemma {:induction false} SelfNamedClassNeverEnds(depth: nat)
    ensures FileFits(SELF_NAMED)
    ensures Parse(Serialise(SELF_NAMED)) == Some(Parsed([None, Some(Ref(Class, 1))], []))
    ensures ComesRound([None, Some(Ref(Class, 1))], 1) && Res([None, Some(Ref(Class, 1))], 1, depth).TooDeep?
  {
    hide Serialise, Parse, Res;
    var pool: Pool := [None, Some(Ref(Class, 1))];
    assert PoolOf(SELF_NAMED.entries) == pool by { OneSlot(Constant(Ref(Class, 1), false)); }
    ParseInvertsSerialise(SELF_NAMED);
    assert IsRound(pool, 1, [1, 1], 0, 1);
    RoundIsTooDeep(pool, 1, [1, 1], 0, 1, 0, depth);
  }

  lemma OneSlot(c: Constant)
    requires !c.entry.Number8?
    ensures Slots([c]) == [Some(c.entry)]
  {
    assert [c][1..] == [];
  }
}
