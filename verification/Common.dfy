/** What several modules share. */
module Common {

  datatype Option<+T> = None | Some(value: T)

  datatype Result<+T, +E> = Ok(value: T) | Err(error: E)
}

/** Sums of multisets. */
module Multisets {

  lemma Swap<T>(a: multiset<T>, b: multiset<T>, c: multiset<T>)
    ensures (a + b) + c == (a + c) + b
  {}

  lemma Cancel<T>(a: multiset<T>, b: multiset<T>, c: multiset<T>)
    requires a + c == b + c
    ensures a == b
  {
    forall x ensures a[x] == b[x] {
      assert (a + c)[x] == (b + c)[x];
    }
  }
}

/** How many numbers there are between two. */
module Counting {

  /** Numbers between `low` and `high` are at most as many as there are. */
  lemma {:induction false} CountBetween(s: set<int>, low: int, high: int)
    requires low <= high && forall j :: j in s ==> low <= j <= high
    ensures |s| <= high - low + 1
    decreases high - low
  {
    if low == high {
      assert forall j :: j in s ==> low <= j <= high;
      assert s <= {low};
      SubsetIsSmaller(s, {low});
    } else {
      CountBetween(s - {high}, low, high - 1);
      assert s <= (s - {high}) + {high};
      SubsetIsSmaller(s, (s - {high}) + {high});
    }
  }

  lemma {:induction false} SubsetIsSmaller<T>(s: set<T>, t: set<T>)
    requires s <= t
    ensures |s| <= |t|
  {
    if s != {} {
      var x :| x in s;
      SubsetIsSmaller(s - {x}, t - {x});
    }
  }

  lemma {:induction false} AllApart<T>(s: seq<T>)
    requires forall i, j :: 0 <= i < j < |s| ==> s[i] != s[j]
    ensures |(set x | x in s)| == |s|
  {
    if s == [] {
      assert (set x | x in s) == {};
    } else {
      var init, last := s[..|s| - 1], s[|s| - 1];
      AllApart(init);
      assert (set x | x in s) == (set x | x in init) + {last};
    }
  }

  /** More numbers than there are in a range have one twice. */
  lemma Repeats(s: seq<int>, low: int, high: int) returns (a: nat, b: nat)
    requires |s| > high - low && forall k :: 0 <= k < |s| ==> low <= s[k] < high
    requires s != []
    ensures a < b < |s| && s[a] == s[b]
  {
    if forall i, j :: 0 <= i < j < |s| ==> s[i] != s[j] {
      AllApart(s);
      assert low <= s[0] < high;
      CountBetween((set x | x in s), low, high - 1);
      assert false;
    } else {
      a, b :| 0 <= a < b < |s| && s[a] == s[b];
    }
  }
}

/** The library sort the program calls as `sort_by_key`: by an integer key, stable. */
module StableSort {

  datatype Keyed<+T> = Keyed(key: int, item: T)

  ghost predicate Sorted<T>(s: seq<Keyed<T>>) {
    forall i, j :: 0 <= i < j < |s| ==> s[i].key <= s[j].key
  }

  ghost predicate AllUpTo<T>(s: seq<Keyed<T>>, bound: int) {
    forall i :: 0 <= i < |s| ==> s[i].key <= bound
  }

  ghost predicate AllAbove<T>(s: seq<Keyed<T>>, bound: int) {
    forall i :: 0 <= i < |s| ==> s[i].key > bound
  }

  /** `x` put after every entry of the sorted `s` whose key is not larger. */
  function Insert<T>(s: seq<Keyed<T>>, x: Keyed<T>): seq<Keyed<T>> {
    if s == [] || s[|s| - 1].key <= x.key then s + [x]
    else Insert(s[..|s| - 1], x) + [s[|s| - 1]]
  }

  function SortByKey<T>(s: seq<Keyed<T>>): seq<Keyed<T>> {
    if s == [] then [] else Insert(SortByKey(s[..|s| - 1]), s[|s| - 1])
  }

  /** The entries of `s` under one key, in their order. */
  function Under<T>(s: seq<Keyed<T>>, key: int): seq<Keyed<T>> {
    if s == [] then []
    else Under(s[..|s| - 1], key) + (if s[|s| - 1].key == key then [s[|s| - 1]] else [])
  }

  lemma UnderOfAppend<T>(s: seq<Keyed<T>>, x: Keyed<T>, key: int)
    ensures Under(s + [x], key) == Under(s, key) + (if x.key == key then [x] else [])
  {
    assert (s + [x])[..|s|] == s;
  }

  lemma {:induction false} InsertAdds<T>(s: seq<Keyed<T>>, x: Keyed<T>)
    ensures multiset(Insert(s, x)) == multiset(s) + multiset{x}
  {
    if s != [] && s[|s| - 1].key > x.key {
      InsertAdds(s[..|s| - 1], x);
      assert s == s[..|s| - 1] + [s[|s| - 1]];
    }
  }

  lemma InsertStaysInBounds<T>(s: seq<Keyed<T>>, x: Keyed<T>, bound: int)
    ensures AllUpTo(s, bound) && x.key <= bound ==> AllUpTo(Insert(s, x), bound)
    ensures AllAbove(s, bound) && x.key > bound ==> AllAbove(Insert(s, x), bound)
  {}

  lemma {:induction false} InsertSorts<T>(s: seq<Keyed<T>>, x: Keyed<T>)
    requires Sorted(s)
    ensures Sorted(Insert(s, x))
  {
    if s != [] && s[|s| - 1].key > x.key {
      InsertSorts(s[..|s| - 1], x);
      InsertStaysInBounds(s[..|s| - 1], x, s[|s| - 1].key);
    }
  }

  lemma {:induction false} InsertUnder<T>(s: seq<Keyed<T>>, x: Keyed<T>, key: int)
    requires Sorted(s)
    ensures Under(Insert(s, x), key) == Under(s, key) + (if x.key == key then [x] else [])
  {
    if s == [] || s[|s| - 1].key <= x.key {
      UnderOfAppend(s, x, key);
    } else {
      InsertUnder(s[..|s| - 1], x, key);
      UnderOfAppend(Insert(s[..|s| - 1], x), s[|s| - 1], key);
    }
  }

  /** Sorting keeps every entry, puts the keys in order and leaves equal keys in their order, which
      settles the result. */
  lemma {:induction false} SortIsStable<T>(s: seq<Keyed<T>>, key: int)
    ensures Sorted(SortByKey(s))
    ensures multiset(SortByKey(s)) == multiset(s)
    ensures Under(SortByKey(s), key) == Under(s, key)
  {
    if s != [] {
      var init, x := s[..|s| - 1], s[|s| - 1];
      assert s == init + [x];
      SortIsStable(init, key);
      InsertSorts(SortByKey(init), x);
      InsertAdds(SortByKey(init), x);
      InsertUnder(SortByKey(init), x, key);
    }
  }

  lemma SortKeepsEntries<T>(s: seq<Keyed<T>>)
    ensures forall x :: x in SortByKey(s) <==> x in s
  {
    SortIsStable(s, 0);
    forall x ensures x in SortByKey(s) <==> x in s {
      assert x in SortByKey(s) <==> x in multiset(SortByKey(s));
      assert x in s <==> x in multiset(s);
    }
  }

  lemma {:induction false} SortedIsUnchanged<T>(s: seq<Keyed<T>>)
    requires Sorted(s)
    ensures SortByKey(s) == s
  {
    if s != [] {
      SortedIsUnchanged(s[..|s| - 1]);
    }
  }

  /** The entries of `s` with a key up to `bound`, and the ones above it, in their order. */
  function UpTo<T>(s: seq<Keyed<T>>, bound: int): seq<Keyed<T>> {
    if s == [] then []
    else UpTo(s[..|s| - 1], bound) + (if s[|s| - 1].key <= bound then [s[|s| - 1]] else [])
  }

  function Above<T>(s: seq<Keyed<T>>, bound: int): seq<Keyed<T>> {
    if s == [] then []
    else Above(s[..|s| - 1], bound) + (if s[|s| - 1].key > bound then [s[|s| - 1]] else [])
  }

  /** Sorting a sequence is sorting what is up to a bound and then what is above it. */
  lemma {:induction false} SortSplits<T>(s: seq<Keyed<T>>, bound: int)
    ensures SortByKey(s) == SortByKey(UpTo(s, bound)) + SortByKey(Above(s, bound))
  {
    if s != [] {
      assert s == s[..|s| - 1] + [s[|s| - 1]];
      SortSplits(s[..|s| - 1], bound);
      SplitOfLonger(s[..|s| - 1], s[|s| - 1], bound);
    }
  }

  lemma SplitOfLonger<T>(init: seq<Keyed<T>>, x: Keyed<T>, bound: int)
    requires SortByKey(init) == SortByKey(UpTo(init, bound)) + SortByKey(Above(init, bound))
    ensures SortByKey(init + [x]) == SortByKey(UpTo(init + [x], bound)) + SortByKey(Above(init + [x], bound))
  {
    hide Insert, SortByKey, UpTo, Above;
    var low, high := UpTo(init, bound), Above(init, bound);
    SplitsBound(init, bound);
    SplitsOfAppend(init, x, bound);
    SortOfAppend(init, x);
    if x.key <= bound {
      SortOfAppend(low, x);
      InsertBelow(SortByKey(low), SortByKey(high), x);
    } else {
      SortOfAppend(high, x);
      InsertAbove(SortByKey(low), SortByKey(high), x);
    }
  }

  lemma SplitsOfAppend<T>(s: seq<Keyed<T>>, x: Keyed<T>, bound: int)
    ensures UpTo(s + [x], bound) == if x.key <= bound then UpTo(s, bound) + [x] else UpTo(s, bound)
    ensures Above(s + [x], bound) == if x.key <= bound then Above(s, bound) else Above(s, bound) + [x]
  {
    assert (s + [x])[..|s|] == s;
  }

  lemma SortOfAppend<T>(s: seq<Keyed<T>>, x: Keyed<T>)
    ensures SortByKey(s + [x]) == Insert(SortByKey(s), x)
  {
    assert (s + [x])[..|s|] == s;
  }

  lemma {:induction false} SplitsBound<T>(s: seq<Keyed<T>>, bound: int)
    ensures AllUpTo(SortByKey(UpTo(s, bound)), bound)
    ensures AllAbove(SortByKey(Above(s, bound)), bound)
  {
    if s != [] {
      var init, x := s[..|s| - 1], s[|s| - 1];
      SplitsBound(init, bound);
      assert s == init + [x];
      SplitsOfAppend(init, x, bound);
      if x.key <= bound {
        SortOfAppend(UpTo(init, bound), x);
        InsertStaysInBounds(SortByKey(UpTo(init, bound)), x, bound);
      } else {
        SortOfAppend(Above(init, bound), x);
        InsertStaysInBounds(SortByKey(Above(init, bound)), x, bound);
      }
    }
  }

  lemma {:induction false} InsertBelow<T>(low: seq<Keyed<T>>, high: seq<Keyed<T>>, x: Keyed<T>)
    requires AllAbove(high, x.key)
    ensures Insert(low + high, x) == Insert(low, x) + high
  {
    if high == [] {
      assert low + high == low;
    } else {
      var init, last := high[..|high| - 1], high[|high| - 1];
      assert (low + high)[..|low + high| - 1] == low + init;
      InsertBelow(low, init, x);
    }
  }

  lemma {:induction false} InsertAbove<T>(low: seq<Keyed<T>>, high: seq<Keyed<T>>, x: Keyed<T>)
    requires AllUpTo(low, x.key)
    ensures Insert(low + high, x) == low + Insert(high, x)
  {
    if high == [] {
      assert low + high == low;
    } else if high[|high| - 1].key > x.key {
      var init := high[..|high| - 1];
      assert (low + high)[..|low + high| - 1] == low + init;
      InsertAbove(low, init, x);
    }
  }

  lemma {:induction false} SplitsOfTwo<T>(s: seq<Keyed<T>>, t: seq<Keyed<T>>, bound: int)
    ensures UpTo(s + t, bound) == UpTo(s, bound) + UpTo(t, bound)
    ensures Above(s + t, bound) == Above(s, bound) + Above(t, bound)
  {
    if t == [] {
      assert s + t == s;
    } else {
      SplitsOfTwo(s, t[..|t| - 1], bound);
      assert s + t == (s + t[..|t| - 1]) + [t[|t| - 1]];
      SplitsOfAppend(s + t[..|t| - 1], t[|t| - 1], bound);
    }
  }

  lemma {:induction false} AllOfUpTo<T>(s: seq<Keyed<T>>, bound: int)
    requires AllUpTo(s, bound)
    ensures UpTo(s, bound) == s && Above(s, bound) == []
  {
    if s != [] {
      AllOfUpTo(s[..|s| - 1], bound);
    }
  }

  lemma {:induction false} AllOfAbove<T>(s: seq<Keyed<T>>, bound: int)
    requires AllAbove(s, bound)
    ensures UpTo(s, bound) == [] && Above(s, bound) == s
  {
    if s != [] {
      AllOfAbove(s[..|s| - 1], bound);
    }
  }
}
