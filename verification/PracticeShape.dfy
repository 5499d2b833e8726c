/** The order of a practice slice: what is put in at the start, the timelines of the range as they
    stood, what is put in at the end. */
module PracticeShape {
  import opened StableSort
  import opened PracticeSlice

  ghost predicate InOrder(lines: seq<TimeLine>) {
    forall i, j :: 0 <= i < j < |lines| ==> lines[i].time <= lines[j].time
  }

  ghost predicate AllWithin(lines: seq<TimeLine>, from: int, to: int) {
    forall i :: 0 <= i < |lines| ==> from <= lines[i].time <= to
  }

  lemma {:induction false} PrioritisedAt(lines: seq<TimeLine>, priority: int)
    ensures |Prioritised(lines, priority)| == |lines|
    ensures forall i :: 0 <= i < |lines| ==> Prioritised(lines, priority)[i].key == 3 * lines[i].time + priority
  {
    if lines != [] {
      PrioritisedAt(lines[..|lines| - 1], priority);
    }
  }

  lemma {:induction false} LinesOfPrioritised(lines: seq<TimeLine>, priority: int)
    ensures LinesOf(Prioritised(lines, priority)) == lines
  {
    if lines != [] {
      LinesOfPrioritised(lines[..|lines| - 1], priority);
    }
  }

  lemma {:induction false} LinesOfTwo(first: seq<Keyed<TimeLine>>, second: seq<Keyed<TimeLine>>)
    ensures LinesOf(first + second) == LinesOf(first) + LinesOf(second)
  {
    if second == [] {
      assert first + second == first;
    } else {
      LinesOfTwo(first, second[..|second| - 1]);
      assert (first + second)[..|first + second| - 1] == first + second[..|second| - 1];
    }
  }

  lemma InRangeOfLonger(lines: seq<TimeLine>, line: TimeLine, from: int, to: int)
    ensures InRange(lines + [line], from, to)
            == if from <= line.time <= to then InRange(lines, from, to) + [line] else InRange(lines, from, to)
  {
    assert (lines + [line])[..|lines|] == lines;
    assert InRange(lines, from, to) + [] == InRange(lines, from, to);
  }

  lemma {:induction false} InRangeIsWithin(lines: seq<TimeLine>, from: int, to: int)
    ensures AllWithin(InRange(lines, from, to), from, to)
  {
    if lines != [] {
      InRangeIsWithin(lines[..|lines| - 1], from, to);
    }
  }

  ghost predicate NoneLater(lines: seq<TimeLine>, t: int) {
    forall i :: 0 <= i < |lines| ==> lines[i].time <= t
  }

  lemma {:induction false} InRangeIsNotLater(lines: seq<TimeLine>, from: int, to: int, t: int)
    requires NoneLater(lines, t)
    ensures NoneLater(InRange(lines, from, to), t)
  {
    if lines != [] {
      InRangeIsNotLater(lines[..|lines| - 1], from, to, t);
    }
  }

  lemma {:induction false} InRangeIsInOrder(lines: seq<TimeLine>, from: int, to: int)
    requires InOrder(lines)
    ensures InOrder(InRange(lines, from, to))
  {
    if lines != [] {
      InRangeIsInOrder(lines[..|lines| - 1], from, to);
      InRangeIsNotLater(lines[..|lines| - 1], from, to, lines[|lines| - 1].time);
    }
  }

  lemma {:induction false} CutLinesAreAt(model: Model, t: int, cuts: seq<Cut>)
    requires CutsFit(cuts, model.key)
    ensures AllWithin(CutLines(model, t, cuts), t, t)
  {
    hide LastUpTo;
    if cuts != [] {
      CutLinesAreAt(model, t, cuts[..|cuts| - 1]);
    }
  }

  lemma BoundariesAreAt(model: Model, from: int, to: int)
    requires RowsFit(model.timelines, model.key)
    ensures AllWithin(StartLines(model, from, to), from, from)
    ensures AllWithin(EndLines(model, from, to), to, to)
  {
    hide CutLines, ScanAll, Prioritised;
    PictureIsAtTheStart(model, from);
    AllCutsFit(model.timelines, model.key, from, to);
    var scan := ScanAll(model.timelines, model.key, from, to);
    CutLinesAreAt(model, from, scan.starts);
    CutLinesAreAt(model, to, scan.ends);
  }

  lemma GroupsSplit(middle: seq<TimeLine>, first: seq<TimeLine>, last: seq<TimeLine>, from: int, to: int)
    requires from <= to
    requires AllWithin(middle, from, to) && AllWithin(first, from, from) && AllWithin(last, to, to)
    ensures AllAbove(Prioritised(middle, 1), 3 * from)
    ensures AllUpTo(Prioritised(first, 0), 3 * from)
    ensures AllAbove(Prioritised(last, 2), 3 * from)
  {
    hide Prioritised;
    PrioritisedAt(middle, 1);
    PrioritisedAt(first, 0);
    PrioritisedAt(last, 2);
  }

  lemma GroupsAreSorted(middle: seq<TimeLine>, first: seq<TimeLine>, last: seq<TimeLine>, from: int, to: int)
    requires InOrder(middle) && AllWithin(middle, from, to) && AllWithin(first, from, from) && AllWithin(last, to, to)
    ensures Sorted(Prioritised(first, 0))
    ensures Sorted(Prioritised(middle, 1) + Prioritised(last, 2))
  {
    hide Prioritised;
    PrioritisedAt(middle, 1);
    PrioritisedAt(first, 0);
    PrioritisedAt(last, 2);
  }

  /** Sorting three groups of which the first is to come in the middle and is in order. */
  lemma SortThree(middle: seq<TimeLine>, first: seq<TimeLine>, last: seq<TimeLine>, from: int, to: int)
    requires from <= to
    requires InOrder(middle) && AllWithin(middle, from, to) && AllWithin(first, from, from) && AllWithin(last, to, to)
    ensures SortByKey(Prioritised(middle, 1) + (Prioritised(first, 0) + Prioritised(last, 2)))
            == Prioritised(first, 0) + (Prioritised(middle, 1) + Prioritised(last, 2))
  {
    hide SortByKey, Prioritised, UpTo, Above, Sorted, AllUpTo, AllAbove, AllWithin, InOrder;
    var a, b, c := Prioritised(middle, 1), Prioritised(first, 0), Prioritised(last, 2);
    GroupsSplit(middle, first, last, from, to);
    GroupsAreSorted(middle, first, last, from, to);
    SortSplits(a + (b + c), 3 * from);
    SplitsOfTwo(a, b + c, 3 * from);
    SplitsOfTwo(b, c, 3 * from);
    AllOfAbove(a, 3 * from);
    AllOfUpTo(b, 3 * from);
    AllOfAbove(c, 3 * from);
    assert [] + (b + []) == b && a + ([] + c) == a + c;
    SortedIsUnchanged(b);
    SortedIsUnchanged(a + c);
  }

  /** The timelines of a slice. */
  lemma SliceInOrder(model: Model, from: int, to: int)
    requires RowsFit(model.timelines, model.key) && InOrder(model.timelines) && from <= to
    ensures Slice(model, from, to).timelines
            == StartLines(model, from, to) + (InRange(model.timelines, from, to) + EndLines(model, from, to))
  {
    hide SortByKey, Prioritised, LinesOf, StartLines, EndLines, InRange;
    var middle, first, last :=
      InRange(model.timelines, from, to), StartLines(model, from, to), EndLines(model, from, to);
    InRangeIsInOrder(model.timelines, from, to);
    InRangeIsWithin(model.timelines, from, to);
    BoundariesAreAt(model, from, to);
    SortThree(middle, first, last, from, to);
    LinesOfTwo(Prioritised(first, 0), Prioritised(middle, 1) + Prioritised(last, 2));
    LinesOfTwo(Prioritised(middle, 1), Prioritised(last, 2));
    LinesOfPrioritised(middle, 1);
    LinesOfPrioritised(first, 0);
    LinesOfPrioritised(last, 2);
  }

  /** A slice is in the order of time and stays within its range. */
  lemma SliceStaysInRange(model: Model, from: int, to: int)
    requires RowsFit(model.timelines, model.key) && InOrder(model.timelines) && from <= to
    ensures InOrder(Slice(model, from, to).timelines)
    ensures AllWithin(Slice(model, from, to).timelines, from, to)
  {
    hide Slice, StartLines, EndLines, InRange;
    SliceInOrder(model, from, to);
    InRangeIsInOrder(model.timelines, from, to);
    InRangeIsWithin(model.timelines, from, to);
    BoundariesAreAt(model, from, to);
  }
}
