/** The tempo and scroll in force during a practice slice. */
module PracticeTempo {
  import opened Common
  import opened StableSort
  import opened PracticeSlice
  import opened PracticeShape
  import opened PracticeLane
  import opened PracticePlay

  datatype Tempo = Tempo(bpm: real, scroll: real)

  function TempoAt(model: Model, t: int): Tempo {
    match LastUpTo(model.timelines, t)
    case Some(line) => Tempo(line.bpm, line.scroll)
    case None => Tempo(model.initBpm, 1.0)
  }

  // ---------- What is in force ----------

  /** Line `k` is in force at `t`: it is at or before it, and no line after it is. */
  ghost predicate InForce(lines: seq<TimeLine>, t: int, k: int) {
    0 <= k < |lines| && lines[k].time <= t && forall j :: k < j < |lines| ==> lines[j].time > t
  }

  /** A tempo is in force: the one of the line in force, or the chart's initial one where no line is. */
  ghost predicate TempoInForce(model: Model, t: int, tempo: Tempo) {
    || (exists k :: InForce(model.timelines, t, k) && tempo == Tempo(model.timelines[k].bpm, model.timelines[k].scroll))
    || ((forall k :: 0 <= k < |model.timelines| ==> model.timelines[k].time > t) && tempo == Tempo(model.initBpm, 1.0))
  }

  lemma {:induction false} LastUpToIsInForce(lines: seq<TimeLine>, t: int) returns (k: int)
    ensures match LastUpTo(lines, t)
            case Some(line) => InForce(lines, t, k) && lines[k] == line
            case None => forall i :: 0 <= i < |lines| ==> lines[i].time > t
  {
    if lines == [] {
      k := -1;
    } else if lines[|lines| - 1].time <= t {
      k := |lines| - 1;
    } else {
      k := LastUpToIsInForce(lines[..|lines| - 1], t);
    }
  }

  /** The tempo the program looks up is the one in force, and no other is. */
  lemma TempoAtIsInForce(model: Model, t: int, tempo: Tempo)
    ensures TempoInForce(model, t, tempo) <==> tempo == TempoAt(model, t)
  {
    hide LastUpTo;
    var lines := model.timelines;
    var k := LastUpToIsInForce(lines, t);
    if TempoInForce(model, t, tempo) && LastUpTo(lines, t).Some? {
      assert lines[k].time <= t;
      var other :| InForce(lines, t, other) && tempo == Tempo(lines[other].bpm, lines[other].scroll);
      assert other == k;
    }
  }

  // ---------- Lines put in ----------

  ghost predicate AllInForce(model: Model, lines: seq<TimeLine>, t: int) {
    forall i :: 0 <= i < |lines| ==> lines[i].time == t && TempoInForce(model, t, Tempo(lines[i].bpm, lines[i].scroll))
  }

  lemma BoundaryIsInForce(model: Model, t: int)
    ensures TempoInForce(model, t, Tempo(BoundaryLine(model, t).bpm, BoundaryLine(model, t).scroll))
  {
    hide LastUpTo, TempoInForce;
    TempoAtIsInForce(model, t, TempoAt(model, t));
  }

  lemma {:induction false} CutLinesAreInForce(model: Model, t: int, cuts: seq<Cut>)
    requires CutsFit(cuts, model.key)
    ensures AllInForce(model, CutLines(model, t, cuts), t)
  {
    hide LastUpTo, TempoInForce;
    if cuts != [] {
      BoundaryIsInForce(model, t);
      CutLinesAreInForce(model, t, cuts[..|cuts| - 1]);
    }
  }

  /** Every line put in at a boundary carries the tempo and the scroll in force there. */
  lemma BoundariesAreInForce(model: Model, from: int, to: int)
    requires RowsFit(model.timelines, model.key)
    ensures AllInForce(model, StartLines(model, from, to), from)
    ensures AllInForce(model, EndLines(model, from, to), to)
  {
    hide CutLines, ScanAll, Carried, LastUpTo, TempoInForce;
    var scan := ScanAll(model.timelines, model.key, from, to);
    AllCutsFit(model.timelines, model.key, from, to);
    CutLinesAreInForce(model, from, scan.starts);
    CutLinesAreInForce(model, to, scan.ends);
    BoundaryIsInForce(model, from);
  }

  // ---------- The tempo of the slice ----------

  lemma {:induction false} LineOfTwo(first: seq<TimeLine>, second: seq<TimeLine>, t: int)
    ensures LastUpTo(first + second, t) == if LastUpTo(second, t).Some? then LastUpTo(second, t) else LastUpTo(first, t)
  {
    if second == [] {
      assert first + second == first;
    } else {
      LineOfTwo(first, second[..|second| - 1], t);
      assert (first + second)[..|first + second| - 1] == first + second[..|second| - 1];
    }
  }

  lemma {:induction false} NothingInRangeYet(lines: seq<TimeLine>, from: int, to: int)
    requires NoneLater(lines, from - 1)
    ensures InRange(lines, from, to) == []
  {
    if lines != [] {
      NothingInRangeYet(lines[..|lines| - 1], from, to);
    }
  }

  lemma LastOfLonger(lines: seq<TimeLine>, line: TimeLine, t: int)
    ensures LastUpTo(lines + [line], t) == if line.time <= t then Some(line) else LastUpTo(lines, t)
  {
    assert (lines + [line])[..|lines|] == lines;
  }

  lemma {:induction false} LineInRange(lines: seq<TimeLine>, from: int, to: int, t: int)
    requires InOrder(lines) && from <= t <= to
    ensures LastUpTo(InRange(lines, from, to), t).Some? ==> LastUpTo(InRange(lines, from, to), t) == LastUpTo(lines, t)
    ensures LastUpTo(InRange(lines, from, to), t).None? ==> LastUpTo(lines, t) == LastUpTo(lines, from)
  {
    hide InRange, LastUpTo;
    if lines == [] {
      NothingInRangeYet(lines, from, to);
      NoneUpTo(t);
      NoneUpTo(from);
    } else {
      var init, last := lines[..|lines| - 1], lines[|lines| - 1];
      assert lines == init + [last];
      LastOfLonger(init, last, t);
      LastOfLonger(init, last, from);
      if last.time < from {
        NothingInRangeYet(lines, from, to);
        NoneUpTo(t);
      } else {
        LineInRange(init, from, to, t);
        InRangeOfLonger(init, last, from, to);
        LastOfLonger(InRange(init, from, to), last, t);
      }
    }
  }

  lemma NoneUpTo(t: int)
    ensures LastUpTo([], t) == None
  {}

  lemma {:induction false} LineAmongEqual(model: Model, lines: seq<TimeLine>, at: int, t: int)
    requires AllInForce(model, lines, at)
    ensures if at <= t && lines != [] then
              LastUpTo(lines, t).Some?
              && Tempo(LastUpTo(lines, t).value.bpm, LastUpTo(lines, t).value.scroll) == TempoAt(model, at)
            else LastUpTo(lines, t).None?
  {
    hide TempoInForce;
    if lines != [] {
      TempoAtIsInForce(model, at, Tempo(lines[|lines| - 1].bpm, lines[|lines| - 1].scroll));
      LineAmongEqual(model, lines[..|lines| - 1], at, t);
    }
  }

  ghost predicate AnyWithin(lines: seq<TimeLine>, from: int, t: int) {
    exists i :: 0 <= i < |lines| && from <= lines[i].time <= t
  }

  lemma {:induction false} AnyInRange(lines: seq<TimeLine>, from: int, to: int, t: int)
    requires from <= t <= to
    ensures LastUpTo(InRange(lines, from, to), t).Some? <==> AnyWithin(lines, from, t)
  {
    hide AnyWithin;
    if lines == [] {
      NoneWithinNone(from, t);
    } else {
      var init, last := lines[..|lines| - 1], lines[|lines| - 1];
      assert lines == init + [last];
      AnyInRange(init, from, to, t);
      InRangeOfLonger(init, last, from, to);
      AnyOfLonger(init, last, from, t);
      if from <= last.time <= to {
        assert InRange(lines, from, to)[..|InRange(lines, from, to)| - 1] == InRange(init, from, to);
      }
    }
  }

  lemma NoneWithinNone(from: int, t: int)
    ensures !AnyWithin([], from, t)
  {}

  lemma AnyOfLonger(lines: seq<TimeLine>, line: TimeLine, from: int, t: int)
    ensures AnyWithin(lines + [line], from, t) <==> AnyWithin(lines, from, t) || from <= line.time <= t
  {
    var all := lines + [line];
    if AnyWithin(lines, from, t) {
      var i :| 0 <= i < |lines| && from <= lines[i].time <= t;
      assert from <= all[i].time <= t;
    }
    if from <= line.time <= t {
      assert from <= all[|lines|].time <= t;
    }
  }

  /** A picture shown before `from` is not replaced at it. */
  ghost predicate PictureLasts(lines: seq<TimeLine>, from: int, picture: Picture) {
    !ChangesAt(lines, from, picture) && exists i ::
                                          0 <= i < |lines| && lines[i].time < from && Shown(lines[i], picture) >= 0
  }

  lemma {:induction false} ShownBeforeExactly(lines: seq<TimeLine>, from: int, picture: Picture)
    ensures ShownBefore(lines, from, picture) >= 0
            <==> exists i :: 0 <= i < |lines| && lines[i].time < from && Shown(lines[i], picture) >= 0
  {
    if lines != [] {
      var init, last := lines[..|lines| - 1], lines[|lines| - 1];
      ShownBeforeExactly(init, from, picture);
      if i :| 0 <= i < |init| && init[i].time < from && Shown(init[i], picture) >= 0 {
        assert lines[i] == init[i];
      }
      if i :| 0 <= i < |lines| && lines[i].time < from && Shown(lines[i], picture) >= 0 {
        assert i < |init| ==> init[i] == lines[i];
      }
    }
  }

  lemma StartPictureExactly(model: Model, from: int)
    ensures StartPicture(model, from) != []
            <==> PictureLasts(model.timelines, from, Background) || PictureLasts(model.timelines, from, Layer)
  {
    hide LastUpTo, ChangesAt, ShownBefore;
    ShownBeforeExactly(model.timelines, from, Background);
    ShownBeforeExactly(model.timelines, from, Layer);
  }

  /** A long note of the lane is held over the start of the range, or over its end. */
  ghost predicate HeldAt(notes: seq<Note>, from: int) {
    exists k :: 0 <= k < |Pairs(notes)| && Pairs(notes)[k].head.time < from <= Pairs(notes)[k].tail.time
  }

  ghost predicate HeldAfter(notes: seq<Note>, to: int) {
    exists k :: 0 <= k < |Pairs(notes)| && Pairs(notes)[k].head.time <= to < Pairs(notes)[k].tail.time
  }

  lemma {:induction false} HeadsCutExactly(pairs: seq<Pair>, r: Range)
    ensures HeadsCut(pairs, r) != []
            <==> exists k :: 0 <= k < |pairs| && pairs[k].head.time < r.from <= pairs[k].tail.time
  {
    if pairs != [] {
      var init := pairs[..|pairs| - 1];
      HeadsCutExactly(init, r);
      if k :| 0 <= k < |init| && init[k].head.time < r.from <= init[k].tail.time {
        assert pairs[k] == init[k];
      }
      if k :| 0 <= k < |pairs| && pairs[k].head.time < r.from <= pairs[k].tail.time {
        assert k < |init| ==> init[k] == pairs[k];
      }
    }
  }

  lemma {:induction false} TailsCutExactly(pairs: seq<Pair>, r: Range)
    ensures TailsCut(pairs, r) != []
            <==> exists k :: 0 <= k < |pairs| && pairs[k].head.time <= r.to < pairs[k].tail.time
  {
    if pairs != [] {
      var init := pairs[..|pairs| - 1];
      TailsCutExactly(init, r);
      if k :| 0 <= k < |init| && init[k].head.time <= r.to < init[k].tail.time {
        assert pairs[k] == init[k];
      }
      if k :| 0 <= k < |pairs| && pairs[k].head.time <= r.to < pairs[k].tail.time {
        assert k < |init| ==> init[k] == pairs[k];
      }
    }
  }

  lemma {:induction false} CutsAreSomewhere(cuts: seq<Cut>, key: nat, t: int, section: real)
    requires CutsFit(cuts, key)
    ensures cuts != [] <==> exists lane: nat :: lane < key && CutsIn(cuts, lane, t, section) != []
  {
    if cuts != [] {
      assert CutsIn(cuts, cuts[|cuts| - 1].lane, t, section) != [];
    }
  }

  ghost predicate AnyHeldAt(model: Model, from: int) {
    exists lane: nat :: lane < model.key && HeldAt(LaneNotes(model.timelines, lane), from)
  }

  ghost predicate AnyHeldAfter(model: Model, to: int) {
    exists lane: nat :: lane < model.key && HeldAfter(LaneNotes(model.timelines, lane), to)
  }

  lemma CutsInLaneExactly(model: Model, from: int, to: int, lane: nat)
    requires RowsFit(model.timelines, model.key) && lane < model.key
    ensures var scan := ScanAll(model.timelines, model.key, from, to);
            && (CutsIn(scan.starts, lane, from, 0.0) != [] <==> HeldAt(LaneNotes(model.timelines, lane), from))
            && (CutsIn(scan.ends, lane, to, 0.0) != [] <==> HeldAfter(LaneNotes(model.timelines, lane), to))
  {
    hide ScanAll, LaneNotes, Pairs, HeadsCut, TailsCut, CutsIn, Waiting;
    var r := Range(from, to, 0.0, 0.0);
    ViewOfScan(model.timelines, model.key, lane, r);
    HeadsCutExactly(Pairs(LaneNotes(model.timelines, lane)), r);
    TailsCutExactly(Pairs(LaneNotes(model.timelines, lane)), r);
  }

  /** The scan finds something to cut exactly when a long note is held over that end of the range. */
  lemma CutsExactly(model: Model, from: int, to: int)
    requires RowsFit(model.timelines, model.key)
    ensures var scan := ScanAll(model.timelines, model.key, from, to);
            (scan.starts != [] <==> AnyHeldAt(model, from)) && (scan.ends != [] <==> AnyHeldAfter(model, to))
  {
    hide ScanAll, LaneNotes, HeldAt, HeldAfter, CutsIn;
    var scan := ScanAll(model.timelines, model.key, from, to);
    AllCutsFit(model.timelines, model.key, from, to);
    CutsAreSomewhere(scan.starts, model.key, from, 0.0);
    CutsAreSomewhere(scan.ends, model.key, to, 0.0);
    if scan.starts != [] {
      var lane: nat :| lane < model.key && CutsIn(scan.starts, lane, from, 0.0) != [];
      CutsInLaneExactly(model, from, to, lane);
    }
    if scan.ends != [] {
      var lane: nat :| lane < model.key && CutsIn(scan.ends, lane, to, 0.0) != [];
      CutsInLaneExactly(model, from, to, lane);
    }
    if AnyHeldAt(model, from) {
      var lane: nat :| lane < model.key && HeldAt(LaneNotes(model.timelines, lane), from);
      CutsInLaneExactly(model, from, to, lane);
    }
    if AnyHeldAfter(model, to) {
      var lane: nat :| lane < model.key && HeldAfter(LaneNotes(model.timelines, lane), to);
      CutsInLaneExactly(model, from, to, lane);
    }
  }

  lemma NoLinesOfNoCuts(model: Model, t: int, cuts: seq<Cut>)
    requires CutsFit(cuts, model.key)
    ensures CutLines(model, t, cuts) == [] <==> cuts == []
  {}

  /** The slice gets a line by `t`, told from the chart: it has one between the start of the range and `t`, a
      picture shown before the range lasts into it, or a long note is held over the start, or over the end
      if `t` is that. */
  ghost predicate HasLineBy(model: Model, from: int, to: int, t: int) {
    || AnyWithin(model.timelines, from, t)
    || PictureLasts(model.timelines, from, Background) || PictureLasts(model.timelines, from, Layer)
    || AnyHeldAt(model, from)
    || (t == to && AnyHeldAfter(model, to))
  }

  lemma PutInExactly(model: Model, from: int, to: int)
    requires RowsFit(model.timelines, model.key)
    ensures StartLines(model, from, to) != []
            <==> PictureLasts(model.timelines, from, Background) || PictureLasts(model.timelines, from, Layer)
                 || AnyHeldAt(model, from)
    ensures EndLines(model, from, to) != [] <==> AnyHeldAfter(model, to)
  {
    hide ScanAll, StartPicture, CutLines, PictureLasts, AnyHeldAt, AnyHeldAfter;
    var scan := ScanAll(model.timelines, model.key, from, to);
    AllCutsFit(model.timelines, model.key, from, to);
    StartPictureExactly(model, from);
    CutsExactly(model, from, to);
    NoLinesOfNoCuts(model, from, scan.starts);
    NoLinesOfNoCuts(model, to, scan.ends);
  }

  /** Tempo and scroll at a moment of the range are those of the chart exactly when the slice gets a line by
      then or the chart is at its initial tempo there: a slice that carries no picture in and cuts no long
      note at its start gets no line there, and is at the initial tempo until its first line. */
  lemma SliceKeepsTheTempo(model: Model, from: int, to: int, t: int)
    requires RowsFit(model.timelines, model.key) && InOrder(model.timelines) && from <= t <= to
    ensures TempoAt(Slice(model, from, to), t) == TempoAt(model, t)
            <==> HasLineBy(model, from, to, t) || TempoInForce(model, t, Tempo(model.initBpm, 1.0))
  {
    hide LastUpTo, StartLines, EndLines, InRange, SortByKey, LinesOf, Prioritised, AnyWithin, PictureLasts, AnyHeldAt,
      AnyHeldAfter, TempoInForce;
    var lines, first, last := model.timelines, StartLines(model, from, to), EndLines(model, from, to);
    SliceInOrder(model, from, to);
    BoundariesAreInForce(model, from, to);
    PutInExactly(model, from, to);
    LineOfTwo(first, InRange(lines, from, to) + last, t);
    LineOfTwo(InRange(lines, from, to), last, t);
    LineInRange(lines, from, to, t);
    AnyInRange(lines, from, to, t);
    LineAmongEqual(model, first, from, t);
    LineAmongEqual(model, last, to, t);
    TempoAtIsInForce(model, t, Tempo(model.initBpm, 1.0));
  }

  // ---------- A slice that does not keep it ----------

  lemma {:induction false} NothingToScan(lines: seq<TimeLine>, key: nat, from: int, to: int)
    requires forall i :: 0 <= i < |lines| ==> lines[i].notes == seq(key, _ => None)
    ensures RowsFit(lines, key)
    ensures ScanAll(lines, key, from, to) == Scan(seq(key, _ => None), [], [])
  {
    if lines != [] {
      NothingToScan(lines[..|lines| - 1], key, from, to);
      EmptyRow(Scan(seq(key, _ => None), [], []), lines[|lines| - 1].notes, from, to);
    }
  }

  lemma {:induction false} EmptyRow(scan: Scan, row: seq<Option<Note>>, from: int, to: int)
    requires |row| <= |scan.pending| && forall i :: 0 <= i < |row| ==> row[i].None?
    ensures ScanRow(scan, row, from, to) == scan
  {
    if row != [] {
      EmptyRow(scan, row[..|row| - 1], from, to);
    }
  }

  /** A tempo change before the range is not carried into a slice with nothing else to carry. */
  lemma TempoIsNotAlwaysKept(key: nat)
    ensures var model := Model(key, 150.0, [Empty(key, 1000000, 0.5, 75.0), Empty(key, 9000000, 4.0, 75.0)]);
            && InOrder(model.timelines)
            && RowsFit(model.timelines, key)
            && TempoAt(model, 5000000) == Tempo(75.0, 1.0)
            && TempoAt(Slice(model, 5000000, 9000000), 5000000) != Tempo(75.0, 1.0)
  {
    hide SortByKey, LinesOf, Prioritised, Slice, TempoInForce, HasLineBy;
    var lines := [Empty(key, 1000000, 0.5, 75.0), Empty(key, 9000000, 4.0, 75.0)];
    var model := Model(key, 150.0, lines);
    assert lines[..1] == [Empty(key, 1000000, 0.5, 75.0)] && lines[..1][..0] == [];
    NothingToScan(lines, key, 5000000, 9000000);
    SliceKeepsTheTempo(model, 5000000, 9000000, 5000000);
    assert LastUpTo(lines, 5000000) == LastUpTo(lines[..1], 5000000) == Some(lines[0]);
    TempoAtIsInForce(model, 5000000, Tempo(150.0, 1.0));
    NothingCarried(model);
  }

  lemma NothingCarried(model: Model)
    requires RowsFit(model.timelines, model.key) && |model.timelines| == 2
    requires model.timelines[0].time == 1000000 && model.timelines[1].time == 9000000
    requires forall i :: 0 <= i < 2 ==> model.timelines[i].bga == -1 && model.timelines[i].layer == -1
    requires ScanAll(model.timelines, model.key, 5000000, 9000000).starts == []
    ensures !HasLineBy(model, 5000000, 9000000, 5000000)
  {
    hide ScanAll, AnyHeldAt, AnyHeldAfter;
    CutsExactly(model, 5000000, 9000000);
  }
}
