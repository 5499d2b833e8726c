/** The picture in force during a practice slice. */
module PracticePicture {
  import opened PracticeSlice
  import opened PracticeShape

  /** The picture in force at `t`: the last one shown at or before it, or -1. */
  function PictureAt(lines: seq<TimeLine>, t: int, picture: Picture): int {
    if lines == [] then -1
    else if lines[|lines| - 1].time <= t && Shown(lines[|lines| - 1], picture) >= 0 then
      Shown(lines[|lines| - 1], picture)
    else PictureAt(lines[..|lines| - 1], t, picture)
  }

  function Else(first: int, second: int): int {
    if first >= 0 then first else second
  }

  lemma {:induction false} PictureOfTwo(first: seq<TimeLine>, second: seq<TimeLine>, t: int, picture: Picture)
    ensures PictureAt(first + second, t, picture) == Else(PictureAt(second, t, picture), PictureAt(first, t, picture))
  {
    if second == [] {
      assert first + second == first;
    } else {
      PictureOfTwo(first, second[..|second| - 1], t, picture);
      assert (first + second)[..|first + second| - 1] == first + second[..|second| - 1];
    }
  }

  // ---------- Pictures ----------

  lemma {:induction false} NoneShown(lines: seq<TimeLine>, t: int, picture: Picture)
    requires forall i :: 0 <= i < |lines| ==> Shown(lines[i], picture) < 0
    ensures PictureAt(lines, t, picture) == -1
  {
    if lines != [] {
      NoneShown(lines[..|lines| - 1], t, picture);
    }
  }

  lemma {:induction false} BeforeTheRange(lines: seq<TimeLine>, from: int, to: int, t: int, picture: Picture)
    requires NoneLater(lines, from - 1) && from <= t
    ensures InRange(lines, from, to) == []
    ensures PictureAt(lines, t, picture) == ShownBefore(lines, from, picture)
  {
    if lines != [] {
      BeforeTheRange(lines[..|lines| - 1], from, to, t, picture);
    }
  }

  lemma PictureOfLonger(lines: seq<TimeLine>, last: TimeLine, t: int, picture: Picture)
    ensures PictureAt(lines + [last], t, picture)
            == if last.time <= t && Shown(last, picture) >= 0 then Shown(last, picture)
               else PictureAt(lines, t, picture)
  {
    assert (lines + [last])[..|lines|] == lines;
  }

  lemma NotShownBefore(lines: seq<TimeLine>, last: TimeLine, from: int, picture: Picture)
    requires last.time >= from
    ensures ShownBefore(lines + [last], from, picture) == ShownBefore(lines, from, picture)
  {
    assert (lines + [last])[..|lines|] == lines;
  }

  /** In a chart in order, the picture in force in the range is the last one shown in it, or else what
      was shown before it. */
  lemma {:induction false} PictureInRange(lines: seq<TimeLine>, from: int, to: int, t: int, picture: Picture)
    requires InOrder(lines) && from <= t <= to
    ensures PictureAt(lines, t, picture)
            == Else(PictureAt(InRange(lines, from, to), t, picture), ShownBefore(lines, from, picture))
  {
    if lines != [] {
      var init, last := lines[..|lines| - 1], lines[|lines| - 1];
      if last.time < from {
        BeforeTheRange(lines, from, to, t, picture);
      } else {
        hide PictureAt, ShownBefore, InRange, Shown;
        PictureInRange(init, from, to, t, picture);
        assert lines == init + [last];
        InRangeOfLonger(init, last, from, to);
        PictureOfLonger(init, last, t, picture);
        PictureOfLonger(InRange(init, from, to), last, t, picture);
        NotShownBefore(init, last, from, picture);
      }
    }
  }

  lemma {:induction false} ChangeIsShown(lines: seq<TimeLine>, from: int, to: int, t: int, picture: Picture)
    requires ChangesAt(lines, from, picture) && from <= t <= to
    ensures PictureAt(InRange(lines, from, to), t, picture) >= 0
  {
    hide ChangesAt;
    var init, last := SplitAtChange(lines, from, picture);
    if !(last.time == from && Shown(last, picture) >= 0) {
      ChangeIsShown(init, from, to, t, picture);
    }
    assert lines == init + [last];
    InRangeOfLonger(init, last, from, to);
    if from <= last.time <= to {
      assert InRange(lines, from, to)[..|InRange(lines, from, to)| - 1] == InRange(init, from, to);
    }
  }

  lemma SplitAtChange(lines: seq<TimeLine>, from: int, picture: Picture) returns (init: seq<TimeLine>, last: TimeLine)
    requires ChangesAt(lines, from, picture)
    ensures lines != [] && init == lines[..|lines| - 1] && last == lines[|lines| - 1]
    ensures (last.time == from && Shown(last, picture) >= 0) || ChangesAt(init, from, picture)
  {
    init, last := lines[..|lines| - 1], lines[|lines| - 1];
    var i :| 0 <= i < |lines| && lines[i].time == from && Shown(lines[i], picture) >= 0;
    if i < |lines| - 1 {
      assert init[i].time == from && Shown(init[i], picture) >= 0;
    }
  }

  lemma {:induction false} CutLinesShowNothing(model: Model, t: int, cuts: seq<Cut>)
    requires CutsFit(cuts, model.key)
    ensures forall i ::
              0 <= i < |CutLines(model, t, cuts)|
              ==> CutLines(model, t, cuts)[i].bga == -1 && CutLines(model, t, cuts)[i].layer == -1
  {
    hide LastUpTo;
    if cuts != [] {
      CutLinesShowNothing(model, t, cuts[..|cuts| - 1]);
    }
  }

  lemma PictureOfStart(model: Model, from: int, t: int, picture: Picture)
    requires from <= t
    ensures PictureAt(StartPicture(model, from), t, picture) == Else(Carried(model.timelines, from, picture), -1)
  {
    hide LastUpTo, Carried;
    var start := StartPicture(model, from);
    if start != [] {
      assert start[..0] == [];
    }
  }

  lemma {:induction false} ShownBeforeIsPicture(lines: seq<TimeLine>, t: int, picture: Picture)
    ensures ShownBefore(lines, t, picture) >= -1
  {
    if lines != [] {
      ShownBeforeIsPicture(lines[..|lines| - 1], t, picture);
    }
  }

  /** At every moment of the range the slice shows the background and the layer the chart shows. */
  lemma SliceKeepsThePicture(model: Model, from: int, to: int, t: int, picture: Picture)
    requires RowsFit(model.timelines, model.key) && InOrder(model.timelines) && from <= t <= to
    ensures PictureAt(Slice(model, from, to).timelines, t, picture) == PictureAt(model.timelines, t, picture)
  {
    hide Slice, PictureAt, CutLines, ScanAll, StartPicture, ShownBefore, InRange, ChangesAt;
    var lines := model.timelines;
    var scan := ScanAll(lines, model.key, from, to);
    SliceInOrder(model, from, to);
    AllCutsFit(lines, model.key, from, to);
    CutLinesShowNothing(model, from, scan.starts);
    CutLinesShowNothing(model, to, scan.ends);
    NoneShown(CutLines(model, from, scan.starts), t, picture);
    NoneShown(EndLines(model, from, to), t, picture);
    PictureOfTwo(StartLines(model, from, to), InRange(lines, from, to) + EndLines(model, from, to), t, picture);
    PictureOfTwo(InRange(lines, from, to), EndLines(model, from, to), t, picture);
    PictureOfTwo(StartPicture(model, from), CutLines(model, from, scan.starts), t, picture);
    PictureOfStart(model, from, t, picture);
    PictureInRange(lines, from, to, t, picture);
    ShownBeforeIsPicture(lines, from, picture);
    if ChangesAt(lines, from, picture) {
      ChangeIsShown(lines, from, to, t, picture);
    }
  }
}
