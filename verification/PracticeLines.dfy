/** The timelines of a slice: those of the range as they were, and lines put in that hold one cut note or the picture
    carried in and nothing else. */
module PracticeLines {
  import opened Common
  import opened PracticeSlice
  import opened PracticeShape
  import opened PracticePlay
  import opened PracticeTempo

  // ---------- The timelines kept ----------

  lemma {:induction false} RangeOfTwo(a: seq<TimeLine>, b: seq<TimeLine>, from: int, to: int)
    ensures InRange(a + b, from, to) == InRange(a, from, to) + InRange(b, from, to)
  {
    if b == [] {
      assert a + b == a;
    } else {
      assert (a + b)[..|a + b| - 1] == a + b[..|b| - 1];
      RangeOfTwo(a, b[..|b| - 1], from, to);
    }
  }

  /** The timelines of the range are kept whole and in their order, and no others. */
  lemma LinesAreKept(a: seq<TimeLine>, line: TimeLine, b: seq<TimeLine>, from: int, to: int)
    ensures InRange(a + [line] + b, from, to)
            == InRange(a, from, to) + (if from <= line.time <= to then [line] else []) + InRange(b, from, to)
  {
    RangeOfTwo(a + [line], b, from, to);
    InRangeOfLonger(a, line, from, to);
  }

  // ---------- The timelines put in ----------

  /** Nothing but notes of the lanes and a picture: no stop, no section line, no hidden and no background notes, and
      tempo, scroll and section as in force. */
  ghost predicate IsBare(model: Model, line: TimeLine, t: int) {
    && line.time == t
    && TempoInForce(model, t, Tempo(line.bpm, line.scroll))
    && line.section == SectionAt(model, t)
    && line.stop == 0 && !line.sectionLine && line.bgnotes == []
    && |line.hidden| == |line.notes| == model.key
    && (forall i :: 0 <= i < |line.hidden| ==> line.hidden[i].None?)
  }

  /** A line that holds one note: a cut one, moved to the boundary and otherwise as it was. */
  ghost predicate HoldsOnly(model: Model, line: TimeLine, t: int, cut: Cut) {
    && IsBare(model, line, t)
    && line.bga == -1 && line.layer == -1
    && cut.lane < model.key
    && (forall i :: 0 <= i < |line.notes| ==>
          line.notes[i] == if i == cut.lane then Some(Note(cut.note.kind, cut.note.sound, t, SectionAt(model, t)))
                           else None)
  }

  ghost predicate HoldsNoNote(model: Model, line: TimeLine, t: int) {
    IsBare(model, line, t) && forall i :: 0 <= i < |line.notes| ==> line.notes[i].None?
  }

  lemma BoundaryIsBare(model: Model, t: int)
    ensures HoldsNoNote(model, BoundaryLine(model, t), t)
  {
    hide LastUpTo, TempoInForce;
    BoundaryIsInForce(model, t);
  }

  lemma CutLineHoldsOnly(model: Model, t: int, cut: Cut)
    requires cut.lane < model.key
    ensures HoldsOnly(model, CutLine(model, t, cut), t, cut)
  {
    hide TempoInForce, SectionAt;
    BoundaryIsBare(model, t);
    BoundaryHasNoPicture(model, t);
  }

  lemma BoundaryHasNoPicture(model: Model, t: int)
    ensures BoundaryLine(model, t).bga == -1 && BoundaryLine(model, t).layer == -1
  {
    hide LastUpTo;
  }

  lemma {:induction false} CutLinesHoldOnly(model: Model, t: int, cuts: seq<Cut>)
    requires CutsFit(cuts, model.key)
    ensures var lines := CutLines(model, t, cuts);
            |lines| == |cuts| && forall i :: 0 <= i < |lines| ==> HoldsOnly(model, lines[i], t, cuts[i])
  {
    hide HoldsOnly, CutLine;
    if cuts != [] {
      CutLinesHoldOnly(model, t, cuts[..|cuts| - 1]);
      CutLineHoldsOnly(model, t, cuts[|cuts| - 1]);
    }
  }

  lemma PictureIsBare(model: Model, t: int)
    ensures |StartPicture(model, t)| <= 1
    ensures forall i :: 0 <= i < |StartPicture(model, t)| ==> HoldsNoNote(model, StartPicture(model, t)[i], t)
  {
    hide LastUpTo, Carried, TempoInForce;
    BoundaryIsBare(model, t);
  }

  function PictureOf(line: TimeLine, picture: Picture): int {
    match picture
    case Background => line.bga
    case Layer => line.layer
  }

  /** A picture is carried over the start of the range: it is the last shown before it, and none is shown at it. */
  ghost predicate CarriedOver(lines: seq<TimeLine>, from: int, picture: Picture, k: int) {
    && 0 <= k < |lines| && lines[k].time < from && PictureOf(lines[k], picture) >= 0
    && (forall j :: k < j < |lines| && lines[j].time < from ==> PictureOf(lines[j], picture) < 0)
    && (forall j :: 0 <= j < |lines| && lines[j].time == from ==> PictureOf(lines[j], picture) < 0)
  }

  ghost predicate IsCarried(lines: seq<TimeLine>, from: int, picture: Picture) {
    exists k :: CarriedOver(lines, from, picture, k)
  }

  lemma {:induction false} LastShownBefore(lines: seq<TimeLine>, from: int, picture: Picture) returns (k: int)
    ensures ShownBefore(lines, from, picture) >= 0 ==>
              && 0 <= k < |lines| && lines[k].time < from
              && PictureOf(lines[k], picture) == ShownBefore(lines, from, picture)
              && forall j :: k < j < |lines| && lines[j].time < from ==> PictureOf(lines[j], picture) < 0
    ensures ShownBefore(lines, from, picture) < 0 ==>
              && ShownBefore(lines, from, picture) == -1
              && forall j :: 0 <= j < |lines| && lines[j].time < from ==> PictureOf(lines[j], picture) < 0
  {
    if lines == [] {
      k := -1;
    } else {
      var last := lines[|lines| - 1];
      if last.time < from && PictureOf(last, picture) >= 0 {
        k := |lines| - 1;
      } else {
        var init := lines[..|lines| - 1];
        k := LastShownBefore(init, from, picture);
        assert ShownBefore(lines, from, picture) == ShownBefore(init, from, picture);
        assert forall j :: 0 <= j < |init| ==> lines[j] == init[j];
      }
    }
  }

  lemma CarriedWhenShown(lines: seq<TimeLine>, from: int, picture: Picture)
    requires Carried(lines, from, picture) >= 0
    ensures IsCarried(lines, from, picture)
  {
    hide ShownBefore, ChangesAt;
    var k := LastShownBefore(lines, from, picture);
    NoneShownAt(lines, from, picture);
    assert CarriedOver(lines, from, picture, k);
  }

  lemma ShownWhenCarried(lines: seq<TimeLine>, from: int, picture: Picture, i: int)
    requires CarriedOver(lines, from, picture, i)
    ensures Carried(lines, from, picture) == PictureOf(lines[i], picture) && Carried(lines, from, picture) >= 0
  {
    hide ShownBefore, ChangesAt;
    var k := LastShownBefore(lines, from, picture);
    NoneShownAt(lines, from, picture);
    assert ShownBefore(lines, from, picture) >= 0;
    assert i == k;
  }

  lemma CarriedExactly(lines: seq<TimeLine>, from: int, picture: Picture)
    ensures Carried(lines, from, picture) >= 0 <==> IsCarried(lines, from, picture)
    ensures forall k :: CarriedOver(lines, from, picture, k) ==>
              Carried(lines, from, picture) == PictureOf(lines[k], picture)
    ensures !IsCarried(lines, from, picture) ==> Carried(lines, from, picture) == -1
  {
    hide ShownBefore, ChangesAt;
    var k := LastShownBefore(lines, from, picture);
    if Carried(lines, from, picture) >= 0 {
      CarriedWhenShown(lines, from, picture);
    }
    forall i | CarriedOver(lines, from, picture, i)
      ensures Carried(lines, from, picture) == PictureOf(lines[i], picture) && Carried(lines, from, picture) >= 0
    {
      ShownWhenCarried(lines, from, picture, i);
    }
  }

  lemma NoneShownAt(lines: seq<TimeLine>, from: int, picture: Picture)
    ensures !ChangesAt(lines, from, picture)
            <==> forall j :: 0 <= j < |lines| && lines[j].time == from ==> PictureOf(lines[j], picture) < 0
  {
    if ChangesAt(lines, from, picture) {
      var i :| 0 <= i < |lines| && lines[i].time == from && Shown(lines[i], picture) >= 0;
      assert PictureOf(lines[i], picture) >= 0;
    }
  }

  /** The line put in for a picture is there exactly when the background or the layer is carried over the start of the
      range, and holds each that is and no other. */
  lemma PictureCarriedIn(model: Model, from: int, picture: Picture)
    ensures StartPicture(model, from) != []
            <==> IsCarried(model.timelines, from, Background) || IsCarried(model.timelines, from, Layer)
    ensures StartPicture(model, from) != [] ==>
              var shown := PictureOf(StartPicture(model, from)[0], picture);
              && (forall k :: CarriedOver(model.timelines, from, picture, k) ==>
                    shown == PictureOf(model.timelines[k], picture))
              && (!IsCarried(model.timelines, from, picture) ==> shown == -1)
  {
    hide LastUpTo, Carried, IsCarried;
    CarriedExactly(model.timelines, from, Background);
    CarriedExactly(model.timelines, from, Layer);
  }

  /** What a slice of a chart in order is: at most one line with the picture carried in, a line for each head cut at
      the start, the timelines of the range, and a line for each end cut at the end. */
  lemma SliceInParts(model: Model, from: int, to: int)
    requires WellFormed(model) && from <= to
    ensures var scan := ScanAll(model.timelines, model.key, from, to);
            var p, h, n := |StartPicture(model, from)|, |scan.starts|, |InRange(model.timelines, from, to)|;
            var lines := Slice(model, from, to).timelines;
            && p <= 1 && |lines| == p + h + n + |scan.ends|
            && (forall i :: 0 <= i < p ==> HoldsNoNote(model, lines[i], from))
            && (forall i :: 0 <= i < h ==> HoldsOnly(model, lines[p + i], from, scan.starts[i]))
            && lines[p + h..p + h + n] == InRange(model.timelines, from, to)
            && (forall i :: 0 <= i < |scan.ends| ==> HoldsOnly(model, lines[p + h + n + i], to, scan.ends[i]))
  {
    hide Slice, InRange, ScanAll, CutLines, StartPicture, HoldsOnly, HoldsNoNote, LaneNotes;
    var scan := ScanAll(model.timelines, model.key, from, to);
    SliceInOrder(model, from, to);
    AllCutsFit(model.timelines, model.key, from, to);
    CutLinesHoldOnly(model, from, scan.starts);
    CutLinesHoldOnly(model, to, scan.ends);
    PictureIsBare(model, from);
  }
}
