/** What is played in a practice slice, lane by lane. */
module PracticePlay {
  import opened Common
  import opened PracticeSlice
  import opened PracticeShape
  import opened PracticeLane

  /** The notes of a lane, in the order of the timelines. */
  function LaneNotes(lines: seq<TimeLine>, lane: nat): seq<Note> {
    if lines == [] then [] else LaneNotes(lines[..|lines| - 1], lane) + NoteIn(lines[|lines| - 1].notes, lane)
  }

  function NoteIn(row: seq<Option<Note>>, lane: nat): seq<Note> {
    if lane < |row| && row[lane].Some? then [row[lane].value] else []
  }

  ghost predicate NotesOnTime(lines: seq<TimeLine>) {
    forall i, lane :: 0 <= i < |lines| && 0 <= lane < |lines[i].notes| && lines[i].notes[lane].Some?
      ==> lines[i].notes[lane].value.time == lines[i].time
  }

  /** A chart as the parser leaves it. */
  ghost predicate WellFormed(model: Model) {
    && RowsFit(model.timelines, model.key)
    && InOrder(model.timelines)
    && NotesOnTime(model.timelines)
    && (forall lane: nat :: lane < model.key ==> WellPaired(LaneNotes(model.timelines, lane)))
  }

  /** The section of the last timeline up to `t`, or the start of the chart. */
  function SectionAt(model: Model, t: int): real {
    match LastUpTo(model.timelines, t)
    case Some(line) => line.section
    case None => 0.0
  }

  function RangeOf(model: Model, from: int, to: int): Range {
    Range(from, to, SectionAt(model, from), SectionAt(model, to))
  }

  lemma BoundaryIsAtTheSection(model: Model, t: int)
    ensures BoundaryLine(model, t).section == SectionAt(model, t)
  {
    hide LastUpTo;
  }

  // ---------- Lanes of the parts of a slice ----------

  lemma {:induction false} LaneOfTwo(first: seq<TimeLine>, second: seq<TimeLine>, lane: nat)
    ensures LaneNotes(first + second, lane) == LaneNotes(first, lane) + LaneNotes(second, lane)
  {
    hide NoteIn;
    if second == [] {
      assert first + second == first;
    } else {
      LaneOfTwo(first, second[..|second| - 1], lane);
      assert (first + second)[..|first + second| - 1] == first + second[..|second| - 1];
    }
  }

  lemma LaneOfLonger(lines: seq<TimeLine>, line: TimeLine, lane: nat)
    ensures LaneNotes(lines + [line], lane) == LaneNotes(lines, lane) + NoteIn(line.notes, lane)
  {
    assert (lines + [line])[..|lines|] == lines;
  }

  lemma {:induction false} LaneUpTo(lines: seq<TimeLine>, lane: nat, t: int)
    requires NotesOnTime(lines) && NoneLater(lines, t)
    ensures NonePast(LaneNotes(lines, lane), t)
  {
    if lines != [] {
      LaneUpTo(lines[..|lines| - 1], lane, t);
    }
  }

  lemma {:induction false} LaneIsTimed(lines: seq<TimeLine>, lane: nat)
    requires NotesOnTime(lines) && InOrder(lines)
    ensures Timed(LaneNotes(lines, lane))
  {
    if lines != [] {
      LaneIsTimed(lines[..|lines| - 1], lane);
      LaneUpTo(lines[..|lines| - 1], lane, lines[|lines| - 1].time);
    }
  }

  lemma {:induction false} LaneOfRange(lines: seq<TimeLine>, lane: nat, r: Range)
    requires NotesOnTime(lines)
    ensures LaneNotes(InRange(lines, r.from, r.to), lane) == NotesIn(LaneNotes(lines, lane), r)
  {
    hide LaneNotes, NotesIn, InRange;
    if lines == [] {
      LaneOfNone(lane, r);
    } else {
      var init, line := lines[..|lines| - 1], lines[|lines| - 1];
      assert lines == init + [line];
      LaneOfRange(init, lane, r);
      LaneOfLonger(init, line, lane);
      LaneOfLonger(InRange(init, r.from, r.to), line, lane);
      InRangeOfLonger(init, line, r.from, r.to);
      NotesInMaybe(LaneNotes(init, lane), NoteIn(line.notes, lane), r);
    }
  }

  lemma LaneOfNone(lane: nat, r: Range)
    ensures LaneNotes([], lane) == []
    ensures LaneNotes(InRange([], r.from, r.to), lane) == NotesIn(LaneNotes([], lane), r)
  {}

  lemma NotesInMaybe(notes: seq<Note>, maybe: seq<Note>, r: Range)
    requires |maybe| <= 1
    ensures NotesIn(notes + maybe, r) == NotesIn(notes, r) + (if maybe != [] then IfIn(maybe[0], r) else [])
  {
    if maybe == [] {
      assert notes + maybe == notes;
    } else {
      assert maybe == [maybe[0]];
      NotesInLonger(notes, maybe[0], r);
    }
  }

  /** The notes cut in one lane, as they stand at the boundary. */
  function CutsIn(cuts: seq<Cut>, lane: nat, t: int, section: real): seq<Note> {
    if cuts == [] then []
    else CutsIn(cuts[..|cuts| - 1], lane, t, section)
         + (if cuts[|cuts| - 1].lane == lane then [AtBoundary(cuts[|cuts| - 1].note, t, section)] else [])
  }

  lemma NoteOfCutLine(model: Model, t: int, cut: Cut, lane: nat)
    requires cut.lane < model.key
    ensures NoteIn(CutLine(model, t, cut).notes, lane)
            == if cut.lane == lane then [AtBoundary(cut.note, t, BoundaryLine(model, t).section)] else []
  {
    hide LastUpTo;
  }

  lemma {:induction false} LaneOfCuts(model: Model, t: int, cuts: seq<Cut>, lane: nat)
    requires CutsFit(cuts, model.key)
    ensures LaneNotes(CutLines(model, t, cuts), lane) == CutsIn(cuts, lane, t, BoundaryLine(model, t).section)
  {
    hide BoundaryLine, CutLine, NoteIn, LaneNotes;
    if cuts == [] {
      LaneOfNone(lane, Range(0, 0, 0.0, 0.0));
    } else {
      var init, cut := cuts[..|cuts| - 1], cuts[|cuts| - 1];
      LaneOfCuts(model, t, init, lane);
      LaneOfLonger(CutLines(model, t, init), CutLine(model, t, cut), lane);
      NoteOfCutLine(model, t, cut, lane);
    }
  }

  // ---------- What the scan finds in one lane ----------

  /** The part of a scan that concerns one lane. */
  datatype View = View(waiting: Option<Note>, heads: seq<Note>, tails: seq<Note>)

  function ViewOf(scan: Scan, lane: nat, r: Range): View
    requires lane < |scan.pending|
  {
    View(scan.pending[lane],
         CutsIn(scan.starts, lane, r.from, r.fromSection),
         CutsIn(scan.ends, lane, r.to, r.toSection))
  }

  function LaneView(notes: seq<Note>, r: Range): View {
    View(Waiting(notes), HeadsCut(Pairs(notes), r), TailsCut(Pairs(notes), r))
  }

  function ViewNext(view: View, note: Note, r: Range): View {
    match note.kind
    case LongStart(_) => view.(waiting := Some(note))
    case LongEnd(_) =>
      (match view.waiting
       case None => view
       case Some(head) =>
         View(None, view.heads + HeadCut(Pair(head, note), r), view.tails + TailCut(Pair(head, note), r)))
    case _ => view
  }

  lemma LaneViewNext(notes: seq<Note>, note: Note, r: Range)
    ensures LaneView(notes + [note], r) == ViewNext(LaneView(notes, r), note, r)
  {
    hide Waiting, HeadsCut, TailsCut, Pairs, NotesIn, Clamped;
    CuttingIs(notes, note, r);
  }

  lemma CutsInLonger(cuts: seq<Cut>, cut: Cut, lane: nat, t: int, section: real)
    ensures CutsIn(cuts + [cut], lane, t, section)
            == CutsIn(cuts, lane, t, section) + (if cut.lane == lane then [AtBoundary(cut.note, t, section)] else [])
  {
    assert (cuts + [cut])[..|cuts|] == cuts;
  }

  lemma ViewOfScanNote(scan: Scan, at: nat, note: Note, lane: nat, r: Range)
    requires at < |scan.pending| && lane < |scan.pending|
    ensures ViewOf(ScanNote(scan, at, note, r.from, r.to), lane, r)
            == if at == lane then ViewNext(ViewOf(scan, lane, r), note, r) else ViewOf(scan, lane, r)
  {
    hide CutsIn;
    if note.kind.LongEnd? && scan.pending[at].Some? {
      CutsInLonger(scan.starts, Cut(at, scan.pending[at].value), lane, r.from, r.fromSection);
      CutsInLonger(scan.ends, Cut(at, note), lane, r.to, r.toSection);
      assert CutsIn(scan.starts, lane, r.from, r.fromSection) + [] == CutsIn(scan.starts, lane, r.from, r.fromSection);
      assert CutsIn(scan.ends, lane, r.to, r.toSection) + [] == CutsIn(scan.ends, lane, r.to, r.toSection);
    }
  }

  lemma {:induction false} ViewOfRow(scan: Scan, row: seq<Option<Note>>, lane: nat, r: Range)
    requires |row| <= |scan.pending| && lane < |scan.pending|
    ensures ViewOf(ScanRow(scan, row, r.from, r.to), lane, r)
            == if NoteIn(row, lane) == [] then ViewOf(scan, lane, r)
               else ViewNext(ViewOf(scan, lane, r), NoteIn(row, lane)[0], r)
  {
    hide ScanNote, ViewNext, ViewOf;
    if row != [] {
      var init, last := row[..|row| - 1], row[|row| - 1];
      ViewOfRow(scan, init, lane, r);
      if last.Some? {
        ViewOfScanNote(ScanRow(scan, init, r.from, r.to), |row| - 1, last.value, lane, r);
      }
    }
  }

  /** The scan over all lanes finds in each lane what pairing that lane alone finds. */
  lemma {:induction false} ViewOfScan(lines: seq<TimeLine>, key: nat, lane: nat, r: Range)
    requires RowsFit(lines, key) && lane < key
    ensures ViewOf(ScanAll(lines, key, r.from, r.to), lane, r) == LaneView(LaneNotes(lines, lane), r)
  {
    hide ViewOf, LaneView, ViewNext, ScanRow, LaneNotes;
    if lines == [] {
      ViewOfNone(key, lane, r);
    } else {
      var init, line := lines[..|lines| - 1], lines[|lines| - 1];
      assert lines == init + [line];
      ViewOfScan(init, key, lane, r);
      ViewOfRow(ScanAll(init, key, r.from, r.to), line.notes, lane, r);
      LaneOfLonger(init, line, lane);
      var added := NoteIn(line.notes, lane);
      if added == [] {
        assert LaneNotes(init, lane) + added == LaneNotes(init, lane);
      } else {
        assert added == [added[0]];
        LaneViewNext(LaneNotes(init, lane), added[0], r);
      }
    }
  }

  lemma ViewOfNone(key: nat, lane: nat, r: Range)
    requires lane < key
    ensures ViewOf(ScanAll([], key, r.from, r.to), lane, r) == LaneView(LaneNotes([], lane), r)
  {}

  // ---------- A lane of the slice ----------

  lemma LaneOfPicture(model: Model, from: int, lane: nat)
    ensures LaneNotes(StartPicture(model, from), lane) == []
  {
    hide LastUpTo, Carried;
    var picture := StartPicture(model, from);
    if picture != [] {
      assert NoteIn(picture[0].notes, lane) == [];
      assert picture[..0] == [];
    }
  }

  lemma LaneOfSlice(model: Model, from: int, to: int, lane: nat)
    requires WellFormed(model) && from <= to && lane < model.key
    ensures LaneNotes(Slice(model, from, to).timelines, lane)
            == Sliced(LaneNotes(model.timelines, lane), RangeOf(model, from, to))
  {
    hide Slice, LaneNotes, ScanAll, BoundaryLine, InRange, CutLines, Pairs, NotesIn, HeadsCut, TailsCut, WellPaired;
    var r, lines := RangeOf(model, from, to), model.timelines;
    var scan := ScanAll(lines, model.key, from, to);
    SliceInOrder(model, from, to);
    AllCutsFit(lines, model.key, from, to);
    LaneOfTwo(StartLines(model, from, to), InRange(lines, from, to) + EndLines(model, from, to), lane);
    LaneOfTwo(InRange(lines, from, to), EndLines(model, from, to), lane);
    LaneOfTwo(StartPicture(model, from), CutLines(model, from, scan.starts), lane);
    LaneOfPicture(model, from, lane);
    BoundaryIsAtTheSection(model, from);
    BoundaryIsAtTheSection(model, to);
    LaneOfCuts(model, from, scan.starts, lane);
    LaneOfCuts(model, to, scan.ends, lane);
    LaneOfRange(lines, lane, r);
    ViewOfScan(lines, model.key, lane, r);
    assert [] + CutsIn(scan.starts, lane, from, r.fromSection) == CutsIn(scan.starts, lane, from, r.fromSection);
  }

  /** What is played of a lane in a slice: its long notes still alternate and are exactly the original
      ones that meet the range, clamped to it; a head that never ends is kept exactly when it is in the
      range; normal notes and mines are exactly those of the range. */
  lemma SliceKeepsThePlay(model: Model, from: int, to: int, lane: nat)
    requires WellFormed(model) && from <= to && lane < model.key
    ensures var before, after := LaneNotes(model.timelines, lane), LaneNotes(Slice(model, from, to).timelines, lane);
            var r := RangeOf(model, from, to);
            && WellPaired(after)
            && Pairs(after) == Clamped(Pairs(before), r)
            && Waiting(after) == WaitingIn(Waiting(before), r)
            && Plain(after) == NotesIn(Plain(before), r)
  {
    hide Slice, LaneNotes, BoundaryLine, Sliced, Pairs, Plain, NotesIn, Clamped, Waiting, WaitingIn;
    LaneOfSlice(model, from, to, lane);
    LaneIsTimed(model.timelines, lane);
    SlicedLane(LaneNotes(model.timelines, lane), RangeOf(model, from, to));
    SlicedPlain(LaneNotes(model.timelines, lane), RangeOf(model, from, to));
  }

  // ---------- A slice is a chart again ----------

  ghost predicate Fits(lines: seq<TimeLine>, key: nat) {
    RowsFit(lines, key) && NotesOnTime(lines)
  }

  lemma {:induction false} RangeFits(lines: seq<TimeLine>, key: nat, from: int, to: int)
    requires Fits(lines, key)
    ensures Fits(InRange(lines, from, to), key)
  {
    if lines != [] {
      var init := lines[..|lines| - 1];
      assert Fits(init, key);
      RangeFits(init, key, from, to);
    }
  }

  lemma CutLineFits(model: Model, t: int, cut: Cut)
    requires cut.lane < model.key
    ensures Fits([CutLine(model, t, cut)], model.key)
  {
    hide LastUpTo;
  }

  lemma {:induction false} CutLinesFit(model: Model, t: int, cuts: seq<Cut>)
    requires CutsFit(cuts, model.key)
    ensures Fits(CutLines(model, t, cuts), model.key)
  {
    hide CutLine;
    if cuts != [] {
      CutLinesFit(model, t, cuts[..|cuts| - 1]);
      CutLineFits(model, t, cuts[|cuts| - 1]);
      assert [CutLine(model, t, cuts[|cuts| - 1])][0] == CutLine(model, t, cuts[|cuts| - 1]);
    }
  }

  lemma PictureFits(model: Model, from: int)
    ensures Fits(StartPicture(model, from), model.key)
  {
    hide LastUpTo, Carried;
  }

  lemma FitsTogether(first: seq<TimeLine>, second: seq<TimeLine>, key: nat)
    requires Fits(first, key) && Fits(second, key)
    ensures Fits(first + second, key)
  {}

  /** A slice of a well-formed chart is well formed. */
  lemma SliceIsWellFormed(model: Model, from: int, to: int)
    requires WellFormed(model) && from <= to
    ensures WellFormed(Slice(model, from, to))
  {
    hide Slice, Fits, InRange, StartPicture, CutLines, ScanAll, WellPaired, LaneNotes, BoundaryLine;
    var lines := model.timelines;
    var scan := ScanAll(lines, model.key, from, to);
    SliceInOrder(model, from, to);
    SliceStaysInRange(model, from, to);
    AllCutsFit(lines, model.key, from, to);
    PictureFits(model, from);
    CutLinesFit(model, from, scan.starts);
    CutLinesFit(model, to, scan.ends);
    FitsOf(model);
    RangeFits(lines, model.key, from, to);
    FitsTogether(StartPicture(model, from), CutLines(model, from, scan.starts), model.key);
    FitsTogether(InRange(lines, from, to), EndLines(model, from, to), model.key);
    FitsTogether(StartLines(model, from, to), InRange(lines, from, to) + EndLines(model, from, to), model.key);
    FitsMeans(Slice(model, from, to).timelines, model.key);
    SliceKeepsKey(model, from, to);
    forall lane: nat | lane < model.key ensures WellPaired(LaneNotes(Slice(model, from, to).timelines, lane)) {
      SliceKeepsThePlay(model, from, to, lane);
    }
  }

  lemma FitsOf(model: Model)
    requires WellFormed(model)
    ensures Fits(model.timelines, model.key)
  {}

  lemma FitsMeans(lines: seq<TimeLine>, key: nat)
    requires Fits(lines, key)
    ensures RowsFit(lines, key) && NotesOnTime(lines)
  {}

  lemma SliceKeepsKey(model: Model, from: int, to: int)
    requires RowsFit(model.timelines, model.key)
    ensures Slice(model, from, to).key == model.key && Slice(model, from, to).initBpm == model.initBpm
  {}

  // ---------- Slicing again ----------

  /** Nothing is cut where every note is in the range. */
  lemma {:induction false} NothingCut(lines: seq<TimeLine>, key: nat, from: int, to: int)
    requires RowsFit(lines, key) && NotesOnTime(lines) && AllWithin(lines, from, to)
    ensures var s := ScanAll(lines, key, from, to);
            s.starts == [] && s.ends == [] && AllPendingFrom(s.pending, from)
  {
    hide ScanRow;
    if lines != [] {
      var init, line := lines[..|lines| - 1], lines[|lines| - 1];
      NothingCut(init, key, from, to);
      NothingCutInRow(ScanAll(init, key, from, to), line.notes, line.time, from, to);
    }
  }

  ghost predicate AllPendingFrom(pending: seq<Option<Note>>, from: int) {
    forall i :: 0 <= i < |pending| && pending[i].Some? ==> pending[i].value.time >= from
  }

  lemma {:induction false} NothingCutInRow(scan: Scan, row: seq<Option<Note>>, t: int, from: int, to: int)
    requires |row| <= |scan.pending| && from <= t <= to
    requires scan.starts == [] && scan.ends == [] && AllPendingFrom(scan.pending, from)
    requires forall i :: 0 <= i < |row| && row[i].Some? ==> row[i].value.time == t
    ensures var s := ScanRow(scan, row, from, to);
            s.starts == [] && s.ends == [] && AllPendingFrom(s.pending, from)
  {
    if row != [] {
      NothingCutInRow(scan, row[..|row| - 1], t, from, to);
    }
  }

  lemma {:induction false} AllInRange(lines: seq<TimeLine>, from: int, to: int)
    requires AllWithin(lines, from, to)
    ensures InRange(lines, from, to) == lines
  {
    if lines != [] {
      AllInRange(lines[..|lines| - 1], from, to);
    }
  }

  lemma {:induction false} NothingShownBefore(lines: seq<TimeLine>, from: int, to: int, picture: Picture)
    requires AllWithin(lines, from, to)
    ensures ShownBefore(lines, from, picture) == -1
  {
    if lines != [] {
      NothingShownBefore(lines[..|lines| - 1], from, to, picture);
    }
  }

  lemma NoPictureCarried(model: Model, from: int, to: int)
    requires AllWithin(model.timelines, from, to)
    ensures StartPicture(model, from) == []
  {
    hide LastUpTo, ShownBefore, ChangesAt;
    NothingShownBefore(model.timelines, from, to, Background);
    NothingShownBefore(model.timelines, from, to, Layer);
  }

  /** Cutting the same range out of a slice again changes nothing. */
  lemma SlicingAgain(model: Model, from: int, to: int)
    requires WellFormed(model) && from <= to
    ensures WellFormed(Slice(model, from, to))
    ensures Slice(model, from, to) == Slice(Slice(model, from, to), from, to)
  {
    hide Slice, InRange, StartPicture, ScanAll, WellPaired, LaneNotes;
    var once := Slice(model, from, to);
    SliceIsWellFormed(model, from, to);
    SliceStaysInRange(model, from, to);
    SliceInOrder(once, from, to);
    AllInRange(once.timelines, from, to);
    NothingCut(once.timelines, once.key, from, to);
    NoPictureCarried(once, from, to);
    assert [] + (once.timelines + []) == once.timelines;
    SliceKeepsKey(once, from, to);
  }
}
