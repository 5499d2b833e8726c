/** Cutting a range out of a chart for practice (`slice_practice_model` in app_play.rs): long notes are
    cut at both ends of the range and the background in force is carried in. */
module PracticeSlice {
  import opened Common
  import opened StableSort

  datatype NoteKind = Normal | LongStart(ln: int) | LongEnd(ln: int) | Mine(damage: real)

  /** `sound` stands for what a note plays and is layered with. */
  datatype Note = Note(kind: NoteKind, sound: int, time: int, section: real)

  datatype TimeLine = TimeLine(
    time: int,
    section: real,
    notes: seq<Option<Note>>,
    hidden: seq<Option<Note>>,
    bgnotes: seq<Note>,
    sectionLine: bool,
    bpm: real,
    stop: int,
    scroll: real,
    bga: int,
    layer: int)

  datatype Model = Model(key: nat, initBpm: real, timelines: seq<TimeLine>)

  function Empty(lanes: nat, time: int, section: real, bpm: real): TimeLine {
    TimeLine(time, section, seq(lanes, _ => None), seq(lanes, _ => None), [], false, bpm, 0, 1.0, -1, -1)
  }

  // ---------- The lines put in at a boundary ----------

  /** The last timeline at or before `t`. */
  function LastUpTo(lines: seq<TimeLine>, t: int): Option<TimeLine> {
    if lines == [] then None
    else if lines[|lines| - 1].time <= t then Some(lines[|lines| - 1])
    else LastUpTo(lines[..|lines| - 1], t)
  }

  function BoundaryLine(model: Model, t: int): TimeLine {
    match LastUpTo(model.timelines, t)
    case Some(line) => Empty(model.key, t, line.section, line.bpm).(scroll := line.scroll)
    case None => Empty(model.key, t, 0.0, model.initBpm).(scroll := 1.0)
  }

  /** Which of the two pictures of a timeline is meant. */
  datatype Picture = Background | Layer

  function Shown(line: TimeLine, picture: Picture): int {
    match picture
    case Background => line.bga
    case Layer => line.layer
  }

  predicate ChangesAt(lines: seq<TimeLine>, t: int, picture: Picture) {
    exists i :: 0 <= i < |lines| && lines[i].time == t && Shown(lines[i], picture) >= 0
  }

  /** The last picture shown before `t`, or -1. */
  function ShownBefore(lines: seq<TimeLine>, t: int, picture: Picture): int {
    if lines == [] then -1
    else
      var last := lines[|lines| - 1];
      if last.time < t && Shown(last, picture) >= 0 then Shown(last, picture)
      else ShownBefore(lines[..|lines| - 1], t, picture)
  }

  function Carried(lines: seq<TimeLine>, t: int, picture: Picture): int {
    if ChangesAt(lines, t, picture) then -1 else ShownBefore(lines, t, picture)
  }

  function StartPicture(model: Model, t: int): seq<TimeLine> {
    var line := BoundaryLine(model, t)
    .(bga := Carried(model.timelines, t, Background), layer := Carried(model.timelines, t, Layer));
    if line.bga >= 0 || line.layer >= 0 then [line] else []
  }

  function AtBoundary(note: Note, t: int, section: real): Note {
    note.(time := t, section := section)
  }

  /** A cut note on a line of its own. */
  function CutLine(model: Model, t: int, cut: Cut): TimeLine
    requires cut.lane < model.key
  {
    var line := BoundaryLine(model, t);
    line.(notes := line.notes[cut.lane := Some(AtBoundary(cut.note, t, line.section))])
  }

  // ---------- Finding the long notes a boundary cuts ----------

  datatype Cut = Cut(lane: nat, note: Note)

  /** The heads waiting for their ends, and the notes cut so far at the start and at the end. */
  datatype Scan = Scan(pending: seq<Option<Note>>, starts: seq<Cut>, ends: seq<Cut>)

  function ScanNote(scan: Scan, lane: nat, note: Note, from: int, to: int): Scan
    requires lane < |scan.pending|
  {
    match note.kind
    case LongStart(_) => scan.(pending := scan.pending[lane := Some(note)])
    case LongEnd(_) =>
      (match scan.pending[lane]
       case None => scan
       case Some(head) =>
         Scan(scan.pending[lane := None],
              if head.time < from && note.time >= from then scan.starts + [Cut(lane, head)] else scan.starts,
              if head.time <= to && note.time > to then scan.ends + [Cut(lane, note)] else scan.ends))
    case _ => scan
  }

  function ScanRow(scan: Scan, row: seq<Option<Note>>, from: int, to: int): (s: Scan)
    requires |row| <= |scan.pending|
    ensures |s.pending| == |scan.pending|
  {
    if row == [] then scan
    else
      var before := ScanRow(scan, row[..|row| - 1], from, to);
      match row[|row| - 1]
      case None => before
      case Some(note) => ScanNote(before, |row| - 1, note, from, to)
  }

  predicate RowsFit(lines: seq<TimeLine>, key: nat) {
    forall i :: 0 <= i < |lines| ==> |lines[i].notes| <= key
  }

  function ScanAll(lines: seq<TimeLine>, key: nat, from: int, to: int): (s: Scan)
    requires RowsFit(lines, key)
    ensures |s.pending| == key
  {
    if lines == [] then Scan(seq(key, _ => None), [], [])
    else ScanRow(ScanAll(lines[..|lines| - 1], key, from, to), lines[|lines| - 1].notes, from, to)
  }

  predicate CutsFit(cuts: seq<Cut>, key: nat) {
    forall i :: 0 <= i < |cuts| ==> cuts[i].lane < key
  }

  lemma {:induction false} RowCutsFit(scan: Scan, row: seq<Option<Note>>, from: int, to: int)
    requires |row| <= |scan.pending| && CutsFit(scan.starts, |scan.pending|) && CutsFit(scan.ends, |scan.pending|)
    ensures var s := ScanRow(scan, row, from, to);
            CutsFit(s.starts, |scan.pending|) && CutsFit(s.ends, |scan.pending|)
  {
    if row != [] {
      RowCutsFit(scan, row[..|row| - 1], from, to);
    }
  }

  lemma {:induction false} AllCutsFit(lines: seq<TimeLine>, key: nat, from: int, to: int)
    requires RowsFit(lines, key)
    ensures var s := ScanAll(lines, key, from, to);
            CutsFit(s.starts, key) && CutsFit(s.ends, key)
  {
    if lines != [] {
      AllCutsFit(lines[..|lines| - 1], key, from, to);
      RowCutsFit(ScanAll(lines[..|lines| - 1], key, from, to), lines[|lines| - 1].notes, from, to);
    }
  }

  // ---------- The slice ----------

  function InRange(lines: seq<TimeLine>, from: int, to: int): seq<TimeLine> {
    if lines == [] then []
    else
      InRange(lines[..|lines| - 1], from, to)
      + (if from <= lines[|lines| - 1].time <= to then [lines[|lines| - 1]] else [])
  }

  function CutLines(model: Model, t: int, cuts: seq<Cut>): seq<TimeLine>
    requires CutsFit(cuts, model.key)
  {
    if cuts == [] then [] else CutLines(model, t, cuts[..|cuts| - 1]) + [CutLine(model, t, cuts[|cuts| - 1])]
  }

  /** Lines of one priority: sorting by time, then priority, then the order they were put in comes to
      a stable sort by three times the time plus the priority, of which there are three. */
  function Prioritised(lines: seq<TimeLine>, priority: int): seq<Keyed<TimeLine>> {
    if lines == [] then []
    else
      Prioritised(lines[..|lines| - 1], priority)
      + [Keyed(3 * lines[|lines| - 1].time + priority, lines[|lines| - 1])]
  }

  function LinesOf(entries: seq<Keyed<TimeLine>>): seq<TimeLine> {
    if entries == [] then [] else LinesOf(entries[..|entries| - 1]) + [entries[|entries| - 1].item]
  }

  /** The lines put in at the start: the picture carried in, then the heads cut there. */
  function StartLines(model: Model, from: int, to: int): seq<TimeLine>
    requires RowsFit(model.timelines, model.key)
  {
    AllCutsFit(model.timelines, model.key, from, to);
    StartPicture(model, from) + CutLines(model, from, ScanAll(model.timelines, model.key, from, to).starts)
  }

  function EndLines(model: Model, from: int, to: int): seq<TimeLine>
    requires RowsFit(model.timelines, model.key)
  {
    AllCutsFit(model.timelines, model.key, from, to);
    CutLines(model, to, ScanAll(model.timelines, model.key, from, to).ends)
  }

  function Slice(model: Model, from: int, to: int): Model
    requires RowsFit(model.timelines, model.key)
  {
    model.(timelines := LinesOf(SortByKey(
      Prioritised(InRange(model.timelines, from, to), 1)
        + (Prioritised(StartLines(model, from, to), 0) + Prioritised(EndLines(model, from, to), 2)))))
  }

  // ---------- The program's loops ----------

  method ScanNotes(model: Model, from: int, to: int) returns (starts: seq<Cut>, ends: seq<Cut>)
    requires RowsFit(model.timelines, model.key)
    ensures var s := ScanAll(model.timelines, model.key, from, to);
            starts == s.starts && ends == s.ends
  {
    var pending := new Option<Note>[model.key](_ => None);
    starts, ends := [], [];
    for i := 0 to |model.timelines|
      invariant RowsFit(model.timelines[..i], model.key)
      invariant Scan(pending[..], starts, ends) == ScanAll(model.timelines[..i], model.key, from, to)
    {
      ghost var before := ScanAll(model.timelines[..i], model.key, from, to);
      var row := model.timelines[i].notes;
      for lane := 0 to |row|
        invariant Scan(pending[..], starts, ends) == ScanRow(before, row[..lane], from, to)
      {
        assert row[..lane + 1][..lane] == row[..lane];
        if row[lane].None? {
          continue;
        }
        var note := row[lane].value;
        match note.kind {
          case LongStart(_) =>
            pending[lane] := Some(note);
          case LongEnd(_) =>
            var head := pending[lane];
            pending[lane] := None;
            if head.None? {
              continue;
            }
            if head.value.time < from && note.time >= from {
              starts := starts + [Cut(lane, head.value)];
            }
            if head.value.time <= to && note.time > to {
              ends := ends + [Cut(lane, note)];
            }
          case Mine(_) =>
          case Normal =>
        }
      }
      assert row[..|row|] == row;
      assert model.timelines[..i + 1][..i] == model.timelines[..i];
    }
    assert model.timelines[..|model.timelines|] == model.timelines;
  }

  lemma PrioritisedLonger(lines: seq<TimeLine>, line: TimeLine, priority: int)
    ensures Prioritised(lines + [line], priority)
            == Prioritised(lines, priority) + [Keyed(3 * line.time + priority, line)]
  {
    assert (lines + [line])[..|lines|] == lines;
  }

  lemma {:induction false} PrioritisedInTwo(first: seq<TimeLine>, second: seq<TimeLine>, priority: int)
    ensures Prioritised(first + second, priority) == Prioritised(first, priority) + Prioritised(second, priority)
  {
    if second == [] {
      assert first + second == first;
    } else {
      PrioritisedInTwo(first, second[..|second| - 1], priority);
      assert (first + second)[..|first + second| - 1] == first + second[..|second| - 1];
    }
  }

  lemma OneCutMore(model: Model, t: int, cuts: seq<Cut>, i: nat, priority: int)
    requires CutsFit(cuts, model.key) && i < |cuts|
    ensures Prioritised(CutLines(model, t, cuts[..i + 1]), priority)
            == Prioritised(CutLines(model, t, cuts[..i]), priority)
              + [Keyed(3 * t + priority, CutLine(model, t, cuts[i]))]
  {
    hide Prioritised, LastUpTo;
    assert cuts[..i + 1][..i] == cuts[..i];
    PrioritisedLonger(CutLines(model, t, cuts[..i]), CutLine(model, t, cuts[i]), priority);
  }

  /** The lines of some cuts, put behind what is already to be sorted. */
  method AddCuts(model: Model, t: int, cuts: seq<Cut>, priority: int, entries: seq<Keyed<TimeLine>>)
    returns (all: seq<Keyed<TimeLine>>)
    requires CutsFit(cuts, model.key)
    ensures all == entries + Prioritised(CutLines(model, t, cuts), priority)
  {
    hide BoundaryLine, CutLine;
    all := entries;
    for i := 0 to |cuts|
      invariant CutsFit(cuts[..i], model.key)
      invariant all == entries + Prioritised(CutLines(model, t, cuts[..i]), priority)
    {
      OneCutMore(model, t, cuts, i, priority);
      all := all + [Keyed(3 * t + priority, CutLine(model, t, cuts[i]))];
    }
    assert cuts[..|cuts|] == cuts;
  }

  lemma OneLineMore(lines: seq<TimeLine>, i: nat, from: int, to: int)
    requires i < |lines|
    ensures Prioritised(InRange(lines[..i + 1], from, to), 1)
            == if from <= lines[i].time <= to
               then Prioritised(InRange(lines[..i], from, to), 1) + [Keyed(3 * lines[i].time + 1, lines[i])]
               else Prioritised(InRange(lines[..i], from, to), 1)
  {
    hide Prioritised;
    assert lines[..i + 1][..i] == lines[..i];
    assert InRange(lines[..i], from, to) + [] == InRange(lines[..i], from, to);
    PrioritisedLonger(InRange(lines[..i], from, to), lines[i], 1);
  }

  /** The timelines of the range, to be sorted between what is put in at its two ends. */
  method AddInRange(lines: seq<TimeLine>, from: int, to: int) returns (all: seq<Keyed<TimeLine>>)
    ensures all == Prioritised(InRange(lines, from, to), 1)
  {
    all := [];
    for i := 0 to |lines|
      invariant all == Prioritised(InRange(lines[..i], from, to), 1)
    {
      OneLineMore(lines, i, from, to);
      if lines[i].time >= from && lines[i].time <= to {
        all := all + [Keyed(3 * lines[i].time + 1, lines[i])];
      }
    }
    assert lines[..|lines|] == lines;
  }

  method SliceModel(model: Model, from: int, to: int) returns (sliced: Model)
    requires RowsFit(model.timelines, model.key)
    ensures sliced == Slice(model, from, to)
  {
    hide InRange, CutLines, ScanAll, SortByKey, LinesOf, BoundaryLine, Carried, RowsFit;
    var starts, ends := ScanNotes(model, from, to);
    AllCutsFit(model.timelines, model.key, from, to);
    var entries := AddInRange(model.timelines, from, to);
    ghost var inRange := entries;
    var picture := StartPicture(model, from);
    if picture != [] {
      entries := entries + [Keyed(3 * from, picture[0])];
    }
    assert entries == inRange + Prioritised(picture, 0) by { PictureIsAtTheStart(model, from); }
    entries := AddCuts(model, from, starts, 0, entries);
    PrioritisedInTwo(picture, CutLines(model, from, starts), 0);
    entries := AddCuts(model, to, ends, 2, entries);
    InOneList(inRange, Prioritised(picture, 0), Prioritised(CutLines(model, from, starts), 0),
      Prioritised(EndLines(model, from, to), 2));
    sliced := model.(timelines := LinesOf(SortByKey(entries)));
  }

  lemma PictureIsAtTheStart(model: Model, from: int)
    ensures StartPicture(model, from) == []
            || (|StartPicture(model, from)| == 1 && StartPicture(model, from)[0].time == from)
    ensures Prioritised(StartPicture(model, from), 0)
            == if StartPicture(model, from) == [] then [] else [Keyed(3 * from, StartPicture(model, from)[0])]
  {
    hide LastUpTo, ShownBefore, ChangesAt;
  }

  lemma InOneList<T>(a: seq<T>, b: seq<T>, c: seq<T>, d: seq<T>)
    ensures ((a + b) + c) + d == a + ((b + c) + d)
  {}
}
