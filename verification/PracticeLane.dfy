/** The notes of one lane in order, how long notes pair up in them, and what cutting a range out of
    them leaves. */
module PracticeLane {
  import opened Common
  import opened PracticeSlice

  datatype Pair = Pair(head: Note, tail: Note)

  /** The boundaries, and the sections at which notes moved to them stand. */
  datatype Range = Range(from: int, to: int, fromSection: real, toSection: real) {
    predicate Has(t: int) {
      from <= t <= to
    }
  }

  /** The head still waiting for its end. */
  function Waiting(notes: seq<Note>): Option<Note> {
    if notes == [] then None
    else
      match notes[|notes| - 1].kind
      case LongStart(_) => Some(notes[|notes| - 1])
      case LongEnd(_) => None
      case _ => Waiting(notes[..|notes| - 1])
  }

  function Pairs(notes: seq<Note>): seq<Pair> {
    if notes == [] then []
    else Pairs(notes[..|notes| - 1]) + PairMade(Waiting(notes[..|notes| - 1]), notes[|notes| - 1])
  }

  function PairMade(waiting: Option<Note>, note: Note): seq<Pair> {
    if note.kind.LongEnd? && waiting.Some? then [Pair(waiting.value, note)] else []
  }

  /** Heads and ends alternate, starting with a head. */
  predicate WellPaired(notes: seq<Note>) {
    notes == []
    || (WellPaired(notes[..|notes| - 1]) && Follows(Waiting(notes[..|notes| - 1]), notes[|notes| - 1]))
  }

  predicate Follows(waiting: Option<Note>, note: Note) {
    match note.kind
    case LongStart(_) => waiting.None?
    case LongEnd(_) => waiting.Some?
    case _ => true
  }

  predicate IsLong(note: Note) {
    note.kind.LongStart? || note.kind.LongEnd?
  }

  function NotesIn(notes: seq<Note>, r: Range): seq<Note> {
    if notes == [] then []
    else NotesIn(notes[..|notes| - 1], r) + IfIn(notes[|notes| - 1], r)
  }

  function IfIn(note: Note, r: Range): seq<Note> {
    if r.Has(note.time) then [note] else []
  }

  /** Notes that are not long: normal notes and mines. */
  function Plain(notes: seq<Note>): seq<Note> {
    if notes == [] then []
    else Plain(notes[..|notes| - 1]) + (if IsLong(notes[|notes| - 1]) then [] else [notes[|notes| - 1]])
  }

  function HeadCut(pair: Pair, r: Range): seq<Note> {
    if pair.head.time < r.from <= pair.tail.time then [AtBoundary(pair.head, r.from, r.fromSection)] else []
  }

  function TailCut(pair: Pair, r: Range): seq<Note> {
    if pair.head.time <= r.to < pair.tail.time then [AtBoundary(pair.tail, r.to, r.toSection)] else []
  }

  function HeadsCut(pairs: seq<Pair>, r: Range): seq<Note> {
    if pairs == [] then [] else HeadsCut(pairs[..|pairs| - 1], r) + HeadCut(pairs[|pairs| - 1], r)
  }

  function TailsCut(pairs: seq<Pair>, r: Range): seq<Note> {
    if pairs == [] then [] else TailsCut(pairs[..|pairs| - 1], r) + TailCut(pairs[|pairs| - 1], r)
  }

  /** A long note that meets the range, with its ends brought to the boundaries they are beyond: the same notes,
      with the same sounds, at another time and section. */
  function Clamp(pair: Pair, r: Range): seq<Pair> {
    if pair.tail.time < r.from || pair.head.time > r.to then []
    else
      [Pair(if pair.head.time < r.from then Note(pair.head.kind, pair.head.sound, r.from, r.fromSection) else pair.head,
            if pair.tail.time > r.to then Note(pair.tail.kind, pair.tail.sound, r.to, r.toSection) else pair.tail)]
  }

  function Clamped(pairs: seq<Pair>, r: Range): seq<Pair> {
    if pairs == [] then [] else Clamped(pairs[..|pairs| - 1], r) + Clamp(pairs[|pairs| - 1], r)
  }

  /** The notes a slice has in a lane: the heads cut, the notes of the range, the ends cut. */
  function Sliced(notes: seq<Note>, r: Range): seq<Note> {
    HeadsCut(Pairs(notes), r) + (NotesIn(notes, r) + TailsCut(Pairs(notes), r))
  }

  ghost predicate Timed(notes: seq<Note>) {
    forall i, j :: 0 <= i < j < |notes| ==> notes[i].time <= notes[j].time
  }

  ghost predicate NonePast(notes: seq<Note>, t: int) {
    forall i :: 0 <= i < |notes| ==> notes[i].time <= t
  }

  ghost predicate NoLongs(notes: seq<Note>) {
    forall i :: 0 <= i < |notes| ==> !IsLong(notes[i])
  }

  // ---------- One note more ----------

  lemma LaneLonger(notes: seq<Note>, note: Note)
    ensures Waiting(notes + [note])
            == (match note.kind case LongStart(_) => Some(note) case LongEnd(_) => None case _ => Waiting(notes))
    ensures Pairs(notes + [note]) == Pairs(notes) + PairMade(Waiting(notes), note)
    ensures WellPaired(notes + [note]) <==> WellPaired(notes) && Follows(Waiting(notes), note)
  {
    assert (notes + [note])[..|notes|] == notes;
  }

  lemma NotesInLonger(notes: seq<Note>, note: Note, r: Range)
    ensures NotesIn(notes + [note], r) == NotesIn(notes, r) + IfIn(note, r)
    ensures Plain(notes + [note]) == Plain(notes) + (if IsLong(note) then [] else [note])
  {
    assert (notes + [note])[..|notes|] == notes;
  }

  lemma CutsLonger(pairs: seq<Pair>, pair: Pair, r: Range)
    ensures HeadsCut(pairs + [pair], r) == HeadsCut(pairs, r) + HeadCut(pair, r)
    ensures TailsCut(pairs + [pair], r) == TailsCut(pairs, r) + TailCut(pair, r)
    ensures Clamped(pairs + [pair], r) == Clamped(pairs, r) + Clamp(pair, r)
  {
    assert (pairs + [pair])[..|pairs|] == pairs;
  }

  lemma {:induction false} WaitingIsEarlier(notes: seq<Note>, t: int)
    requires NonePast(notes, t)
    ensures Waiting(notes).Some? ==> Waiting(notes).value.time <= t && Waiting(notes).value.kind.LongStart?
  {
    if notes != [] {
      WaitingIsEarlier(notes[..|notes| - 1], t);
    }
  }

  /** Before the range there is nothing to cut. */
  lemma {:induction false} NothingYet(notes: seq<Note>, r: Range)
    requires NonePast(notes, r.from - 1) && r.from <= r.to
    ensures HeadsCut(Pairs(notes), r) == [] && TailsCut(Pairs(notes), r) == [] && NotesIn(notes, r) == []
    ensures Clamped(Pairs(notes), r) == []
  {
    hide Waiting, HeadsCut, TailsCut, Clamped;
    if notes == [] {
      NothingOfNone(r);
    } else {
      var init, note := notes[..|notes| - 1], notes[|notes| - 1];
      NothingYet(init, r);
      WaitingIsEarlier(init, r.from - 1);
      if note.kind.LongEnd? && Waiting(init).Some? {
        CutsLonger(Pairs(init), Pair(Waiting(init).value, note), r);
      } else {
        assert Pairs(init) + [] == Pairs(init);
      }
    }
  }

  lemma NothingOfNone(r: Range)
    ensures HeadsCut([], r) == [] && TailsCut([], r) == [] && Clamped([], r) == []
  {}

  /** A head with only plain notes after it. */
  lemma {:induction false} HeadThenPlain(head: Note, rest: seq<Note>)
    requires head.kind.LongStart? && NoLongs(rest)
    ensures Waiting([head] + rest) == Some(head) && Pairs([head] + rest) == [] && WellPaired([head] + rest)
  {
    if rest == [] {
      assert [head] + rest == [head];
    } else {
      assert [head] + rest == ([head] + rest[..|rest| - 1]) + [rest[|rest| - 1]];
      HeadThenPlain(head, rest[..|rest| - 1]);
      LaneLonger([head] + rest[..|rest| - 1], rest[|rest| - 1]);
    }
  }

  lemma {:induction false} PlainHasNoPairs(notes: seq<Note>)
    requires NoLongs(notes)
    ensures Pairs(notes) == []
  {
    if notes != [] {
      PlainHasNoPairs(notes[..|notes| - 1]);
    }
  }

  // ---------- Long notes of a slice ----------

  function WaitingIn(waiting: Option<Note>, r: Range): Option<Note> {
    if waiting.Some? && r.Has(waiting.value.time) then waiting else None
  }

  /** What cutting has made of the notes so far. The last three parts say that a head waiting from
      before the range has had only plain notes of the range after it, and that an end is cut only
      once the range is over. */
  ghost predicate Cutting(notes: seq<Note>, r: Range) {
    var heads, middle, tails := HeadsCut(Pairs(notes), r), NotesIn(notes, r), TailsCut(Pairs(notes), r);
    && WellPaired(heads + (middle + tails))
    && Pairs(heads + (middle + tails)) == Clamped(Pairs(notes), r)
    && Waiting(heads + (middle + tails)) == WaitingIn(Waiting(notes), r)
    && (Waiting(notes).Some? && Waiting(notes).value.time < r.from ==> heads == [] && tails == [] && NoLongs(middle))
    && (Waiting(notes).Some? && Waiting(notes).value.time <= r.to ==> tails == [])
    && (tails != [] ==> notes != [] && notes[|notes| - 1].time > r.to)
  }

  /** The sequences after one more note, given what it adds to each part. */
  lemma CuttingIs(notes: seq<Note>, note: Note, r: Range)
    ensures Waiting(notes + [note])
            == (match note.kind case LongStart(_) => Some(note) case LongEnd(_) => None case _ => Waiting(notes))
    ensures NotesIn(notes + [note], r) == NotesIn(notes, r) + IfIn(note, r)
    ensures note.kind.LongEnd? && Waiting(notes).Some? ==>
              var pair := Pair(Waiting(notes).value, note);
              && HeadsCut(Pairs(notes + [note]), r) == HeadsCut(Pairs(notes), r) + HeadCut(pair, r)
              && TailsCut(Pairs(notes + [note]), r) == TailsCut(Pairs(notes), r) + TailCut(pair, r)
              && Clamped(Pairs(notes + [note]), r) == Clamped(Pairs(notes), r) + Clamp(pair, r)
    ensures !(note.kind.LongEnd? && Waiting(notes).Some?) ==> Pairs(notes + [note]) == Pairs(notes)
  {
    hide Waiting, HeadsCut, TailsCut, Clamped, NotesIn, Pairs;
    LaneLonger(notes, note);
    NotesInLonger(notes, note, r);
    if note.kind.LongEnd? && Waiting(notes).Some? {
      CutsLonger(Pairs(notes), Pair(Waiting(notes).value, note), r);
    } else {
      assert Pairs(notes) + [] == Pairs(notes);
    }
  }

  lemma AddPlain(notes: seq<Note>, note: Note, r: Range)
    requires Cutting(notes, r) && NonePast(notes, note.time) && !IsLong(note)
    ensures Cutting(notes + [note], r)
  {
    hide Waiting, HeadsCut, TailsCut, Clamped, NotesIn, Pairs, WellPaired;
    CuttingIs(notes, note, r);
    Onwards(HeadsCut(Pairs(notes), r), NotesIn(notes, r), TailsCut(Pairs(notes), r), note, r);
  }

  /** A note of the range is put at the end of the slice while no end has been cut. */
  lemma Onwards(heads: seq<Note>, middle: seq<Note>, tails: seq<Note>, note: Note, r: Range)
    ensures tails == [] ==> heads + ((middle + [note]) + tails) == (heads + (middle + tails)) + [note]
    ensures heads + (middle + (tails + [note])) == (heads + (middle + tails)) + [note]
    ensures middle + [] == middle && heads + [] == heads && tails + [] == tails
    ensures var all := heads + (middle + tails);
            && Waiting(all + [note])
               == (match note.kind case LongStart(_) => Some(note) case LongEnd(_) => None case _ => Waiting(all))
            && Pairs(all + [note]) == Pairs(all) + PairMade(Waiting(all), note)
            && (WellPaired(all + [note]) <==> WellPaired(all) && Follows(Waiting(all), note))
            && Pairs(all) + [] == Pairs(all)
  {
    hide Waiting, Pairs, WellPaired;
    LaneLonger(heads + (middle + tails), note);
  }

  lemma AddHead(notes: seq<Note>, note: Note, r: Range)
    requires Cutting(notes, r) && NonePast(notes, note.time) && note.kind.LongStart? && Waiting(notes).None?
             && r.from <= r.to
    ensures Cutting(notes + [note], r)
  {
    hide Waiting, HeadsCut, TailsCut, Clamped, NotesIn, Pairs, WellPaired;
    CuttingIs(notes, note, r);
    Onwards(HeadsCut(Pairs(notes), r), NotesIn(notes, r), TailsCut(Pairs(notes), r), note, r);
    if note.time < r.from {
      NothingYet(notes, r);
    }
  }

  lemma AddTail(notes: seq<Note>, note: Note, r: Range)
    requires Cutting(notes, r) && NonePast(notes, note.time) && note.kind.LongEnd? && Waiting(notes).Some?
             && r.from <= r.to
    ensures Cutting(notes + [note], r)
  {
    hide Waiting, HeadsCut, TailsCut, Clamped, NotesIn, Pairs, WellPaired;
    CuttingIs(notes, note, r);
    var heads, middle, tails := HeadsCut(Pairs(notes), r), NotesIn(notes, r), TailsCut(Pairs(notes), r);
    var head := Waiting(notes).value;
    WaitingIsEarlier(notes, note.time);
    if head.time < r.from <= note.time {
      var moved := AtBoundary(head, r.from, r.fromSection);
      HeadThenPlain(moved, middle);
      PlainHasNoPairs(middle);
      Onwards([moved], middle, [], if note.time > r.to then AtBoundary(note, r.to, r.toSection) else note, r);
      assert heads + (middle + tails) == middle && middle + [] == middle;
      var last := if note.time > r.to then AtBoundary(note, r.to, r.toSection) else note;
      assert HeadsCut(Pairs(notes + [note]), r) == [moved];
      assert Clamped(Pairs(notes + [note]), r) == [Pair(moved, last)];
      assert NotesIn(notes + [note], r) + TailsCut(Pairs(notes + [note]), r) == middle + [last];
      assert [moved] + (middle + [last]) == ([moved] + middle) + [last];
      assert Sliced(notes + [note], r) == ([moved] + middle) + [last];
      assert PairMade(Some(moved), last) == [Pair(moved, last)];
      assert Pairs(Sliced(notes + [note], r)) == [Pair(moved, last)];
    } else {
      Onwards(heads, middle, tails, if note.time > r.to then AtBoundary(note, r.to, r.toSection) else note, r);
    }
  }

  lemma CuttingNone(r: Range)
    ensures Cutting([], r)
  {
    var none: seq<Note> := [];
    assert none + (none + none) == none;
  }

  lemma {:induction false} CuttingKeeps(notes: seq<Note>, r: Range)
    requires WellPaired(notes) && Timed(notes) && r.from <= r.to
    ensures Cutting(notes, r)
  {
    hide Cutting, Waiting;
    if notes == [] {
      CuttingNone(r);
    } else {
      var init, note := notes[..|notes| - 1], notes[|notes| - 1];
      assert notes == init + [note];
      CuttingKeeps(init, r);
      if note.kind.LongStart? {
        AddHead(init, note, r);
      } else if note.kind.LongEnd? {
        AddTail(init, note, r);
      } else {
        AddPlain(init, note, r);
      }
    }
  }

  /** Cutting a range out of a lane leaves exactly the long notes that meet the range, clamped to it,
      still alternating; a head that never ends is kept exactly when it is in the range. */
  lemma SlicedLane(notes: seq<Note>, r: Range)
    requires WellPaired(notes) && Timed(notes) && r.from <= r.to
    ensures WellPaired(Sliced(notes, r))
    ensures Pairs(Sliced(notes, r)) == Clamped(Pairs(notes), r)
    ensures Waiting(Sliced(notes, r)) == WaitingIn(Waiting(notes), r)
  {
    hide Waiting, HeadsCut, TailsCut, Clamped, NotesIn, Pairs, WellPaired;
    CuttingKeeps(notes, r);
  }

  // ---------- Plain notes of a slice ----------

  lemma {:induction false} PlainOfTwo(first: seq<Note>, second: seq<Note>)
    ensures Plain(first + second) == Plain(first) + Plain(second)
  {
    if second == [] {
      assert first + second == first;
    } else {
      PlainOfTwo(first, second[..|second| - 1]);
      assert (first + second)[..|first + second| - 1] == first + second[..|second| - 1];
    }
  }

  lemma {:induction false} PlainOfLongs(notes: seq<Note>)
    requires forall i :: 0 <= i < |notes| ==> IsLong(notes[i])
    ensures Plain(notes) == []
  {
    if notes != [] {
      PlainOfLongs(notes[..|notes| - 1]);
    }
  }

  lemma {:induction false} PairsAreLong(notes: seq<Note>)
    ensures forall i ::
              0 <= i < |Pairs(notes)| ==> Pairs(notes)[i].head.kind.LongStart? && Pairs(notes)[i].tail.kind.LongEnd?
  {
    hide Waiting;
    if notes != [] {
      var init := notes[..|notes| - 1];
      PairsAreLong(init);
      if Waiting(init).Some? {
        WaitingIsAHead(init);
      }
    }
  }

  lemma {:induction false} WaitingIsAHead(notes: seq<Note>)
    ensures Waiting(notes).Some? ==> Waiting(notes).value.kind.LongStart?
  {
    if notes != [] {
      WaitingIsAHead(notes[..|notes| - 1]);
    }
  }

  lemma {:induction false} CutsAreLong(pairs: seq<Pair>, r: Range)
    requires forall i :: 0 <= i < |pairs| ==> IsLong(pairs[i].head) && IsLong(pairs[i].tail)
    ensures forall i :: 0 <= i < |HeadsCut(pairs, r)| ==> IsLong(HeadsCut(pairs, r)[i])
    ensures forall i :: 0 <= i < |TailsCut(pairs, r)| ==> IsLong(TailsCut(pairs, r)[i])
  {
    if pairs != [] {
      CutsAreLong(pairs[..|pairs| - 1], r);
    }
  }

  lemma {:induction false} PlainOfRange(notes: seq<Note>, r: Range)
    ensures Plain(NotesIn(notes, r)) == NotesIn(Plain(notes), r)
  {
    hide Plain, NotesIn;
    if notes == [] {
      PlainOfNone(r);
    } else {
      var init, note := notes[..|notes| - 1], notes[|notes| - 1];
      assert notes == init + [note];
      PlainOfRange(init, r);
      NotesInLonger(init, note, r);
      NotesInLonger(NotesIn(init, r), note, r);
      NotesInLonger(Plain(init), note, r);
      assert NotesIn(init, r) + [] == NotesIn(init, r) && Plain(init) + [] == Plain(init);
      assert Plain(NotesIn(init, r)) + [] == Plain(NotesIn(init, r));
    }
  }

  lemma PlainOfNone(r: Range)
    ensures Plain(NotesIn([], r)) == NotesIn(Plain([]), r)
  {}

  /** The normal notes and mines of a sliced lane are exactly those of the range. */
  lemma SlicedPlain(notes: seq<Note>, r: Range)
    ensures Plain(Sliced(notes, r)) == NotesIn(Plain(notes), r)
  {
    hide HeadsCut, TailsCut, NotesIn, Pairs, Plain;
    var heads, middle, tails := HeadsCut(Pairs(notes), r), NotesIn(notes, r), TailsCut(Pairs(notes), r);
    PairsAreLong(notes);
    CutsAreLong(Pairs(notes), r);
    PlainOfTwo(heads, middle + tails);
    PlainOfTwo(middle, tails);
    PlainOfLongs(heads);
    PlainOfLongs(tails);
    PlainOfRange(notes, r);
  }
}
