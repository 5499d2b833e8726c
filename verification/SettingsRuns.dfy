/** The settings file holds the player's own settings, whatever is in the live ones for a time. */
module SettingsRuns {
  import opened Common
  import opened PlaySettings

  /** What the player can set. */
  datatype Edit =
    | SetScratchAuto(on: bool)
    | SetGauge(gauge: Gauge)
    | SetRandom(random: Arrangement)
    | SetSpeed(hispeed: real, constantSpeed: bool)
    | SetShades(cover: real, lift: real, hidden: real, enableCover: bool, enableLift: bool, enableHidden: bool)
    | SetRest(rest: int)

  function Edited(play: Play, edit: Edit): Play {
    match edit
    case SetScratchAuto(on) => play.(scratchAuto := on)
    case SetGauge(gauge) => play.(gauge := gauge)
    case SetRandom(random) => play.(random := random)
    case SetSpeed(hispeed, constantSpeed) => play.(hispeed := hispeed, constantSpeed := constantSpeed)
    case SetShades(cover, lift, hidden, enableCover, enableLift, enableHidden) =>
      play.(cover := cover, lift := lift, hidden := hidden,
            enableCover := enableCover, enableLift := enableLift, enableHidden := enableHidden)
    case SetRest(rest) => play.(rest := rest)
  }

  datatype Op =
    | Edit(edit: Edit)
    | TakeReplay(replay: Replay)
    | Load(md5: string)
    | EndTheReplay
    | BorrowFrom(request: Request, chart: Option<string>)
    | BorrowFromWatched(source: string, kept: Option<int>, chart: Option<string>)
    | Retry(seed: Option<nat>)
    | HandLayoutOn
    | LetLayoutGo
    | Choose(practice: bool, playsItself: bool)
    | Begin(constraints: seq<Constraint>)
    | End

  /** The settings and, in `mine`, what the player has set: each edit, but for what a course holds at the
      time. */
  datatype Record = Record(desk: Desk, mine: Play)

  predicate OwnInForce(desk: Desk) {
    desk.own.None? && desk.replay.None? && desk.borrowed.None?
  }

  /** The three options a replay brings are set only while the player's own are in force. */
  predicate Allowed(r: Record, op: Op) {
    op.Edit? && OfThree(op.edit) ==> r.desk.own.None?
  }

  /** What the course in progress, if one is, does to the arrangement. */
  function LockInForce(desk: Desk): RandomLock {
    if desk.overrides.Some? then desk.overrides.value.random else Free
  }

  /** Ending the course leaves the player's arrangement to be saved: no options are kept for a replay, or the
      course holds no arrangement, or the ones kept have the one it began with. */
  predicate EndKeeps(desk: Desk) {
    desk.own.None? || desk.backup.None? || LockInForce(desk) == Free
      || desk.own.value.random == desk.backup.value.random
  }

  /** Beginning a course does: no options are kept for a replay, or the course holds the arrangement just as
      the one still standing does, or the arrangement to be held is the one in force. */
  predicate BeginKeeps(desk: Desk, constraints: seq<Constraint>) {
    var lock := OverridesOf(constraints).random;
    || desk.own.None?
    || (lock == Free <==> LockInForce(desk) == Free)
    || (LockInForce(desk) == Free && desk.play.random == desk.own.value.random)
    || (LockInForce(desk) != Free && desk.backup.Some? && desk.own.value.random == desk.backup.value.random)
  }

  predicate Guarded(desk: Desk, op: Op) {
    match op
    case Begin(constraints) => BeginKeeps(desk, constraints)
    case End => EndKeeps(desk)
    case _ => true
  }

  /** Whether the course in progress holds what the edit sets. */
  predicate HeldByCourse(desk: Desk, edit: Edit) {
    desk.overrides.Some?
    && ((desk.overrides.value.random != Free && edit.SetRandom?)
        || (desk.overrides.value.speedLocked && (edit.SetSpeed? || edit.SetShades?)))
  }

  function Recorded(r: Record, op: Op): Record {
    match op
    case Edit(edit) =>
      Record(r.desk.(play := Edited(r.desk.play, edit)),
             if HeldByCourse(r.desk, edit) then r.mine else Edited(r.mine, edit))
    case TakeReplay(replay) => r.(desk := r.desk.(replay := Some(replay)))
    case Load(md5) => r.(desk := Loaded(r.desk, md5))
    case EndTheReplay => r.(desk := EndReplay(r.desk))
    case BorrowFrom(request, chart) => r.(desk := Borrow(r.desk, request, chart))
    case BorrowFromWatched(source, kept, chart) => r.(desk := BorrowWatched(r.desk, source, kept, chart))
    case Retry(seed) => r.(desk := r.desk.(retrySeed := seed))
    case HandLayoutOn => r.(desk := HandOn(r.desk))
    case LetLayoutGo => r.(desk := LetGo(r.desk))
    case Choose(practice, playsItself) => r.(desk := r.desk.(practice := practice, playsItself := playsItself))
    case Begin(constraints) => r.(desk := BeginCourse(r.desk, constraints))
    case End => r.(desk := EndCourse(r.desk))
  }

  function Opened(play: Play): Record {
    Record(Desk(play, None, None, None, None, None, None, false, false), play)
  }

  function After(r: Record, ops: seq<Op>): Option<Record> {
    if ops == [] then Some(r)
    else
      match After(r, ops[..|ops| - 1])
      case None => None
      case Some(before) => if Allowed(before, ops[|ops| - 1]) then Some(Recorded(before, ops[|ops| - 1])) else None
  }

  // ---------- The invariant ----------

  /** The file would hold what the player set; and while a layout is borrowed the gauge and SCRATCH AUTO
      in force are the player's. */
  predicate Sound(r: Record) {
    && r.desk.backup.Some? == r.desk.overrides.Some?
    && ToSave(r.desk) == r.mine
    && (r.desk.borrowed.Some? ==> r.desk.play.gauge == r.mine.gauge && r.desk.play.scratchAuto == r.mine.scratchAuto)
  }

  lemma PutBackIsSound(r: Record)
    requires Sound(r)
    ensures Sound(r.(desk := PutBackOwn(r.desk)))
    ensures Sound(r.(desk := LetGo(r.desk)))
    ensures Sound(r.(desk := EndReplay(r.desk)))
  {}

  lemma RecordedIsSound(r: Record)
    requires Sound(r) && r.desk.borrowed.None?
    ensures Sound(r.(desk := PlayAsRecorded(r.desk)))
  {
    hide ArrangementOf, GaugeOf;
  }

  lemma LayOutIsSound(r: Record, md5: string)
    requires Sound(r) && LaysOutAsBorrowed(r.desk, md5)
    ensures Sound(r.(desk := LayOutAsBorrowed(r.desk, md5)))
  {
    hide SameIgnoringCase;
  }

  lemma LoadIsSound(r: Record, md5: string)
    requires Sound(r)
    ensures Sound(r.(desk := Loaded(r.desk, md5)))
  {
    hide Sound, SameIgnoringCase, PutBackOwn, PlayAsRecorded;
    PutBackIsSound(r);
    assert LetGo(r.desk).borrowed.None? by { LetGoLetsGo(r.desk); }
    if r.desk.replay.Some? {
      RecordedIsSound(r.(desk := LetGo(r.desk)));
    } else if LaysOutAsBorrowed(r.desk, md5) {
      LayOutIsSound(r, md5);
    } else {
      PutBackIsSound(r.(desk := LetGo(r.desk)));
    }
  }

  lemma LetGoLetsGo(desk: Desk)
    ensures LetGo(desk).borrowed.None?
  {}

  lemma BorrowIsSound(r: Record, request: Request, chart: Option<string>)
    requires Sound(r)
    ensures Sound(r.(desk := Borrow(r.desk, request, chart)))
  {
    hide CheckRequest;
    PutBackIsSound(r);
  }

  lemma BorrowWatchedIsSound(r: Record, source: string, kept: Option<int>, chart: Option<string>)
    requires Sound(r)
    ensures Sound(r.(desk := BorrowWatched(r.desk, source, kept, chart)))
  {
    hide CheckRequest, WatchedRefusal, Borrow;
    if r.desk.replay.Some? {
      BorrowIsSound(r, RequestOf(r.desk.replay.value, source), chart);
    }
  }

  /** Narrowing the settings and putting back what was narrowed leaves them as they were. */
  lemma PutBackUndoesNarrowing(overrides: Overrides, play: Play)
    ensures overrides.PutBackInto(play, overrides.ApplyTo(play)) == play
  {}

  /** What would be saved of a course that begins over options kept for a replay. */
  lemma NarrowedUnderOwn(overrides: Overrides, own: Own, play: Play)
    ensures overrides.PutBackInto(play, own.PutInto(overrides.ApplyTo(play)))
            == own.PutInto(play).(random := if overrides.random != Free then play.random else own.random)
  {}

  lemma OwnUnderPutBack(overrides: Overrides, backup: Play, own: Own, play: Play)
    ensures own.PutInto(overrides.PutBackInto(backup, play))
            == overrides.PutBackInto(backup, own.PutInto(play)).(random := own.random)
    ensures overrides.PutBackInto(backup, own.PutInto(play)).random
            == if overrides.random != Free then backup.random else own.random
    ensures overrides.PutBackInto(backup, play).random
            == if overrides.random != Free then backup.random else play.random
  {}

  /** Beginning a course leaves the file right exactly when the guard holds. */
  lemma BeginKeepsExactly(r: Record, constraints: seq<Constraint>)
    requires Sound(r)
    ensures ToSave(BeginCourse(r.desk, constraints)) == r.mine <==> BeginKeeps(r.desk, constraints)
  {
    hide OverridesOf, Overrides.ApplyTo, Overrides.PutBackInto;
    var overrides := OverridesOf(constraints);
    var free := if r.desk.backup.Some? then EndCourse(r.desk) else r.desk;
    PutBackUndoesNarrowing(overrides, free.play);
    if r.desk.own.Some? {
      NarrowedUnderOwn(overrides, r.desk.own.value, free.play);
      if r.desk.backup.Some? {
        OwnUnderPutBack(r.desk.overrides.value, r.desk.backup.value, r.desk.own.value, r.desk.play);
      }
    }
  }

  /** What else the invariant asks for does not depend on a course. */
  lemma CourseKeepsTheRest(r: Record, constraints: seq<Constraint>)
    requires Sound(r)
    ensures Sound(r.(desk := BeginCourse(r.desk, constraints))) <==> ToSave(BeginCourse(r.desk, constraints)) == r.mine
    ensures Sound(r.(desk := EndCourse(r.desk))) <==> ToSave(EndCourse(r.desk)) == r.mine
  {
    hide OverridesOf, ToSave;
  }

  /** And ending one. */
  lemma EndKeepsExactly(r: Record)
    requires Sound(r)
    ensures ToSave(EndCourse(r.desk)) == r.mine <==> EndKeeps(r.desk)
  {}

  predicate OfThree(edit: Edit) {
    edit.SetScratchAuto? || edit.SetGauge? || edit.SetRandom?
  }

  lemma EditingKeepsOptions(play: Play, edit: Edit)
    ensures !OfThree(edit) ==> OwnOf(Edited(play, edit)) == OwnOf(play)
  {}

  lemma OwnOverEdit(own: Own, play: Play, edit: Edit)
    requires !OfThree(edit)
    ensures own.PutInto(Edited(play, edit)) == Edited(own.PutInto(play), edit)
  {}

  lemma CourseOverEdit(overrides: Overrides, own: Play, play: Play, edit: Edit)
    ensures var held := (overrides.random != Free && edit.SetRandom?)
            || (overrides.speedLocked && (edit.SetSpeed? || edit.SetShades?));
            overrides.PutBackInto(own, Edited(play, edit))
            == if held then overrides.PutBackInto(own, play) else Edited(overrides.PutBackInto(own, play), edit)
  {}

  lemma EditIsSound(r: Record, edit: Edit)
    requires Sound(r) && Allowed(r, Edit(edit))
    ensures Sound(Recorded(r, Edit(edit)))
  {
    hide Edited;
    EditingKeepsOptions(r.desk.play, edit);
    EditingKeepsOptions(r.mine, edit);
    if r.desk.own.Some? {
      OwnOverEdit(r.desk.own.value, r.desk.play, edit);
    }
    if r.desk.overrides.Some? {
      var own := if r.desk.own.Some? then r.desk.own.value.PutInto(r.desk.play) else r.desk.play;
      CourseOverEdit(r.desk.overrides.value, r.desk.backup.value, own, edit);
    }
  }

  lemma OpenedIsSound(play: Play)
    ensures Sound(Opened(play)) && ToSave(Opened(play).desk) == Opened(play).mine
  {}

  /** After any step the file is right exactly when the step's guard held. */
  lemma StepIsSound(r: Record, op: Op)
    requires Sound(r) && Allowed(r, op)
    ensures Sound(Recorded(r, op)) <==> Guarded(r.desk, op)
    ensures ToSave(Recorded(r, op).desk) == Recorded(r, op).mine <==> Guarded(r.desk, op)
  {
    hide Loaded, Borrow, BorrowWatched, BeginCourse, EndCourse, EndReplay, LetGo, BeginKeeps, EndKeeps;
    match op
    case Edit(edit) => EditIsSound(r, edit);
    case Load(md5) => LoadIsSound(r, md5);
    case BorrowFrom(request, chart) => BorrowIsSound(r, request, chart);
    case BorrowFromWatched(source, kept, chart) => BorrowWatchedIsSound(r, source, kept, chart);
    case HandLayoutOn => PutBackIsSound(r);
    case LetLayoutGo => PutBackIsSound(r);
    case EndTheReplay => PutBackIsSound(r);
    case Begin(constraints) =>
      CourseKeepsTheRest(r, constraints);
      BeginKeepsExactly(r, constraints);
    case End =>
      CourseKeepsTheRest(r, []);
      EndKeepsExactly(r);
    case _ =>
  }

  /** Every course of the run began and ended with its guard. */
  ghost predicate AllGuarded(play: Play, ops: seq<Op>)
    requires After(Opened(play), ops).Some?
  {
    ops == []
    || (var init := ops[..|ops| - 1];
        AllGuarded(play, init) && Guarded(After(Opened(play), init).value.desk, ops[|ops| - 1]))
  }

  /** At every moment of the run the file would have held what the player had set. */
  ghost predicate AlwaysRight(play: Play, ops: seq<Op>)
    requires After(Opened(play), ops).Some?
  {
    var r := After(Opened(play), ops).value;
    ToSave(r.desk) == r.mine && (ops == [] || AlwaysRight(play, ops[..|ops| - 1]))
  }

  lemma {:induction false} RunIsSound(play: Play, ops: seq<Op>)
    requires After(Opened(play), ops).Some? && AllGuarded(play, ops)
    ensures Sound(After(Opened(play), ops).value)
  {
    hide Sound, Recorded, Allowed, Guarded;
    if ops == [] {
      OpenedIsSound(play);
    } else {
      RunIsSound(play, ops[..|ops| - 1]);
      StepIsSound(After(Opened(play), ops[..|ops| - 1]).value, ops[|ops| - 1]);
    }
  }

  // ---------- Main results ----------

  /** In every run, whatever replays and layouts courses begin and end over, the file holds at every moment
      what the player set exactly when each course begins and ends with its guard. */
  lemma {:induction false} TheFileHoldsThePlayers(play: Play, ops: seq<Op>)
    requires After(Opened(play), ops).Some?
    ensures AlwaysRight(play, ops) <==> AllGuarded(play, ops)
  {
    hide Sound, Recorded, Allowed, Guarded, ToSave;
    if ops == [] {
      OpenedIsSound(play);
    } else {
      var init := ops[..|ops| - 1];
      TheFileHoldsThePlayers(play, init);
      if AllGuarded(play, init) {
        RunIsSound(play, init);
        StepIsSound(After(Opened(play), init).value, ops[|ops| - 1]);
      }
    }
  }

  /** Courses begun and ended with no replay's options in the settings always have their guard. */
  lemma GuardedWithoutAReplay(desk: Desk, op: Op)
    requires desk.own.None?
    ensures Guarded(desk, op)
  {
    hide OverridesOf;
  }

  /** A replay taken in hand and never ended, a grade course begun, a stage of it loaded as that replay, and
      the course ended: the file would hold the arrangement the course clamped to. */
  lemma EndedOverAReplay(play: Play, replay: Replay, md5: string)
    requires play.random == Random
    ensures var ops := [TakeReplay(replay), Begin([GradeClass]), Load(md5), End];
            var last := After(Opened(play), ops);
            last.Some? && ToSave(last.value.desk).random == Off && last.value.mine.random == Random
  {
    hide SameIgnoringCase, ArrangementOf, GaugeOf, OverridesOf;
    assert OverridesOf([GradeClass]) == Overrides(false, LockOff, None, []) by { OneConstraint(); }
    var ops := [TakeReplay(replay), Begin([GradeClass]), Load(md5), End];
    var start := Opened(play);
    assert ops[..3][..2] == ops[..2] && ops[..2][..1] == ops[..1] && ops[..1][..0] == [];
    var first := Recorded(start, ops[0]);
    assert After(start, ops[..0]) == Some(start) && After(start, ops[..1]) == Some(first);
    var second := Recorded(first, ops[1]);
    assert After(start, ops[..2]) == Some(second);
    assert second.desk.play.random == Off && second.desk.backup == Some(play) && second.desk.own.None?;
    var third := Recorded(second, ops[2]);
    assert After(start, ops[..3]) == Some(third);
    assert third.desk.own.value.random == Off && third.desk.backup == Some(play);
    var fourth := Recorded(third, ops[3]);
    assert After(start, ops) == Some(fourth);
  }

  lemma OneConstraint()
    ensures OverridesOf([GradeClass]) == Overrides(false, LockOff, None, [])
  {
    assert [GradeClass][..0] == [];
  }

  /** Once a replay has ended, what is in force is what the player set, but for what a course holds. */
  lemma EndingBringsThePlayersBack(play: Play, ops: seq<Op>)
    requires After(Opened(play), ops).Some? && AllGuarded(play, ops)
    ensures var r := After(Opened(play), ops).value;
            var ended := EndReplay(r.desk);
            && OwnInForce(ended)
            && ended.play.scratchAuto == r.mine.scratchAuto && ended.play.gauge == r.mine.gauge
            && (r.desk.overrides.None? ==> ended.play == r.mine)
            && (LockInForce(r.desk) == Free ==> ended.play.random == r.mine.random)
  {
    hide After, Opened, AllGuarded;
    RunIsSound(play, ops);
  }

  /** A load lays the lanes out on the arrangement then in the settings. Under a borrowed layout the rest
      of the options are the player's own; with nothing in hand all of them are, but for what a course
      holds. */
  lemma LoadsOnTheRightOptions(play: Play, ops: seq<Op>, md5: string)
    requires After(Opened(play), ops).Some? && AllGuarded(play, ops)
    ensures var r := After(Opened(play), ops).value;
            var desk := Loaded(r.desk, md5);
            && (desk.replay.Some? ==> desk.borrowed.None? && OwnOf(desk.play) == RecordedIn(desk.replay.value))
            && (desk.borrowed.Some? ==>
                  && desk.play.random == desk.borrowed.value.layout.random
                  && desk.play.gauge == r.mine.gauge && desk.play.scratchAuto == r.mine.scratchAuto)
            && (desk.replay.None? && desk.borrowed.None? && desk.overrides.None? ==> desk.play == r.mine)
  {
    hide After, Opened, AllGuarded, SameIgnoringCase;
    RunIsSound(play, ops);
    RightOptions(After(Opened(play), ops).value, md5);
  }

  lemma RightOptions(r: Record, md5: string)
    requires Sound(r)
    ensures var desk := Loaded(r.desk, md5);
            && (desk.replay.Some? ==> desk.borrowed.None? && OwnOf(desk.play) == RecordedIn(desk.replay.value))
            && (desk.borrowed.Some? ==>
                  && desk.play.random == desk.borrowed.value.layout.random
                  && desk.play.gauge == r.mine.gauge && desk.play.scratchAuto == r.mine.scratchAuto)
            && (desk.replay.None? && desk.borrowed.None? && desk.overrides.None? ==> desk.play == r.mine)
  {
    hide SameIgnoringCase, ArrangementOf, GaugeOf;
  }

  // ---------- How long a borrowed layout lasts ----------

  predicate Lends(op: Op) {
    op.BorrowFrom? || op.BorrowFromWatched? || op.HandLayoutOn?
  }

  predicate NotLent(desk: Desk) {
    desk.borrowed.None? || !desk.borrowed.value.forNextLoad
  }

  lemma StepLeavesNotLent(r: Record, op: Op)
    requires NotLent(r.desk) && !Lends(op)
    ensures NotLent(Recorded(r, op).desk)
  {
    hide SameIgnoringCase, ArrangementOf, GaugeOf, OverridesOf;
  }

  /** A layout serves one load each time it is borrowed or handed on: after a load, whatever happens but that,
      no other is laid out with it. */
  lemma {:induction false} LayoutLastsForItsLoads(r: Record, md5: string, ops: seq<Op>, other: string)
    requires forall i :: 0 <= i < |ops| ==> !Lends(ops[i])
    ensures var after := After(Recorded(r, Load(md5)), ops);
            after.Some? ==> NotLent(after.value.desk) && !LaysOutAsBorrowed(after.value.desk, other)
  {
    hide Recorded, Allowed, SameIgnoringCase;
    if ops == [] {
      LoadedIsNotLent(r, md5);
    } else {
      var init := ops[..|ops| - 1];
      LayoutLastsForItsLoads(r, md5, init, other);
      var before := After(Recorded(r, Load(md5)), init);
      if before.Some? {
        StepLeavesNotLent(before.value, ops[|ops| - 1]);
      }
    }
  }

  lemma LoadedIsNotLent(r: Record, md5: string)
    ensures NotLent(Recorded(r, Load(md5)).desk)
  {
    hide SameIgnoringCase, ArrangementOf, GaugeOf;
  }

  /** A retry of the chart a layout is borrowed for, after any run: the load is laid out as borrowed, the very
      layout and seed, exactly when no replay has been taken in hand since and the retry carries that seed. */
  lemma HandedOnExactly(play: Play, ops: seq<Op>, md5: string, carried: Option<nat>, newSeed: nat)
    requires After(Opened(play), ops).Some?
    ensures var desk := After(Opened(play), ops).value.desk;
            var ready := After(Opened(play), ops + [HandLayoutOn]);
            var loaded := After(Opened(play), ops + [HandLayoutOn, Load(md5)]);
            && ready.Some? && loaded.Some?
            && (loaded.value.desk.borrowed.Some? <==>
                  && desk.replay.None?
                  && desk.borrowed.Some? && SameIgnoringCase(desk.borrowed.value.md5, md5)
                  && desk.retrySeed == Some(desk.borrowed.value.layout.seed))
            && (loaded.value.desk.borrowed.Some? ==>
                  && loaded.value.desk.borrowed == Some(desk.borrowed.value.(forNextLoad := false))
                  && loaded.value.desk.play.random == desk.borrowed.value.layout.random
                  && SeedToLoad(ready.value.desk, md5, carried, newSeed) == desk.borrowed.value.layout.seed)
  {
    hide After, SameIgnoringCase, ArrangementOf, GaugeOf;
    var start, r := Opened(play), After(Opened(play), ops).value;
    OneMoreOp(start, ops, HandLayoutOn);
    OneMoreOp(start, ops + [HandLayoutOn], Load(md5));
    assert (ops + [HandLayoutOn]) + [Load(md5)] == ops + [HandLayoutOn, Load(md5)];
  }

  lemma OneMoreOp(r: Record, ops: seq<Op>, op: Op)
    requires After(r, ops).Some? && Allowed(After(r, ops).value, op)
    ensures After(r, ops + [op]) == Some(Recorded(After(r, ops).value, op))
  {
    hide Recorded, Allowed;
    assert (ops + [op])[..|ops|] == ops;
  }
}
