/** The play settings while something else is in them for a time: a replay being watched, a layout
    borrowed from one (app_play.rs, borrowed_layout.rs), a course that narrows them (course_ui.rs). */
module PlaySettings {
  import opened Common

  datatype Arrangement = Off | Mirror | Random | SRandom | RRandom | Rotate | HRandom | AllScratch

  datatype Gauge = AssistEasy | Easy | Normal | Hard | ExHard | Hazard

  /** `rest` stands for the settings nothing here touches. */
  datatype Play = Play(
    scratchAuto: bool,
    gauge: Gauge,
    random: Arrangement,
    hispeed: real,
    constantSpeed: bool,
    cover: real,
    lift: real,
    hidden: real,
    enableCover: bool,
    enableLift: bool,
    enableHidden: bool,
    rest: int)

  // ---------- Names ----------

  function Upper(s: string): string {
    seq(|s|, i requires 0 <= i < |s| => if 'a' <= s[i] <= 'z' then s[i] - 'a' + 'A' else s[i])
  }

  predicate SameIgnoringCase(s: string, t: string) {
    Upper(s) == Upper(t)
  }

  function ArrangementOf(word: string): Arrangement {
    var name := Upper(word);
    if name == "MIRROR" then Mirror
    else if name == "RANDOM" then Random
    else if name == "S-RANDOM" || name == "SRANDOM" then SRandom
    else if name == "R-RANDOM" || name == "RRANDOM" then RRandom
    else if name == "ROTATE" then Rotate
    else if name == "H-RANDOM" || name == "HRANDOM" then HRandom
    else if name == "ALL-SCRATCH" || name == "ALLSCRATCH" || name == "ALL-SCR" then AllScratch
    else Off
  }

  function GaugeOf(word: string): Gauge {
    var name := Upper(word);
    if name == "ASSIST" || name == "ASSISTEASY" then AssistEasy
    else if name == "EASY" then Easy
    else if name == "HARD" then Hard
    else if name == "EXHARD" then ExHard
    else if name == "HAZARD" then Hazard
    else Normal
  }

  /** The arrangement a replay's label names, if this player has it. */
  function NamedArrangement(word: string): Option<Arrangement> {
    if SameIgnoringCase(word, "OFF") then Some(Off)
    else if SameIgnoringCase(word, "Spiral") then Some(Rotate)
    else if ArrangementOf(word) != Off then Some(ArrangementOf(word))
    else None
  }

  // ---------- What is in the settings for a time ----------

  datatype Own = Own(scratchAuto: bool, gauge: Gauge, random: Arrangement) {
    function PutInto(play: Play): Play {
      play.(scratchAuto := scratchAuto, gauge := gauge, random := random)
    }
  }

  function OwnOf(play: Play): Own {
    Own(play.scratchAuto, play.gauge, play.random)
  }

  datatype Replay = Replay(md5: string, random: string, seed: nat, gauge: string, scratchAuto: bool)

  function RecordedIn(replay: Replay): Own {
    Own(replay.scratchAuto, GaugeOf(replay.gauge), ArrangementOf(replay.random))
  }

  datatype Request = Request(md5: string, word: string, seed: nat, source: string)

  datatype Layout = Layout(random: Arrangement, seed: nat, source: string)

  datatype Refusal =
    | ChartMismatch(replay: string, chart: string)
    | UnknownLayout
    | UnsupportedOption(word: string)
    | NotFreePlay
    | ArrangementUnknown

  /** `kept` stands for the run of this machine a layout came from. */
  datatype Borrowing = Borrowing(layout: Layout, md5: string, forNextLoad: bool, kept: Option<int>)

  function CheckRequest(request: Request, chart: Option<string>, byHand: bool): Result<Layout, Refusal> {
    var md5 := if chart.Some? then chart.value else "";
    if !byHand then Err(NotFreePlay)
    else if request.md5 == "" || !SameIgnoringCase(request.md5, md5) then Err(ChartMismatch(request.md5, md5))
    else
      match NamedArrangement(request.word)
      case None => Err(UnsupportedOption(request.word))
      case Some(random) =>
        if request.seed == 0 && random != Off then Err(UnknownLayout)
        else Ok(Layout(random, request.seed, request.source))
  }

  /** The replay's own chart, an arrangement this player has, and a seed that can lay it out. */
  predicate Lendable(request: Request, chart: Option<string>) {
    && request.md5 != ""
    && chart.Some? && SameIgnoringCase(request.md5, chart.value)
    && NamedArrangement(request.word).Some?
    && (request.seed != 0 || SameIgnoringCase(request.word, "OFF"))
  }

  /** A layout is lent exactly to a run by hand, of what can be lent. */
  lemma LentExactlyWhen(request: Request, chart: Option<string>, byHand: bool)
    ensures CheckRequest(request, chart, byHand).Ok? <==> byHand && Lendable(request, chart)
    ensures NamedArrangement(request.word) == Some(Off) <==> SameIgnoringCase(request.word, "OFF")
  {
    assert |Upper(request.md5)| == |request.md5| && |Upper("")| == 0;
    if SameIgnoringCase(request.word, "OFF") {
      assert Upper("OFF") == "OFF";
    }
    assert Upper("Spiral") == "SPIRAL";
  }

  // ---------- Courses ----------

  datatype Constraint =
    | GradeClass | GradeMirror | GradeRandom | NoSpeed | NoGood | NoGreat
    | GaugeLr2 | Gauge5Keys | Gauge7Keys | Gauge9Keys | Gauge24Keys
    | Ln | Cn | Hcn

  datatype LnMode = LongNote | ChargeNote | HellChargeNote

  datatype RandomLock = Free | LockOff | LockMirror | LockRandom {
    function Clamp(chosen: Arrangement): Arrangement {
      match this
      case Free => chosen
      case LockOff => Off
      case LockMirror => if chosen == Mirror then Mirror else Off
      case LockRandom => if chosen in [Off, Mirror, Random, SRandom, RRandom, Rotate] then chosen else Off
    }
  }

  datatype Overrides = Overrides(
    speedLocked: bool, random: RandomLock, lnMode: Option<LnMode>, unapplied: seq<Constraint>) {

    function With(constraint: Constraint): Overrides {
      match constraint
      case GradeClass => this.(random := LockOff)
      case GradeMirror => this.(random := LockMirror)
      case GradeRandom => this.(random := LockRandom)
      case NoSpeed => this.(speedLocked := true)
      case NoGood => this.(unapplied := unapplied + [constraint])
      case NoGreat => this.(unapplied := unapplied + [constraint])
      case Ln => this.(lnMode := Some(LongNote))
      case Cn => this.(lnMode := Some(ChargeNote))
      case Hcn => this.(lnMode := Some(HellChargeNote))
      case _ => this
    }

    function ApplyTo(play: Play): Play {
      var clamped := play.(random := random.Clamp(play.random));
      if speedLocked then
        clamped.(hispeed := 1.0, constantSpeed := false, cover := 0.0, lift := 0.0, hidden := 0.0,
                 enableCover := false, enableLift := false, enableHidden := false)
      else clamped
    }

    function PutBackInto(own: Play, play: Play): Play {
      var arranged := if random != Free then play.(random := own.random) else play;
      if speedLocked then
        arranged.(hispeed := own.hispeed, constantSpeed := own.constantSpeed,
                  cover := own.cover, lift := own.lift, hidden := own.hidden,
                  enableCover := own.enableCover, enableLift := own.enableLift, enableHidden := own.enableHidden)
      else arranged
    }
  }

  const NOTHING := Overrides(false, Free, None, [])

  /** The constraints of a course, a later one over an earlier one of its kind. */
  function OverridesOf(constraints: seq<Constraint>): Overrides {
    if constraints == [] then NOTHING
    else OverridesOf(constraints[..|constraints| - 1]).With(constraints[|constraints| - 1])
  }

  /** The lock a constraint asks for, if it is one of a grade course. */
  function LockOf(constraint: Constraint): Option<RandomLock> {
    match constraint
    case GradeClass => Some(LockOff)
    case GradeMirror => Some(LockMirror)
    case GradeRandom => Some(LockRandom)
    case _ => None
  }

  /** A course is locked to the speed exactly when it holds NO SPEED, its arrangements are those of its
      last grade constraint, and free exactly when it holds none. */
  lemma {:induction false} OverridesAreTheConstraints(constraints: seq<Constraint>, k: nat)
    ensures OverridesOf(constraints).speedLocked <==> NoSpeed in constraints
    ensures OverridesOf(constraints).random == Free <==> forall c :: c in constraints ==> LockOf(c).None?
    ensures k < |constraints| && LockOf(constraints[k]).Some?
            && (forall j :: k < j < |constraints| ==> LockOf(constraints[j]).None?)
            ==> OverridesOf(constraints).random == LockOf(constraints[k]).value
  {
    if constraints != [] {
      var init, last := constraints[..|constraints| - 1], constraints[|constraints| - 1];
      OverridesAreTheConstraints(init, k);
      assert constraints == init + [last];
      assert forall c :: c in constraints <==> c in init || c == last;
      assert OverridesOf(constraints).random == Free <==> OverridesOf(init).random == Free && LockOf(last).None?;
    }
  }

  // ---------- The shared state ----------

  datatype Desk = Desk(
    play: Play,
    own: Option<Own>,
    replay: Option<Replay>,
    borrowed: Option<Borrowing>,
    backup: Option<Play>,
    overrides: Option<Overrides>,
    retrySeed: Option<nat>,
    practice: bool,
    playsItself: bool)

  function PlayAsRecorded(desk: Desk): Desk {
    if desk.replay.None? then desk
    else
      desk.(own := if desk.own.Some? then desk.own else Some(OwnOf(desk.play)),
            play := RecordedIn(desk.replay.value).PutInto(desk.play))
  }

  function PutBackOwn(desk: Desk): Desk {
    if desk.own.None? then desk else desk.(own := None, play := desk.own.value.PutInto(desk.play))
  }

  function LetGo(desk: Desk): Desk {
    if desk.borrowed.None? then desk else PutBackOwn(desk.(borrowed := None))
  }

  predicate LaysOutAsBorrowed(desk: Desk, md5: string) {
    desk.borrowed.Some? && desk.borrowed.value.forNextLoad && SameIgnoringCase(desk.borrowed.value.md5, md5)
  }

  function LayOutAsBorrowed(desk: Desk, md5: string): Desk {
    if !LaysOutAsBorrowed(desk, md5) then LetGo(desk)
    else
      desk.(borrowed := Some(desk.borrowed.value.(forNextLoad := false)),
            own := if desk.own.Some? then desk.own else Some(OwnOf(desk.play)),
            play := desk.play.(random := desk.borrowed.value.layout.random))
  }

  function Loaded(desk: Desk, md5: string): Desk {
    if desk.replay.Some? then PlayAsRecorded(LetGo(desk))
    else if LaysOutAsBorrowed(desk, md5) then LayOutAsBorrowed(desk, md5)
    else PutBackOwn(LetGo(desk))
  }

  /** `newSeed` is the seed the clock gives. */
  function SeedToLoad(desk: Desk, md5: string, carried: Option<nat>, newSeed: nat): nat {
    if desk.replay.Some? then desk.replay.value.seed
    else if LaysOutAsBorrowed(desk, md5) then desk.borrowed.value.layout.seed
    else if carried.Some? then carried.value
    else newSeed
  }

  function EndReplay(desk: Desk): Desk {
    PutBackOwn(desk.(replay := None, borrowed := None))
  }

  predicate PlaysByHand(desk: Desk) {
    desk.backup.None? && !desk.practice && !desk.playsItself
  }

  function Borrow(desk: Desk, request: Request, chart: Option<string>): Desk {
    match CheckRequest(request, chart, PlaysByHand(desk))
    case Err(_) => desk
    case Ok(layout) => EndReplay(desk).(borrowed := Some(Borrowing(layout, request.md5, true, None)))
  }

  function RequestOf(replay: Replay, source: string): Request {
    Request(replay.md5, replay.random, replay.seed, source)
  }

  /** Why the layout of the replay being watched is refused, if it is. `chart` is the library's chart of
      its hash. */
  function WatchedRefusal(
    desk: Desk, replay: Replay, source: string, kept: Option<int>, chart: Option<string>): Option<Refusal> {
    if chart.None? then Some(ChartMismatch(replay.md5, ""))
    else
      match CheckRequest(RequestOf(replay, source), chart, PlaysByHand(desk))
      case Err(refusal) => Some(refusal)
      case Ok(layout) => if kept.None? && layout.random == Off then Some(ArrangementUnknown) else None
  }

  function BorrowWatched(desk: Desk, source: string, kept: Option<int>, chart: Option<string>): Desk {
    if desk.replay.None? || WatchedRefusal(desk, desk.replay.value, source, kept, chart).Some? then desk
    else
      var lent := Borrow(desk, RequestOf(desk.replay.value, source), chart);
      if lent.borrowed.Some? then lent.(borrowed := Some(lent.borrowed.value.(kept := kept))) else lent
  }

  function HandOn(desk: Desk): Desk {
    if desk.borrowed.Some? && desk.retrySeed == Some(desk.borrowed.value.layout.seed) then
      desk.(borrowed := Some(desk.borrowed.value.(forNextLoad := true)))
    else LetGo(desk)
  }

  function EndCourse(desk: Desk): Desk {
    var ended := desk.(backup := None, overrides := None);
    if desk.backup.Some? && desk.overrides.Some? then
      ended.(play := desk.overrides.value.PutBackInto(desk.backup.value, desk.play))
    else ended
  }

  function BeginCourse(desk: Desk, constraints: seq<Constraint>): Desk {
    var free := if desk.backup.Some? then EndCourse(desk) else desk;
    var overrides := OverridesOf(constraints);
    free.(backup := Some(free.play), overrides := Some(overrides), play := overrides.ApplyTo(free.play))
  }

  /** The play settings as the settings file is to hold them. */
  function ToSave(desk: Desk): Play {
    var own := if desk.own.Some? then desk.own.value.PutInto(desk.play) else desk.play;
    if desk.backup.Some? && desk.overrides.Some? then desk.overrides.value.PutBackInto(desk.backup.value, own) else own
  }

  // ---------- As the program keeps it ----------

  /** The fields of the application the methods write. */
  class Shared {
    var play: Play
    var own: Option<Own>
    var replay: Option<Replay>
    var borrowed: Option<Borrowing>
    var backup: Option<Play>
    var overrides: Option<Overrides>
    var retrySeed: Option<nat>
    var practice: bool
    var playsItself: bool

    ghost function State(): Desk
      reads this
    {
      Desk(play, own, replay, borrowed, backup, overrides, retrySeed, practice, playsItself)
    }

    constructor (play: Play)
      ensures State() == Desk(play, None, None, None, None, None, None, false, false)
    {
      this.play, own, replay, borrowed, backup, overrides, retrySeed := play, None, None, None, None, None, None;
      practice, playsItself := false, false;
    }

    method PutBackOwnPlayOptions()
      modifies this`own, this`play
      ensures State() == PutBackOwn(old(State()))
    {
      if own.Some? {
        play := own.value.PutInto(play);
        own := None;
      }
    }

    method LetGoOfBorrowedLayout()
      modifies this`own, this`play, this`borrowed
      ensures State() == LetGo(old(State()))
    {
      if borrowed.Some? {
        borrowed := None;
        PutBackOwnPlayOptions();
      }
    }

    method LayOutAsBorrowedFor(md5: string) returns (layout: Option<(Arrangement, nat)>)
      modifies this`own, this`play, this`borrowed
      ensures State() == LayOutAsBorrowed(old(State()), md5)
      ensures layout
              == if LaysOutAsBorrowed(old(State()), md5)
                 then Some((old(borrowed).value.layout.random, old(borrowed).value.layout.seed))
                 else None
    {
      if borrowed.None? || !borrowed.value.forNextLoad || !SameIgnoringCase(borrowed.value.md5, md5) {
        LetGoOfBorrowedLayout();
        return None;
      }
      borrowed := Some(borrowed.value.(forNextLoad := false));
      if own.None? {
        own := Some(OwnOf(play));
      }
      play := play.(random := borrowed.value.layout.random);
      return Some((borrowed.value.layout.random, borrowed.value.layout.seed));
    }

    method PlayReplayAsRecorded() returns (layout: Option<(Arrangement, nat)>)
      modifies this`own, this`play
      ensures State() == PlayAsRecorded(old(State()))
      ensures layout == if replay.Some? then Some((ArrangementOf(replay.value.random), replay.value.seed)) else None
    {
      if replay.None? {
        return None;
      }
      var recorded := RecordedIn(replay.value);
      if own.None? {
        own := Some(OwnOf(play));
      }
      play := recorded.PutInto(play);
      return Some((recorded.random, replay.value.seed));
    }

    method LayoutToLoad(md5: string, carried: Option<nat>, newSeed: nat) returns (random: Arrangement, seed: nat)
      modifies this`own, this`play, this`borrowed
      ensures State() == Loaded(old(State()), md5)
      ensures seed == SeedToLoad(old(State()), md5, carried, newSeed)
      ensures old(replay).Some? ==> seed == old(replay).value.seed && random == ArrangementOf(old(replay).value.random)
      ensures old(replay).None? && old(borrowed).None? ==> seed == if carried.Some? then carried.value else newSeed
      ensures random == play.random
    {
      var layout: Option<(Arrangement, nat)> := None;
      if replay.Some? {
        LetGoOfBorrowedLayout();
      } else {
        layout := LayOutAsBorrowedFor(md5);
      }
      var recorded := PlayReplayAsRecorded();
      if layout.Some? {
        return layout.value.0, layout.value.1;
      }
      if recorded.Some? {
        return recorded.value.0, recorded.value.1;
      }
      PutBackOwnPlayOptions();
      return play.random, if carried.Some? then carried.value else newSeed;
    }

    method StopReplay()
      modifies this`own, this`play, this`borrowed, this`replay
      ensures State() == EndReplay(old(State()))
    {
      replay := None;
      borrowed := None;
      PutBackOwnPlayOptions();
    }

    method BorrowLayout(request: Request, chart: Option<string>) returns (refusal: Option<Refusal>)
      modifies this`own, this`play, this`borrowed, this`replay
      ensures State() == Borrow(old(State()), request, chart)
      ensures refusal
              == (match CheckRequest(request, chart, PlaysByHand(old(State())))
                  case Ok(_) => None
                  case Err(why) => Some(why))
      ensures refusal.None? <==> old(backup).None? && !practice && !playsItself && Lendable(request, chart)
    {
      LentExactlyWhen(request, chart, backup.None? && !practice && !playsItself);
      var checked := CheckRequest(request, chart, backup.None? && !practice && !playsItself);
      if checked.Err? {
        return Some(checked.error);
      }
      StopReplay();
      borrowed := Some(Borrowing(checked.value, request.md5, true, None));
      return None;
    }

    /** Nothing is answered when no replay is being watched. */
    method BorrowLayoutOfWatchedReplay(source: string, kept: Option<int>, chart: Option<string>)
      returns (watching: bool, refusal: Option<Refusal>)
      modifies this`own, this`play, this`borrowed, this`replay
      ensures State() == BorrowWatched(old(State()), source, kept, chart)
      ensures watching == old(replay.Some?)
      ensures refusal == if watching then WatchedRefusal(old(State()), old(replay).value, source, kept, chart) else None
    {
      watching, refusal := replay.Some?, None;
      if !watching {
        return;
      }
      var request := RequestOf(replay.value, source);
      if chart.None? {
        return true, Some(ChartMismatch(request.md5, ""));
      }
      if kept.None? {
        var checked := CheckRequest(request, chart, backup.None? && !practice && !playsItself);
        if checked.Err? {
          return true, Some(checked.error);
        }
        if checked.value.random == Off {
          return true, Some(ArrangementUnknown);
        }
      }
      refusal := BorrowLayout(request, chart);
      if borrowed.Some? && refusal.None? {
        borrowed := Some(borrowed.value.(kept := kept));
      }
    }

    method HandBorrowedLayoutOn()
      modifies this`own, this`play, this`borrowed
      ensures State() == HandOn(old(State()))
    {
      if borrowed.Some? && Some(borrowed.value.layout.seed) == retrySeed {
        borrowed := Some(borrowed.value.(forNextLoad := true));
      } else {
        LetGoOfBorrowedLayout();
      }
    }

    method StartCourse(constraints: seq<Constraint>)
      modifies this`play, this`backup, this`overrides
      ensures State() == BeginCourse(old(State()), constraints)
    {
      if backup.Some? {
        FinishCourse();
      }
      var out := NOTHING;
      for i := 0 to |constraints|
        invariant out == OverridesOf(constraints[..i])
      {
        assert constraints[..i + 1][..i] == constraints[..i];
        out := out.With(constraints[i]);
      }
      assert constraints[..|constraints|] == constraints;
      backup := Some(play);
      play := out.ApplyTo(play);
      overrides := Some(out);
    }

    method FinishCourse()
      modifies this`play, this`backup, this`overrides
      ensures State() == EndCourse(old(State()))
    {
      if backup.Some? && overrides.Some? {
        play := overrides.value.PutBackInto(backup.value, play);
      }
      backup, overrides := None, None;
    }

    method SettingsToSave() returns (saved: Play)
      ensures saved == ToSave(State())
    {
      if own.None? && backup.None? {
        return play;
      }
      saved := play;
      if own.Some? {
        saved := own.value.PutInto(saved);
      }
      if backup.Some? && overrides.Some? {
        saved := overrides.value.PutBackInto(backup.value, saved);
      }
    }
  }
}
