/** What the names, the refusals, the loads and the courses come to, each told from what is asked for. */
module SettingsMeaning {
  import opened Common
  import opened PlaySettings
  import opened SettingsRuns

  // ---------- Names ----------

  predicate SameLetter(c: char, d: char) {
    || c == d
    || ('a' <= c <= 'z' && d == c - 'a' + 'A')
    || ('a' <= d <= 'z' && c == d - 'a' + 'A')
  }

  /** Case is that of ASCII letters. */
  lemma SameIgnoringCaseExactly(s: string, t: string)
    ensures SameIgnoringCase(s, t) <==> |s| == |t| && forall i :: 0 <= i < |s| ==> SameLetter(s[i], t[i])
  {
    assert |Upper(s)| == |s| && |Upper(t)| == |t|;
    if SameIgnoringCase(s, t) {
      forall i | 0 <= i < |s| ensures SameLetter(s[i], t[i]) {
        assert Upper(s)[i] == Upper(t)[i];
      }
    }
    if |s| == |t| && forall i :: 0 <= i < |s| ==> SameLetter(s[i], t[i]) {
      assert forall i :: 0 <= i < |s| ==> Upper(s)[i] == Upper(t)[i];
    }
  }

  /** The names an arrangement goes by; no other name is one of its. */
  function NamesOf(random: Arrangement): seq<string> {
    match random
    case Off => ["OFF"]
    case Mirror => ["MIRROR"]
    case Random => ["RANDOM"]
    case SRandom => ["S-RANDOM", "SRANDOM"]
    case RRandom => ["R-RANDOM", "RRANDOM"]
    case Rotate => ["ROTATE"]
    case HRandom => ["H-RANDOM", "HRANDOM"]
    case AllScratch => ["ALL-SCRATCH", "ALLSCRATCH", "ALL-SCR"]
  }

  ghost predicate Names(word: string, names: seq<string>) {
    exists i :: 0 <= i < |names| && SameIgnoringCase(word, names[i])
  }

  lemma UpperOfNames(random: Arrangement, i: nat)
    requires i < |NamesOf(random)|
    ensures Upper(NamesOf(random)[i]) == NamesOf(random)[i]
  {}

  lemma NamesAre(word: string, random: Arrangement)
    ensures Names(word, NamesOf(random)) <==> Upper(word) in NamesOf(random)
  {
    hide Upper;
    forall i: nat | i < |NamesOf(random)| ensures Upper(NamesOf(random)[i]) == NamesOf(random)[i] {
      UpperOfNames(random, i);
    }
  }

  /** A word names an arrangement exactly when it is one of its names in any case, and otherwise OFF. */
  lemma ArrangementsAreNamed(word: string, random: Arrangement)
    ensures random != Off ==> (ArrangementOf(word) == random <==> Names(word, NamesOf(random)))
    ensures ArrangementOf(word) == Off <==> forall r :: r != Off ==> !Names(word, NamesOf(r))
  {
    hide Upper, Names;
    NamesAre(word, random);
    NamesAre(word, ArrangementOf(word));
    forall r ensures Names(word, NamesOf(r)) <==> Upper(word) in NamesOf(r) {
      NamesAre(word, r);
    }
  }

  /** A layout is borrowed by the same names, with the score server's name for ROTATE, and OFF by its own only. */
  lemma LayoutsAreNamed(word: string, random: Arrangement)
    ensures NamedArrangement(word) == Some(random)
            <==> Names(word, NamesOf(random)) || (random == Rotate && SameIgnoringCase(word, "SPIRAL"))
  {
    hide Upper, Names;
    forall r ensures Names(word, NamesOf(r)) <==> Upper(word) in NamesOf(r) {
      NamesAre(word, r);
    }
    assert Upper("OFF") == "OFF" && Upper("Spiral") == "SPIRAL" && Upper("SPIRAL") == "SPIRAL" by {
      TheseAreUpper();
    }
  }

  lemma TheseAreUpper()
    ensures Upper("OFF") == "OFF" && Upper("Spiral") == "SPIRAL" && Upper("SPIRAL") == "SPIRAL"
  {}

  function TokensOf(gauge: Gauge): seq<string> {
    match gauge
    case AssistEasy => ["assist", "assisteasy"]
    case Easy => ["easy"]
    case Normal => []
    case Hard => ["hard"]
    case ExHard => ["exhard"]
    case Hazard => ["hazard"]
  }

  lemma TokensAre(word: string)
    ensures SameIgnoringCase(word, "assist") <==> Upper(word) == "ASSIST"
    ensures SameIgnoringCase(word, "assisteasy") <==> Upper(word) == "ASSISTEASY"
    ensures SameIgnoringCase(word, "easy") <==> Upper(word) == "EASY"
    ensures SameIgnoringCase(word, "hard") <==> Upper(word) == "HARD"
    ensures SameIgnoringCase(word, "exhard") <==> Upper(word) == "EXHARD"
    ensures SameIgnoringCase(word, "hazard") <==> Upper(word) == "HAZARD"
  {
    assert Upper("assist") == "ASSIST" && Upper("assisteasy") == "ASSISTEASY" && Upper("easy") == "EASY";
    assert Upper("hard") == "HARD" && Upper("exhard") == "EXHARD" && Upper("hazard") == "HAZARD";
  }

  /** A gauge goes by its tokens in any case, and anything else is NORMAL. */
  lemma GaugesAreNamed(word: string, gauge: Gauge)
    ensures gauge != Normal ==> (GaugeOf(word) == gauge <==> Names(word, TokensOf(gauge)))
    ensures GaugeOf(word) == Normal <==> forall g :: g != Normal ==> !Names(word, TokensOf(g))
  {
    hide Upper;
    TokensAre(word);
    forall g ensures Names(word, TokensOf(g)) <==> g != Normal && GaugeOf(word) == g {
      var names := TokensOf(g);
      if g != Normal && GaugeOf(word) == g {
        var i := if g == AssistEasy && Upper(word) == "ASSISTEASY" then 1 else 0;
        assert SameIgnoringCase(word, names[i]);
      }
    }
    var named := GaugeOf(word);
    assert Names(word, TokensOf(named)) <==> named != Normal;
  }

  // ---------- Refusals ----------

  /** Why a layout is refused, in order: the run would not be one by hand, the chart is another or there is none,
      the arrangement is none of this player's, or a shuffled one has no seed. */
  lemma RefusalsInOrder(request: Request, chart: Option<string>, byHand: bool)
    ensures var refusal := CheckRequest(request, chart, byHand);
            var same := request.md5 != "" && chart.Some? && SameIgnoringCase(request.md5, chart.value);
            var named := NamedArrangement(request.word);
            && (refusal == Err(NotFreePlay) <==> !byHand)
            && (refusal == Err(ChartMismatch(request.md5, if chart.Some? then chart.value else ""))
                <==> byHand && !same)
            && (refusal == Err(UnsupportedOption(request.word)) <==> byHand && same && named.None?)
            && (refusal == Err(UnknownLayout)
                <==> byHand && same && named.Some? && request.seed == 0 && named != Some(Off))
            && (refusal.Ok? <==> byHand && same && named.Some? && (request.seed != 0 || named == Some(Off)))
            && (refusal.Ok? ==> refusal.value == Layout(named.value, request.seed, request.source))
  {
    hide NamedArrangement;
    assert |Upper(request.md5)| == |request.md5| && |Upper("")| == 0;
  }

  /** A replay being watched is borrowed from under the same conditions, but one no run of this machine kept not as
      OFF; and without a chart there is nothing to play. */
  lemma WatchedLentExactly(desk: Desk, replay: Replay, source: string, kept: Option<int>, chart: Option<string>)
    ensures WatchedRefusal(desk, replay, source, kept, chart).None?
            <==> && chart.Some?
                 && CheckRequest(Request(replay.md5, replay.random, replay.seed, source), chart, PlaysByHand(desk)).Ok?
                 && (kept.Some? || NamedArrangement(replay.random) != Some(Off))
    ensures chart.None? ==>
              WatchedRefusal(desk, replay, source, kept, chart) == Some(ChartMismatch(replay.md5, ""))
    ensures WatchedRefusal(desk, replay, source, kept, chart) == Some(ArrangementUnknown)
            <==> && chart.Some? && kept.None? && NamedArrangement(replay.random) == Some(Off)
                 && CheckRequest(Request(replay.md5, replay.random, replay.seed, source), chart, PlaysByHand(desk)).Ok?
  {
    hide NamedArrangement, SameIgnoringCase;
  }

  /** What a layout lent is held as: the layout asked for, the chart, for the next load, and the run of this machine it
      came from; the replay has ended and the player's own options are back. */
  lemma WhatIsHeld(desk: Desk, request: Request, chart: Option<string>, source: string, kept: Option<int>)
    ensures CheckRequest(request, chart, PlaysByHand(desk)).Ok? ==>
              && NamedArrangement(request.word).Some?
              && var layout := Layout(NamedArrangement(request.word).value, request.seed, request.source);
              Borrow(desk, request, chart)
              == PutBackOwn(desk.(replay := None, borrowed := None))
                 .(borrowed := Some(Borrowing(layout, request.md5, true, None)))
    ensures desk.replay.Some? && WatchedRefusal(desk, desk.replay.value, source, kept, chart).None? ==>
              var replay := desk.replay.value;
              && NamedArrangement(replay.random).Some?
              && var layout := Layout(NamedArrangement(replay.random).value, replay.seed, source);
              BorrowWatched(desk, source, kept, chart)
              == PutBackOwn(desk.(replay := None, borrowed := None))
                 .(borrowed := Some(Borrowing(layout, replay.md5, true, kept)))
  {
    hide NamedArrangement, SameIgnoringCase;
  }

  // ---------- Loads ----------

  /** What a load is laid out with, whatever run came before: a replay in hand with its own arrangement, seed, gauge
      and SCRATCH AUTO, whatever seed is carried and whatever the clock gives; a layout lent to it with its own
      arrangement and seed; and anything else with the seed carried, or a fresh one if none is. */
  lemma LoadsAreLaidOutAs(desk: Desk, md5: string, carried: Option<nat>, newSeed: nat)
    ensures var loaded, seed := Loaded(desk, md5), SeedToLoad(desk, md5, carried, newSeed);
            match desk.replay
            case Some(replay) =>
              && seed == replay.seed
              && loaded.play.random == ArrangementOf(replay.random)
              && loaded.play.gauge == GaugeOf(replay.gauge)
              && loaded.play.scratchAuto == replay.scratchAuto
            case None =>
              match desk.borrowed
              case Some(Borrowing(layout, chart, true, _)) =>
                if SameIgnoringCase(chart, md5) then seed == layout.seed && loaded.play.random == layout.random
                else seed == (if carried.Some? then carried.value else newSeed)
              case _ => seed == (if carried.Some? then carried.value else newSeed)
  {
    hide ArrangementOf, GaugeOf, SameIgnoringCase;
  }

  /** A layout borrowed is lent to the next load of its chart, and no other: laid out by the arrangement and the
      seed asked for, with the player's own gauge and SCRATCH AUTO. */
  lemma LentAsAsked(
    play: Play, ops: seq<Op>, request: Request, chart: Option<string>, md5: string, carried: Option<nat>, newSeed: nat)
    requires After(Opened(play), ops).Some?
    requires CheckRequest(request, chart, PlaysByHand(After(Opened(play), ops).value.desk)).Ok?
    ensures var lent := After(Opened(play), ops + [BorrowFrom(request, chart)]);
            var loaded := After(Opened(play), ops + [BorrowFrom(request, chart), Load(md5)]);
            && lent.Some? && loaded.Some?
            && (loaded.value.desk.borrowed.Some? <==> SameIgnoringCase(request.md5, md5))
            && (SameIgnoringCase(request.md5, md5) ==>
                  && SeedToLoad(lent.value.desk, md5, carried, newSeed) == request.seed
                  && Some(loaded.value.desk.play.random) == NamedArrangement(request.word))
            && (!SameIgnoringCase(request.md5, md5) ==>
                  SeedToLoad(lent.value.desk, md5, carried, newSeed)
                  == if carried.Some? then carried.value else newSeed)
  {
    hide After, SameIgnoringCase, NamedArrangement, PlaysByHand;
    var start, asked := Opened(play), BorrowFrom(request, chart);
    OneMoreOp(start, ops, asked);
    OneMoreOp(start, ops + [asked], Load(md5));
    assert (ops + [asked]) + [Load(md5)] == ops + [asked, Load(md5)];
    RefusalsInOrder(request, chart, PlaysByHand(After(start, ops).value.desk));
  }

  /** Whether a course is in progress, and how the next run was last chosen to be. */
  predicate InCourse(ops: seq<Op>) {
    && ops != []
    && match ops[|ops| - 1]
       case Begin(_) => true
       case End => false
       case _ => InCourse(ops[..|ops| - 1])
  }

  /** A run that is neither a practice slice nor plays itself. */
  predicate ChosenByHand(ops: seq<Op>) {
    || ops == []
    || match ops[|ops| - 1]
       case Choose(practice, playsItself) => !practice && !playsItself
       case _ => ChosenByHand(ops[..|ops| - 1])
  }

  lemma CoursesAndChoices(r: Record, op: Op)
    ensures var desk := Recorded(r, op).desk;
            && desk.backup.Some? == (op.Begin? || (r.desk.backup.Some? && !op.End?))
            && (!desk.practice && !desk.playsItself)
               == (if op.Choose? then !op.practice && !op.playsItself else !r.desk.practice && !r.desk.playsItself)
  {
    hide CheckRequest, WatchedRefusal, OverridesOf, SameIgnoringCase, ArrangementOf, GaugeOf;
  }

  lemma {:induction false} TheNextRun(play: Play, ops: seq<Op>)
    requires After(Opened(play), ops).Some?
    ensures var desk := After(Opened(play), ops).value.desk;
            && (desk.backup.Some? <==> InCourse(ops))
            && (!desk.practice && !desk.playsItself <==> ChosenByHand(ops))
  {
    hide Recorded, Allowed;
    if ops != [] {
      TheNextRun(play, ops[..|ops| - 1]);
      CoursesAndChoices(After(Opened(play), ops[..|ops| - 1]).value, ops[|ops| - 1]);
    }
  }

  /** In every run a layout is lent exactly outside a course, to a run by hand, of what can be lent. */
  lemma LentOverRuns(play: Play, ops: seq<Op>, request: Request, chart: Option<string>)
    requires After(Opened(play), ops).Some?
    ensures Lent(play, ops, request, chart) <==> !InCourse(ops) && ChosenByHand(ops) && Lendable(request, chart)
  {
    hide After, InCourse, ChosenByHand, CheckRequest, Lendable;
    TheNextRun(play, ops);
    LentExactlyWhen(request, chart, PlaysByHand(After(Opened(play), ops).value.desk));
  }

  /** Whether a replay is in hand, from what was done: it is taken, and ended by ending it or borrowing a layout. */
  function InHand(play: Play, ops: seq<Op>): Option<Replay> {
    if ops == [] then None
    else
      var init := ops[..|ops| - 1];
      match ops[|ops| - 1]
      case TakeReplay(replay) => Some(replay)
      case EndTheReplay => None
      case BorrowFrom(request, chart) => if Lent(play, init, request, chart) then None else InHand(play, init)
      case BorrowFromWatched(source, kept, chart) =>
        if LentWatched(play, init, source, kept, chart) then None else InHand(play, init)
      case _ => InHand(play, init)
  }

  predicate Lent(play: Play, ops: seq<Op>, request: Request, chart: Option<string>) {
    var before := After(Opened(play), ops);
    before.Some? && CheckRequest(request, chart, PlaysByHand(before.value.desk)).Ok?
  }

  predicate LentWatched(play: Play, ops: seq<Op>, source: string, kept: Option<int>, chart: Option<string>) {
    var before := After(Opened(play), ops);
    && before.Some? && before.value.desk.replay.Some?
    && WatchedRefusal(before.value.desk, before.value.desk.replay.value, source, kept, chart).None?
  }

  lemma BorrowEndsTheReplay(desk: Desk, request: Request, chart: Option<string>)
    ensures Borrow(desk, request, chart).replay
            == if CheckRequest(request, chart, PlaysByHand(desk)).Ok? then None else desk.replay
  {
    hide CheckRequest;
  }

  lemma WatchedEndsTheReplay(desk: Desk, source: string, kept: Option<int>, chart: Option<string>)
    ensures BorrowWatched(desk, source, kept, chart).replay
            == if desk.replay.Some? && WatchedRefusal(desk, desk.replay.value, source, kept, chart).None? then None
               else desk.replay
  {
    hide CheckRequest;
  }

  lemma {:induction false} ReplayInHand(play: Play, ops: seq<Op>)
    requires After(Opened(play), ops).Some?
    ensures After(Opened(play), ops).value.desk.replay == InHand(play, ops)
  {
    hide CheckRequest, WatchedRefusal, Borrow, BorrowWatched, OverridesOf, SameIgnoringCase, ArrangementOf, GaugeOf;
    if ops != [] {
      var init := ops[..|ops| - 1];
      ReplayInHand(play, init);
      var desk := After(Opened(play), init).value.desk;
      match ops[|ops| - 1]
      case BorrowFrom(request, chart) => BorrowEndsTheReplay(desk, request, chart);
      case BorrowFromWatched(source, kept, chart) => WatchedEndsTheReplay(desk, source, kept, chart);
      case _ =>
    }
  }

  /** In every run the load of a replay in hand is laid out from its own seed, and with nothing in hand from the one
      carried, or a fresh one. */
  lemma SeedsOverRuns(play: Play, ops: seq<Op>, md5: string, carried: Option<nat>, newSeed: nat)
    requires After(Opened(play), ops).Some?
    ensures var desk := After(Opened(play), ops).value.desk;
            var seed := SeedToLoad(desk, md5, carried, newSeed);
            && (InHand(play, ops).Some? ==> seed == InHand(play, ops).value.seed)
            && (InHand(play, ops).None? && desk.borrowed.None? ==>
                  seed == if carried.Some? then carried.value else newSeed)
  {
    hide After, InHand;
    ReplayInHand(play, ops);
    LoadsAreLaidOutAs(After(Opened(play), ops).value.desk, md5, carried, newSeed);
  }

  // ---------- Courses ----------

  /** The last constraint of a course on how the notes are arranged. */
  function LastGrade(constraints: seq<Constraint>): Option<Constraint> {
    if constraints == [] then None
    else if constraints[|constraints| - 1] in {GradeClass, GradeMirror, GradeRandom} then
      Some(constraints[|constraints| - 1])
    else LastGrade(constraints[..|constraints| - 1])
  }

  /** What is played of the arrangement chosen: a class grade is played as written, a mirror grade lets MIRROR stand
      and a random one everything but H-RANDOM and ALL-SCRATCH. */
  function PlayedUnder(grade: Option<Constraint>, chosen: Arrangement): Arrangement {
    match grade
    case Some(GradeClass) => Off
    case Some(GradeMirror) => if chosen == Mirror then Mirror else Off
    case Some(GradeRandom) => if chosen == HRandom || chosen == AllScratch then Off else chosen
    case _ => chosen
  }

  lemma {:induction false} GradeIsTheLast(constraints: seq<Constraint>)
    ensures OverridesOf(constraints).random
            == match LastGrade(constraints)
               case Some(GradeClass) => LockOff
               case Some(GradeMirror) => LockMirror
               case Some(GradeRandom) => LockRandom
               case _ => Free
  {
    if constraints != [] {
      GradeIsTheLast(constraints[..|constraints| - 1]);
    }
  }

  /** How a course is played: its arrangement under its last grade, at a hi-speed of 1 with no constant speed, lift,
      cover or hidden under NO SPEED, and in everything else as the player set it. */
  lemma CourseIsPlayedUnder(desk: Desk, constraints: seq<Constraint>)
    requires desk.backup.None?
    ensures var was, play := desk.play, BeginCourse(desk, constraints).play;
            && play.random == PlayedUnder(LastGrade(constraints), was.random)
            && play.gauge == was.gauge && play.scratchAuto == was.scratchAuto && play.rest == was.rest
            && (NoSpeed in constraints ==>
                  && play.hispeed == 1.0 && !play.constantSpeed
                  && play.cover == play.lift == play.hidden == 0.0
                  && !play.enableCover && !play.enableLift && !play.enableHidden)
            && (NoSpeed !in constraints ==> play == was.(random := play.random))
    ensures BeginCourse(desk, constraints).backup == Some(desk.play)
  {
    hide OverridesOf, LastGrade;
    GradeIsTheLast(constraints);
    OverridesAreTheConstraints(constraints, 0);
  }

  function LastLn(constraints: seq<Constraint>): Option<LnMode> {
    if constraints == [] then None
    else
      match constraints[|constraints| - 1]
      case Ln => Some(LongNote)
      case Cn => Some(ChargeNote)
      case Hcn => Some(HellChargeNote)
      case _ => LastLn(constraints[..|constraints| - 1])
  }

  lemma OneConstraintMore(overrides: Overrides, c: Constraint)
    ensures overrides.With(c).lnMode
            == match c
               case Ln => Some(LongNote)
               case Cn => Some(ChargeNote)
               case Hcn => Some(HellChargeNote)
               case _ => overrides.lnMode
    ensures overrides.With(c).unapplied
            == overrides.unapplied + (if c == NoGood || c == NoGreat then [c] else [])
  {}

  /** The long notes are those of the last constraint on them, and what is stored without being enforced is NO GOOD
      and NO GREAT. */
  lemma {:induction false} TheRestOfTheConstraints(constraints: seq<Constraint>)
    ensures OverridesOf(constraints).lnMode == LastLn(constraints)
    ensures forall c :: c in OverridesOf(constraints).unapplied <==> c in constraints && c in {NoGood, NoGreat}
  {
    if constraints != [] {
      hide Overrides.With;
      var init, last := constraints[..|constraints| - 1], constraints[|constraints| - 1];
      TheRestOfTheConstraints(init);
      OneConstraintMore(OverridesOf(init), last);
      assert constraints == init + [last];
    }
  }
}
