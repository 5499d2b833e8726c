/** What the controller layer plays, told from the raw changes alone: how each key stands, which of its
    changes are handed over and at which instants, and which events they make. */
module PadMeaning {
  import opened Common
  import opened StableSort
  import opened InputDebounce
  import opened Gamepad
  import opened FrameIndependence
  import opened PadRuns
  import opened PadAlways
  import opened PadOrder

  // ---------- How the controller stands ----------

  /** Where an axis was last reported since the controller was last lost; unreported, it is at rest. */
  function LastPosition(steps: seq<Step>, axis: nat): real {
    if steps == [] then 0.0
    else
      match steps[|steps| - 1]
      case Change(_, AxisChange(a, position)) =>
        if a == axis then position else LastPosition(steps[..|steps| - 1], axis)
      case Change(_, Disconnected) => 0.0
      case _ => LastPosition(steps[..|steps| - 1], axis)
  }

  predicate ButtonDown(steps: seq<Step>, code: nat) {
    && steps != []
    && match steps[|steps| - 1]
       case Change(_, ButtonChange(c, _, pressed)) =>
         if c == code then pressed else ButtonDown(steps[..|steps| - 1], code)
       case Change(_, Disconnected) => false
       case _ => ButtonDown(steps[..|steps| - 1], code)
  }

  predicate StandardDown(steps: seq<Step>, button: StandardButton) {
    && steps != []
    && match steps[|steps| - 1]
       case Change(_, ButtonChange(_, Some(b), pressed)) =>
         if b == button then pressed else StandardDown(steps[..|steps| - 1], button)
       case Change(_, Disconnected) => false
       case _ => StandardDown(steps[..|steps| - 1], button)
  }

  /** Whether a button or an axis direction played as a key is down. */
  predicate IsDown(steps: seq<Step>, e: PadElement, deadzone: real) {
    match e
    case Button(code) => ButtonDown(steps, code)
    case Standard(button) => StandardDown(steps, button)
    case AxisDir(axis, true) => LastPosition(steps, axis) > deadzone
    case AxisDir(axis, false) => LastPosition(steps, axis) < -deadzone
  }

  lemma {:induction false} SnapshotIsTheReports(setup: Setup, steps: seq<Step>)
    ensures var snapshot := Run(setup, FRESH_PAD, steps).pad.snapshot;
            && (forall a :: (if a in snapshot.axes then snapshot.axes[a] else 0.0) == LastPosition(steps, a))
            && (forall c :: (c in snapshot.buttons && snapshot.buttons[c]) == ButtonDown(steps, c))
            && (forall b :: (b in snapshot.standard && snapshot.standard[b]) == StandardDown(steps, b))
  {
    hide TakeOpened, ReadKeys, ReadTurntables;
    if steps != [] {
      SnapshotIsTheReports(setup, steps[..|steps| - 1]);
    }
  }

  /** In every run a key reads down exactly when what was reported of it says so. */
  lemma ReadsAreTheReports(setup: Setup, steps: seq<Step>, e: PadElement)
    ensures Run(setup, FRESH_PAD, steps).pad.snapshot.Reads(e, setup.deadzone)
            <==> IsDown(steps, e, setup.deadzone)
  {
    hide Run, LastPosition, ButtonDown, StandardDown;
    SnapshotIsTheReports(setup, steps);
  }

  /** Once the controller is lost nothing is down until it reports again. */
  lemma LostMeansUp(steps: seq<Step>, at: Micros, later: seq<Step>, e: PadElement, deadzone: real)
    requires deadzone >= 0.0 && forall i :: 0 <= i < |later| ==> !later[i].Change?
    ensures !IsDown(steps + [Change(at, Disconnected)] + later, e, deadzone)
    decreases |later|
  {
    var all := steps + [Change(at, Disconnected)] + later;
    if later != [] {
      assert all[..|all| - 1] == steps + [Change(at, Disconnected)] + later[..|later| - 1];
      assert all[|all| - 1] == later[|later| - 1];
      LostMeansUp(steps, at, later[..|later| - 1], e, deadzone);
    }
  }

  // ---------- What is played as what ----------

  /** An element of the plan is played as a turntable if it is a direction of an axis that is one, and as a key
      otherwise. */
  ghost predicate IsKey(setup: Setup, e: PadElement) {
    (exists i :: 0 <= i < |setup.plan| && setup.plan[i].element == e) && !(e.AxisDir? && e.axis in setup.analog)
  }

  ghost predicate IsTurned(setup: Setup, e: PadElement) {
    (exists i :: 0 <= i < |setup.plan| && setup.plan[i].element == e) && e.AxisDir? && e.axis in setup.analog
  }

  lemma PlayedAs(setup: Setup, e: PadElement)
    ensures IsKey(setup, e) <==> e in Keys(setup)
    ensures IsTurned(setup, e) <==> e in Turntables(setup)
  {
    hide Elements;
    ElementsAreThePlans(setup.plan, setup.analog, false);
    ElementsAreThePlans(setup.plan, setup.analog, true);
  }

  // ---------- Every press is a report ----------

  /** Change `i` is at the instant of a press, and `e` is down after it and was not before. */
  ghost predicate WentDown(steps: seq<Step>, e: PadElement, deadzone: real, at: Micros, i: int) {
    && 0 <= i < |steps| && steps[i].Change? && steps[i].at == at
    && IsDown(steps[..i + 1], e, deadzone) && !IsDown(steps[..i], e, deadzone)
  }

  lemma PressWentDown(setup: Setup, steps: seq<Step>, h: Handing)
    requires setup.deadzone >= 0.0
    requires h in Run(setup, FRESH_PAD, steps).handings && h.pressed && h.element in Keys(setup)
    ensures exists i :: WentDown(steps, h.element, setup.deadzone, h.at, i)
  {
    hide Run, Keys, IsDown;
    NoPressIsLate(setup, steps);
    assert Reported(setup, FRESH_PAD, steps, h);
    var i :| ReportedBy(setup, FRESH_PAD, steps, h, i);
    ReadsAreTheReports(setup, steps[..i], h.element);
    ReadsAreTheReports(setup, steps[..i + 1], h.element);
    assert WentDown(steps, h.element, setup.deadzone, h.at, i);
  }

  /** The change that takes a key down is a report of that very button, or of that very axis beyond the deadzone
      on that side. */
  ghost predicate Pushes(change: PadChange, e: PadElement, deadzone: real) {
    match e
    case Button(code) => change.ButtonChange? && change.code == code && change.pressed
    case Standard(button) => change.ButtonChange? && change.standard == Some(button) && change.pressed
    case AxisDir(axis, positive) =>
      && change.AxisChange? && change.axis == axis
      && if positive then change.position > deadzone else change.position < -deadzone
  }

  ghost predicate PushedAt(steps: seq<Step>, e: PadElement, deadzone: real, at: Micros, i: int) {
    0 <= i < |steps| && steps[i].Change? && steps[i].at == at && Pushes(steps[i].change, e, deadzone)
  }

  /** In every run each press of a key is at the instant of a report of it: of the button pressed, of the axis
      beyond the deadzone on the key's own side. */
  lemma EveryPressIsAReport(setup: Setup, steps: seq<Step>, h: Handing)
    requires setup.deadzone >= 0.0
    requires h in Run(setup, FRESH_PAD, steps).handings && h.pressed && IsKey(setup, h.element)
    ensures exists i :: PushedAt(steps, h.element, setup.deadzone, h.at, i)
  {
    hide Run, Keys, IsKey;
    PlayedAs(setup, h.element);
    PressWentDown(setup, steps, h);
    var i :| WentDown(steps, h.element, setup.deadzone, h.at, i);
    assert steps[..i + 1][..i] == steps[..i];
    assert PushedAt(steps, h.element, setup.deadzone, h.at, i);
  }

  // ---------- The changes of a key, judged as they are reported ----------

  /** The instant `span` after `at` on a clock that stops at its end. */
  function Later(at: Micros, span: nat): Micros {
    if at + span <= 0x7FFF_FFFF_FFFF_FFFF then at + span else 0x7FFF_FFFF_FFFF_FFFF
  }

  /** The changes of a key that count so far, and the instant it was last up: let go of, or reported up while
      it counted as up. */
  datatype Judgement = Judgement(log: seq<Handed>, up: Option<Micros>)

  predicate CountsAsDown(log: seq<Handed>) {
    log != [] && log[|log| - 1].pressed
  }

  /** A key that is up, but was let go of too soon after its press to count, counts as let go of once its window
      has ended. */
  function WindowEnded(j: Judgement, down: bool, until: Micros, window: nat): Judgement {
    if CountsAsDown(j.log) && !down && Later(j.log[|j.log| - 1].at, window) <= until then
      var opens := Later(j.log[|j.log| - 1].at, window);
      Judgement(j.log + [Handed(false, opens)], Some(opens))
    else j
  }

  /** A press counts unless the key counts as down or was up less than one of LR2's polls ago, 2 ms or the window
      if that is shorter; a release counts once the window since its press is over. */
  function Judge(j: Judgement, down: bool, at: Micros, window: nat): Judgement {
    if down then
      if CountsAsDown(j.log) || (j.up.Some? && at < Later(j.up.value, (if window < 2000 then window else 2000))) then j
      else Judgement(j.log + [Handed(true, at)], j.up)
    else if !CountsAsDown(j.log) then Judgement(j.log, Some(at))
    else if at < Later(j.log[|j.log| - 1].at, window) then j
    else Judgement(j.log + [Handed(false, at)], Some(at))
  }

  function Judged(setup: Setup, steps: seq<Step>, e: PadElement): Judgement {
    if steps == [] then Judgement([], None)
    else
      var init := steps[..|steps| - 1];
      var before, was := Judged(setup, init, e), IsDown(init, e, setup.deadzone);
      match steps[|steps| - 1]
      case Spin(_, _) => before
      case Open(at) => WindowEnded(before, was, at, setup.window)
      case Change(at, _) =>
        var ended, down := WindowEnded(before, was, at, setup.window), IsDown(steps, e, setup.deadzone);
        if down == was then ended else Judge(ended, down, at, setup.window)
  }

  /** How a gate stands to what has been judged. */
  ghost predicate Agrees(gate: Gate, log: seq<Handed>, j: Judgement, down: bool) {
    && log == j.log
    && gate.reported == down
    && gate.handed == CountsAsDown(j.log)
    && (gate.handed ==> gate.pressedAt == Some(j.log[|j.log| - 1].at))
    && gate.releasedAt == j.up
  }

  lemma EndedAgrees(gate: Gate, log: seq<Handed>, j: Judgement, down: bool, until: Micros, window: nat)
    requires Agrees(gate, log, j, down)
    ensures match gate.ReleaseOpenedBy(until, window)
            case None => WindowEnded(j, down, until, window) == j
            case Some(opens) =>
              Agrees(gate.HandOver(false, opens).0, log + [Handed(false, opens)],
                     WindowEnded(j, down, until, window), down)
  {}

  lemma OfferAgrees(gate: Gate, log: seq<Handed>, j: Judgement, was: bool, down: bool, at: Micros, window: nat)
    requires Agrees(gate, log, j, was)
    ensures var (after, fired) := gate.Offer(down, at, window);
            Agrees(after, Logged(log, fired, down, at), if down == was then j else Judge(j, down, at, window), down)
  {}

  lemma OpenAgrees(setup: Setup, gates: Gates, log: seq<Handed>, j: Judgement, down: bool, until: Micros, e: PadElement)
    requires e in Keys(setup) && Agrees(GateOf(gates, e), log, j, down)
    ensures var taken := TakeOpened(setup, gates, until);
            Agrees(GateOf(taken.gates, e), log + LogOf(taken.handings, e),
                   WindowEnded(j, down, until, setup.window), down)
  {
    hide TakeOpened, Keys, Agrees, WindowEnded;
    TakeOpenedGate(setup, gates, until, e);
    TakeOpenedLog(setup, gates, until, e);
    EndedAgrees(GateOf(gates, e), log, j, down, until, setup.window);
    assert log + [] == log;
  }

  lemma ReadAgrees(
    setup: Setup, gates: Gates, snapshot: Snapshot, log: seq<Handed>, j: Judgement, was: bool, at: Micros,
    e: PadElement)
    requires e in Keys(setup) && Agrees(GateOf(gates, e), log, j, was)
    ensures var read, down := ReadKeys(setup, gates, snapshot, at), snapshot.Reads(e, setup.deadzone);
            Agrees(GateOf(read.gates, e), log + LogOf(read.handings, e),
                   if down == was then j else Judge(j, down, at, setup.window), down)
  {
    hide ReadKeys, Keys, Agrees, Judge, Snapshot.Reads;
    ReadOne(setup, gates, snapshot, at, e);
    OfferAgrees(GateOf(gates, e), log, j, was, snapshot.Reads(e, setup.deadzone), at, setup.window);
    assert log + [] == log;
  }

  lemma StepAgrees(setup: Setup, steps: seq<Step>, e: PadElement)
    requires steps != [] && e in Keys(setup)
    requires var init := steps[..|steps| - 1];
             var before := Run(setup, FRESH_PAD, init);
             Agrees(GateOf(before.pad.gates, e), LogOf(before.handings, e), Judged(setup, init, e),
                    IsDown(init, e, setup.deadzone))
    ensures var ran := Run(setup, FRESH_PAD, steps);
            Agrees(GateOf(ran.pad.gates, e), LogOf(ran.handings, e), Judged(setup, steps, e),
                   IsDown(steps, e, setup.deadzone))
  {
    hide Agrees, TakeOpened, ReadKeys, ReadTurntables, Keys, Turntables, LogOf, IsDown, Judge, WindowEnded,
         Snapshot.Reads;
    var init, step := steps[..|steps| - 1], steps[|steps| - 1];
    var before := Run(setup, FRESH_PAD, init);
    var gates, log, j := before.pad.gates, LogOf(before.handings, e), Judged(setup, init, e);
    var was := IsDown(init, e, setup.deadzone);
    LogOfTwo(before.handings, Took(setup, before.pad, step).handings, e);
    match step
    case Open(at) =>
      OpenAgrees(setup, gates, log, j, was, at, e);
      StandsAsBefore(steps, e, setup.deadzone);
    case Change(at, change) =>
      var taken, snapshot := TakeOpened(setup, gates, at), before.pad.snapshot.Apply(change);
      OpenAgrees(setup, gates, log, j, was, at, e);
      ReadAgrees(setup, taken.gates, snapshot, log + LogOf(taken.handings, e),
                 WindowEnded(j, was, at, setup.window), was, at, e);
      ReadsAreTheReports(setup, steps, e);
      LogOfTwo(taken.handings, ReadKeys(setup, taken.gates, snapshot, at).handings, e);
      LogsInThree(log, LogOf(taken.handings, e), LogOf(ReadKeys(setup, taken.gates, snapshot, at).handings, e));
    case Spin(at, spun) =>
      KeysAreDistinct(setup);
      SpinOther(setup, gates, spun, at, e);
      StandsAsBefore(steps, e, setup.deadzone);
      assert log + [] == log;
  }

  lemma LogsInThree(a: seq<Handed>, b: seq<Handed>, c: seq<Handed>)
    ensures (a + b) + c == a + (b + c)
  {}

  lemma StandsAsBefore(steps: seq<Step>, e: PadElement, deadzone: real)
    requires steps != [] && !steps[|steps| - 1].Change?
    ensures IsDown(steps, e, deadzone) == IsDown(steps[..|steps| - 1], e, deadzone)
  {}

  lemma {:induction false} RunAgrees(setup: Setup, steps: seq<Step>, e: PadElement)
    requires setup.deadzone >= 0.0 && e in Keys(setup)
    ensures var ran := Run(setup, FRESH_PAD, steps);
            Agrees(GateOf(ran.pad.gates, e), LogOf(ran.handings, e), Judged(setup, steps, e),
                   IsDown(steps, e, setup.deadzone))
  {
    hide Agrees, Took, Keys, Judged, IsDown;
    if steps == [] {
      FreshAgrees(setup, e);
    } else {
      RunAgrees(setup, steps[..|steps| - 1], e);
      StepAgrees(setup, steps, e);
    }
  }

  lemma FreshAgrees(setup: Setup, e: PadElement)
    requires setup.deadzone >= 0.0
    ensures Agrees(GateOf(FRESH_PAD.gates, e), LogOf([], e), Judged(setup, [], e), IsDown([], e, setup.deadzone))
  {}

  /** In every run what is handed over of a key is what its reports come to when judged one by one, each change
      at its own instant. */
  lemma KeysAreJudged(setup: Setup, steps: seq<Step>, e: PadElement)
    requires setup.deadzone >= 0.0 && IsKey(setup, e)
    ensures LogOf(Run(setup, FRESH_PAD, steps).handings, e) == Judged(setup, steps, e).log
  {
    hide Run, Keys, Judged, IsDown, IsKey;
    PlayedAs(setup, e);
    RunAgrees(setup, steps, e);
  }

  // ---------- The changes of a turntable ----------

  /** A turntable direction counts as it reads, unless it changed less than the window ago. */
  function Turned(setup: Setup, steps: seq<Step>, e: PadElement): seq<Handed> {
    if steps == [] then []
    else
      var log := Turned(setup, steps[..|steps| - 1], e);
      match steps[|steps| - 1]
      case Spin(at, spun) =>
        if log != [] && at < Later(log[|log| - 1].at, setup.window) then log
        else if (e in spun) == CountsAsDown(log) then log
        else log + [Handed(e in spun, at)]
      case _ => log
  }

  lemma LastIsDown(gate: Gate, log: seq<Handed>, window: nat)
    requires TurnHolds(gate, log, window)
    ensures gate.handed == CountsAsDown(log)
  {}

  /** In every run a turntable direction changes as it reads. */
  lemma TurntablesAreRead(setup: Setup, steps: seq<Step>, e: PadElement)
    requires IsTurned(setup, e)
    ensures LogOf(Run(setup, FRESH_PAD, steps).handings, e) == Turned(setup, steps, e)
  {
    hide Run, Turned, IsTurned;
    PlayedAs(setup, e);
    TurnsAreRead(setup, steps, e);
  }

  lemma {:induction false} TurnsAreRead(setup: Setup, steps: seq<Step>, e: PadElement)
    requires e in Turntables(setup)
    ensures LogOf(Run(setup, FRESH_PAD, steps).handings, e) == Turned(setup, steps, e)
  {
    hide TakeOpened, ReadKeys, ReadTurntables, Keys, Turntables, LogOf, TurnHolds, KeyHolds, Snapshot.Reads;
    if steps == [] {
      NothingHanded(e);
    } else {
      var init, step := steps[..|steps| - 1], steps[|steps| - 1];
      var before := Run(setup, FRESH_PAD, init);
      TurnsAreRead(setup, init, e);
      EveryRunHolds(setup, init);
      KeysAreDistinct(setup);
      LogOfTwo(before.handings, Took(setup, before.pad, step).handings, e);
      match step
      case Open(at) => TakeOpenedOfOther(setup, before.pad.gates, at, e);
      case Change(at, change) => ChangeOfOther(setup, before.pad, at, change, e);
      case Spin(at, spun) => SpinIsRead(setup, before, at, spun, e, Turned(setup, init, e));
    }
  }

  lemma NothingHanded(e: PadElement)
    ensures LogOf([], e) == []
  {}

  lemma TakeOpenedOfOther(setup: Setup, gates: Gates, at: Micros, e: PadElement)
    requires e !in Keys(setup)
    ensures LogOf(TakeOpened(setup, gates, at).handings, e) == []
  {
    hide TakeOpened, Keys, LogOf;
    TakeOpenedLog(setup, gates, at, e);
  }

  lemma ChangeOfOther(setup: Setup, pad: Pad, at: Micros, change: PadChange, e: PadElement)
    requires e !in Keys(setup)
    ensures LogOf(Took(setup, pad, Change(at, change)).handings, e) == []
  {
    hide TakeOpened, ReadKeys, Keys, LogOf;
    var taken := TakeOpened(setup, pad.gates, at);
    TakeOpenedOfOther(setup, pad.gates, at, e);
    ReadOther(setup, taken.gates, pad.snapshot.Apply(change), at, e);
    LogOfTwo(taken.handings, ReadKeys(setup, taken.gates, pad.snapshot.Apply(change), at).handings, e);
  }

  lemma SpinIsRead(setup: Setup, before: Ran, at: Micros, spun: set<PadElement>, e: PadElement, log: seq<Handed>)
    requires e in Turntables(setup) && Holds(setup, AsPlayed(before)) && LogOf(before.handings, e) == log
    ensures log + LogOf(ReadTurntables(setup, before.pad.gates, spun, at).handings, e)
            == if log != [] && at < Later(log[|log| - 1].at, setup.window) then log
               else if (e in spun) == CountsAsDown(log) then log
               else log + [Handed(e in spun, at)]
  {
    hide ReadTurntables, Keys, Turntables, LogOf;
    SpinOne(setup, before.pad.gates, spun, at, e);
    assert TurnHolds(GateOf(before.pad.gates, e), log, setup.window);
    LastIsDown(GateOf(before.pad.gates, e), log, setup.window);
  }

  // ---------- The events the changes make ----------

  /** How often the elements bound to a target changed in one way at one instant, once for each entry of the
      plan. */
  function Times(plan: seq<PlanEntry>, handings: seq<Handing>, target: PadTarget, change: Handed): nat {
    if plan == [] then 0
    else
      var entry := plan[|plan| - 1];
      Times(plan[..|plan| - 1], handings, target, change)
      + (if entry.target == target then multiset(LogOf(handings, entry.element))[change] else 0)
  }

  /** The events are those of the changes: each entry of the plan whose element changed makes the event of its
      lane, and of its control or shortcut on the way down. */
  ghost predicate Plays(plan: seq<PlanEntry>, events: seq<Timed>, handings: seq<Handing>) {
    && (forall lane, dir, press, at :: multiset(events)[Timed(LaneEvent(lane, dir, press), at)]
          == Times(plan, handings, Lane(lane, dir), Handed(press, at)))
    && (forall action, at :: multiset(events)[Timed(ControlEvent(action), at)]
          == Times(plan, handings, Control(action), Handed(true, at)))
    && (forall shortcut, at :: multiset(events)[Timed(ShortcutEvent(shortcut), at)]
          == Times(plan, handings, Shortcut(shortcut), Handed(true, at)))
  }

  lemma {:induction false} TimesInTwo(
    plan: seq<PlanEntry>, a: seq<Handing>, b: seq<Handing>, target: PadTarget, change: Handed)
    ensures Times(plan, a + b, target, change) == Times(plan, a, target, change) + Times(plan, b, target, change)
  {
    hide LogOf;
    if plan != [] {
      TimesInTwo(plan[..|plan| - 1], a, b, target, change);
      LogOfTwo(a, b, plan[|plan| - 1].element);
    }
  }

  lemma PlaysOn(plan: seq<PlanEntry>, a: seq<Timed>, b: seq<Timed>, g: seq<Handing>, h: seq<Handing>)
    requires Plays(plan, a, g) && Plays(plan, b, h)
    ensures Plays(plan, a + b, g + h)
  {
    hide Times;
    forall target, change
      ensures Times(plan, g + h, target, change) == Times(plan, g, target, change) + Times(plan, h, target, change)
    {
      TimesInTwo(plan, g, h, target, change);
    }
  }

  lemma {:induction false} NothingPlays(plan: seq<PlanEntry>)
    ensures Plays(plan, [], [])
  {
    if plan != [] {
      NothingPlays(plan[..|plan| - 1]);
    }
  }

  /** The changes made at one instant, element by element. */
  ghost predicate HandsOver(handings: seq<Handing>, fired: map<PadElement, bool>, at: Micros) {
    forall e :: LogOf(handings, e) == if e in fired then [Handed(fired[e], at)] else []
  }

  /** The event an entry makes of a change of its element. */
  ghost predicate Sounds(event: PadEvent, target: PadTarget, pressed: bool) {
    match target
    case Lane(lane, dir) => event == LaneEvent(lane, dir, pressed)
    case Control(action) => pressed && event == ControlEvent(action)
    case Shortcut(shortcut) => pressed && event == ShortcutEvent(shortcut)
  }

  lemma EntrySounds(entry: PlanEntry, fired: map<PadElement, bool>, at: Micros, timed: Timed)
    ensures multiset(Stamped(EntryEvents(entry, fired), at))[timed]
            == if entry.element in fired && timed.at == at && Sounds(timed.event, entry.target, fired[entry.element])
               then 1 else 0
  {}

  /** One entry more. */
  lemma StampedLonger(a: seq<PadEvent>, b: seq<PadEvent>, at: Micros, timed: Timed)
    ensures multiset(Stamped(a + b, at))[timed] == multiset(Stamped(a, at))[timed] + multiset(Stamped(b, at))[timed]
  {
    assert Stamped(a + b, at) == Stamped(a, at) + Stamped(b, at);
  }

  lemma {:induction false} EventsSound(
    plan: seq<PlanEntry>, fired: map<PadElement, bool>, handings: seq<Handing>, at: Micros,
    timed: Timed, target: PadTarget, change: Handed)
    requires HandsOver(handings, fired, at) && timed.at == change.at
    requires forall t, pressed :: Sounds(timed.event, t, pressed) <==> t == target && pressed == change.pressed
    ensures multiset(Stamped(Events(plan, fired), at))[timed] == Times(plan, handings, target, change)
  {
    hide LogOf, EntryEvents;
    if plan != [] {
      var init, entry := plan[..|plan| - 1], plan[|plan| - 1];
      EventsSound(init, fired, handings, at, timed, target, change);
      EntrySounds(entry, fired, at, timed);
      StampedLonger(Events(init, fired), EntryEvents(entry, fired), at, timed);
    }
  }

  lemma EventsPlay(plan: seq<PlanEntry>, fired: map<PadElement, bool>, handings: seq<Handing>, at: Micros)
    requires HandsOver(handings, fired, at)
    ensures Plays(plan, Stamped(Events(plan, fired), at), handings)
  {
    hide LogOf, HandsOver, Times, Events, Stamped;
    forall event: PadEvent, t: Micros, target: PadTarget, pressed: bool
      | forall u, p :: Sounds(event, u, p) <==> u == target && p == pressed
      ensures multiset(Stamped(Events(plan, fired), at))[Timed(event, t)]
              == Times(plan, handings, target, Handed(pressed, t))
    {
      EventsSound(plan, fired, handings, at, Timed(event, t), target, Handed(pressed, t));
    }
  }

  lemma AskedPlays(
    gates: Gates, plan: seq<PlanEntry>, order: seq<PadElement>, answers: map<PadElement, Answer>, at: Micros)
    requires Distinct(order) && forall e :: e in answers ==> e in order
    ensures var asked := Asked(gates, plan, order, answers, at);
            Plays(plan, asked.events, asked.handings)
  {
    hide Plays, LogOf, FiredIn, Events;
    forall e
      ensures LogOf(FiredIn(order, answers, at), e)
              == if e in Fired(answers) then [Handed(Fired(answers)[e], at)] else []
    {
      FiredLog(order, answers, at, e);
    }
    EventsPlay(plan, Fired(answers), FiredIn(order, answers, at), at);
  }

  lemma HandOnePlays(gates: Gates, plan: seq<PlanEntry>, h: Handing)
    requires !h.pressed
    ensures var handed := HandOne(gates, plan, h);
            Plays(plan, handed.events, handed.handings)
  {
    hide Plays, LogOf, Events;
    forall e ensures LogOf([h], e) == if e in map[h.element := false] then [Handed(false, h.at)] else [] {
      LogOfOne(h, e);
    }
    EventsPlay(plan, map[h.element := false], [h], h.at);
  }

  lemma {:induction false} HandAllPlays(gates: Gates, plan: seq<PlanEntry>, list: seq<Keyed<Handing>>)
    requires forall x :: x in list ==> !x.item.pressed
    ensures var handed := HandAll(gates, plan, list);
            Plays(plan, handed.events, handed.handings)
  {
    hide Plays, HandOne;
    if list == [] {
      NothingPlays(plan);
    } else {
      var init, last := list[..|list| - 1], list[|list| - 1];
      assert list == init + [last];
      HandAllPlays(gates, plan, init);
      var before := HandAll(gates, plan, init);
      HandOnePlays(before.gates, plan, last.item);
      var one := HandOne(before.gates, plan, last.item);
      PlaysOn(plan, before.events, one.events, before.handings, one.handings);
    }
  }

  lemma TakeOpenedPlays(setup: Setup, gates: Gates, until: Micros)
    ensures var taken := TakeOpened(setup, gates, until);
            Plays(setup.plan, taken.events, taken.handings)
  {
    hide Plays, HandAll, Keys;
    SortedOpenedHolds(gates, Keys(setup), until, setup.window);
    HandAllPlays(gates, setup.plan, Releases(setup, gates, until));
  }

  lemma StepPlays(setup: Setup, pad: Pad, step: Step)
    ensures var took := Took(setup, pad, step);
            Plays(setup.plan, took.events, took.handings)
  {
    hide Plays, TakeOpened, Asked, Keys, Turntables, KeyAnswer, Deaf;
    KeysAreDistinct(setup);
    match step
    case Open(at) => TakeOpenedPlays(setup, pad.gates, at);
    case Change(at, change) =>
      var taken, snapshot := TakeOpened(setup, pad.gates, at), pad.snapshot.Apply(change);
      var read := ReadKeys(setup, taken.gates, snapshot, at);
      TakeOpenedPlays(setup, pad.gates, at);
      AskedPlays(taken.gates, setup.plan, Keys(setup), KeyAnswers(setup, taken.gates, snapshot, at), at);
      PlaysOn(setup.plan, taken.events, read.events, taken.handings, read.handings);
    case Spin(at, spun) =>
      AskedPlays(pad.gates, setup.plan, Turntables(setup), SpinAnswers(setup, pad.gates, spun, at), at);
  }

  /** In every run the events played are those of the changes handed over, one for each entry of the plan bound to
      what changed, at the instant of the change. */
  lemma {:induction false} EventsAreTheChanges(setup: Setup, pad: Pad, steps: seq<Step>)
    ensures var ran := Run(setup, pad, steps);
            Plays(setup.plan, ran.events, ran.handings)
  {
    hide Plays, Took;
    if steps == [] {
      NothingPlays(setup.plan);
    } else {
      var init, step := steps[..|steps| - 1], steps[|steps| - 1];
      var before := Run(setup, pad, init);
      EventsAreTheChanges(setup, pad, init);
      StepPlays(setup, before.pad, step);
      PlaysOn(setup.plan, before.events, Took(setup, before.pad, step).events,
              before.handings, Took(setup, before.pad, step).handings);
    }
  }
}
