/** What every run of the controller layer keeps, whatever instants its changes are stamped with: each
    element's changes alternate, a release waits for its window, a lane is held exactly when it was
    pressed more often than let go of, and a press is never late. */
module PadAlways {
  import opened Common
  import opened InputDebounce
  import opened Gamepad
  import opened FrameIndependence
  import opened PadRuns

  const FRESH_PAD := Pad(map[], NOTHING)

  lemma {:induction false} NothingDown(plan: seq<PlanEntry>, lane: nat, dir: ScratchDir)
    ensures DownCount(plan, map[], lane, dir) == 0
  {
    if plan != [] {
      NothingDown(plan[..|plan| - 1], lane, dir);
    }
  }

  function AsPlayed(ran: Ran): Played {
    Played(ran.pad.gates, ran.events, ran.handings)
  }

  // ---------- What each part does to one element ----------

  lemma KeysAreDistinct(setup: Setup)
    ensures Distinct(Keys(setup)) && Distinct(Turntables(setup))
    ensures forall e :: e in Keys(setup) ==> e !in Turntables(setup)
  {
    ElementsAreThePlans(setup.plan, setup.analog, false);
    ElementsAreThePlans(setup.plan, setup.analog, true);
  }

  /** What reading the keys does to one of them. */
  lemma ReadOne(setup: Setup, gates: Gates, snapshot: Snapshot, at: Micros, e: PadElement)
    requires e in Keys(setup)
    ensures var read := ReadKeys(setup, gates, snapshot, at);
            var pressed := snapshot.Reads(e, setup.deadzone);
            var (gate, fired) := GateOf(gates, e).Offer(pressed, at, setup.window);
            && GateOf(read.gates, e) == gate
            && LogOf(read.handings, e) == (if fired then [Handed(pressed, at)] else [])
  {
    hide Keys, Elements, Events, LogOf, FiredIn;
    KeysAreDistinct(setup);
    FiredLog(Keys(setup), KeyAnswers(setup, gates, snapshot, at), at, e);
  }

  lemma ReadIsTruthful(setup: Setup, gates: Gates, snapshot: Snapshot, at: Micros)
    ensures Truthful(gates, KeyAnswers(setup, gates, snapshot, at))
  {
    hide Keys;
  }

  /** Reading the keys leaves every other element alone. */
  lemma ReadOther(setup: Setup, gates: Gates, snapshot: Snapshot, at: Micros, e: PadElement)
    requires e !in Keys(setup)
    ensures var read := ReadKeys(setup, gates, snapshot, at);
            GateOf(read.gates, e) == GateOf(gates, e) && LogOf(read.handings, e) == []
  {
    hide Keys, Elements, Events, LogOf, FiredIn;
    KeysAreDistinct(setup);
    FiredLog(Keys(setup), KeyAnswers(setup, gates, snapshot, at), at, e);
  }

  /** What reading the turntables does to one of their directions. */
  lemma SpinOne(setup: Setup, gates: Gates, spun: set<PadElement>, at: Micros, e: PadElement)
    requires e in Turntables(setup)
    ensures var read := ReadTurntables(setup, gates, spun, at);
            var (gate, fired) := GateOf(gates, e).HandOver(e in spun, at);
            if Deaf(GateOf(gates, e), at, setup.window) then
              GateOf(read.gates, e) == GateOf(gates, e) && LogOf(read.handings, e) == []
            else
              GateOf(read.gates, e) == gate
              && LogOf(read.handings, e) == (if fired then [Handed(e in spun, at)] else [])
  {
    hide Turntables, Elements, Events, LogOf, FiredIn, Deaf;
    KeysAreDistinct(setup);
    FiredLog(Turntables(setup), SpinAnswers(setup, gates, spun, at), at, e);
  }

  lemma SpinOther(setup: Setup, gates: Gates, spun: set<PadElement>, at: Micros, e: PadElement)
    requires e !in Turntables(setup)
    ensures var read := ReadTurntables(setup, gates, spun, at);
            GateOf(read.gates, e) == GateOf(gates, e) && LogOf(read.handings, e) == []
  {
    hide Turntables, Elements, Events, LogOf, FiredIn, Deaf;
    KeysAreDistinct(setup);
    FiredLog(Turntables(setup), SpinAnswers(setup, gates, spun, at), at, e);
  }

  // ---------- The invariant of every run ----------

  /** What has been played so far. */
  ghost predicate Holds(setup: Setup, played: Played) {
    && (forall e :: e in Keys(setup) ==> KeyHolds(GateOf(played.gates, e), LogOf(played.handings, e), setup.window))
    && (forall e ::
          e in Turntables(setup) ==> TurnHolds(GateOf(played.gates, e), LogOf(played.handings, e), setup.window))
    && (forall lane, dir :: Net(Untimed(played.events), lane, dir) == DownCount(setup.plan, played.gates, lane, dir))
  }

  lemma CountsOn(setup: Setup, first: Played, second: Played)
    requires forall lane, dir :: Net(Untimed(first.events), lane, dir) == DownCount(setup.plan, first.gates, lane, dir)
    requires forall lane, dir ::
               Net(Untimed(second.events), lane, dir)
                 == DownCount(setup.plan, second.gates, lane, dir) - DownCount(setup.plan, first.gates, lane, dir)
    ensures forall lane, dir ::
              Net(Untimed(Then(first, second).events), lane, dir) == DownCount(setup.plan, second.gates, lane, dir)
  {
    forall lane, dir
      ensures Net(Untimed(Then(first, second).events), lane, dir) == DownCount(setup.plan, second.gates, lane, dir)
    {
      UntimedInTwo(first.events, second.events);
      NetInTwo(Untimed(first.events), Untimed(second.events), lane, dir);
    }
  }

  lemma OpenHoldsOne(setup: Setup, played: Played, until: Micros, e: PadElement)
    ensures var after := Then(played, TakeOpened(setup, played.gates, until));
            && (e in Keys(setup) && KeyHolds(GateOf(played.gates, e), LogOf(played.handings, e), setup.window)
                ==> KeyHolds(GateOf(after.gates, e), LogOf(after.handings, e), setup.window))
            && (e in Turntables(setup) && TurnHolds(GateOf(played.gates, e), LogOf(played.handings, e), setup.window)
                ==> TurnHolds(GateOf(after.gates, e), LogOf(after.handings, e), setup.window))
  {
    hide TakeOpened, Keys, Turntables, KeyHolds, TurnHolds;
    var gate, log, taken := GateOf(played.gates, e), LogOf(played.handings, e), TakeOpened(setup, played.gates, until);
    KeysAreDistinct(setup);
    TakeOpenedGate(setup, played.gates, until, e);
    TakeOpenedLog(setup, played.gates, until, e);
    LogOfTwo(played.handings, taken.handings, e);
    assert log + [] == log;
    if gate.ReleaseOpenedBy(until, setup.window).Some? && KeyHolds(gate, log, setup.window) {
      OpenedReleaseHolds(gate, log, until, setup.window);
    }
  }

  lemma OpenHolds(setup: Setup, played: Played, until: Micros)
    requires Holds(setup, played)
    ensures Holds(setup, Then(played, TakeOpened(setup, played.gates, until)))
  {
    hide TakeOpened, Keys, Turntables, KeyHolds, TurnHolds, Net, DownCount, Untimed, LogOf;
    var taken := TakeOpened(setup, played.gates, until);
    var after := Then(played, taken);
    forall e
      ensures e in Keys(setup) ==> KeyHolds(GateOf(after.gates, e), LogOf(after.handings, e), setup.window)
      ensures e in Turntables(setup) ==> TurnHolds(GateOf(after.gates, e), LogOf(after.handings, e), setup.window)
    {
      OpenHoldsOne(setup, played, until, e);
    }
    forall lane, dir
      ensures Net(Untimed(taken.events), lane, dir)
              == DownCount(setup.plan, taken.gates, lane, dir) - DownCount(setup.plan, played.gates, lane, dir)
    {
      TakeOpenedCount(setup, played.gates, until, lane, dir);
    }
    CountsOn(setup, played, taken);
  }

  lemma ReadHoldsOne(setup: Setup, played: Played, at: Micros, snapshot: Snapshot, e: PadElement)
    ensures var after := Then(played, ReadKeys(setup, played.gates, snapshot, at));
            && (e in Keys(setup) && KeyHolds(GateOf(played.gates, e), LogOf(played.handings, e), setup.window)
                ==> KeyHolds(GateOf(after.gates, e), LogOf(after.handings, e), setup.window))
            && (e in Turntables(setup) && TurnHolds(GateOf(played.gates, e), LogOf(played.handings, e), setup.window)
                ==> TurnHolds(GateOf(after.gates, e), LogOf(after.handings, e), setup.window))
  {
    hide ReadKeys, Keys, Turntables, KeyHolds, TurnHolds, LogOf;
    var gate, log, read :=
      GateOf(played.gates, e), LogOf(played.handings, e), ReadKeys(setup, played.gates, snapshot, at);
    KeysAreDistinct(setup);
    LogOfTwo(played.handings, read.handings, e);
    assert log + [] == log;
    if e in Keys(setup) {
      ReadOne(setup, played.gates, snapshot, at, e);
      if KeyHolds(gate, log, setup.window) {
        OfferHolds(gate, log, snapshot.Reads(e, setup.deadzone), at, setup.window);
      }
    } else {
      ReadOther(setup, played.gates, snapshot, at, e);
    }
  }

  lemma ReadHolds(setup: Setup, played: Played, at: Micros, snapshot: Snapshot)
    requires Holds(setup, played)
    ensures Holds(setup, Then(played, ReadKeys(setup, played.gates, snapshot, at)))
  {
    hide Keys, Turntables, KeyHolds, TurnHolds, Net, DownCount, Untimed, LogOf, Elements, Events, FiredIn;
    var read := ReadKeys(setup, played.gates, snapshot, at);
    var after := Then(played, read);
    forall e
      ensures e in Keys(setup) ==> KeyHolds(GateOf(after.gates, e), LogOf(after.handings, e), setup.window)
      ensures e in Turntables(setup) ==> TurnHolds(GateOf(after.gates, e), LogOf(after.handings, e), setup.window)
    {
      ReadHoldsOne(setup, played, at, snapshot, e);
    }
    ReadIsTruthful(setup, played.gates, snapshot, at);
    forall lane, dir
      ensures Net(Untimed(read.events), lane, dir)
              == DownCount(setup.plan, read.gates, lane, dir) - DownCount(setup.plan, played.gates, lane, dir)
    {
      AskedCount(played.gates, setup.plan, Keys(setup), KeyAnswers(setup, played.gates, snapshot, at), at, lane, dir);
    }
    CountsOn(setup, played, read);
  }

  lemma SpinHoldsOne(setup: Setup, played: Played, at: Micros, spun: set<PadElement>, e: PadElement)
    ensures var after := Then(played, ReadTurntables(setup, played.gates, spun, at));
            && (e in Keys(setup) && KeyHolds(GateOf(played.gates, e), LogOf(played.handings, e), setup.window)
                ==> KeyHolds(GateOf(after.gates, e), LogOf(after.handings, e), setup.window))
            && (e in Turntables(setup) && TurnHolds(GateOf(played.gates, e), LogOf(played.handings, e), setup.window)
                ==> TurnHolds(GateOf(after.gates, e), LogOf(after.handings, e), setup.window))
  {
    hide ReadTurntables, Keys, Turntables, KeyHolds, TurnHolds, LogOf;
    var gate, log, read :=
      GateOf(played.gates, e), LogOf(played.handings, e), ReadTurntables(setup, played.gates, spun, at);
    KeysAreDistinct(setup);
    LogOfTwo(played.handings, read.handings, e);
    assert log + [] == log;
    if e in Turntables(setup) {
      SpinOne(setup, played.gates, spun, at, e);
      if TurnHolds(gate, log, setup.window) && !Deaf(gate, at, setup.window) {
        HandOverHolds(gate, log, e in spun, at, setup.window);
      }
    } else {
      SpinOther(setup, played.gates, spun, at, e);
    }
  }

  lemma SpinIsTruthful(setup: Setup, gates: Gates, spun: set<PadElement>, at: Micros)
    ensures Truthful(gates, SpinAnswers(setup, gates, spun, at))
  {
    hide Turntables;
  }

  lemma SpinHolds(setup: Setup, played: Played, at: Micros, spun: set<PadElement>)
    requires Holds(setup, played)
    ensures Holds(setup, Then(played, ReadTurntables(setup, played.gates, spun, at)))
  {
    hide Keys, Turntables, KeyHolds, TurnHolds, Net, DownCount, Untimed, LogOf, Elements, Events, FiredIn, Deaf;
    var read := ReadTurntables(setup, played.gates, spun, at);
    var after := Then(played, read);
    forall e
      ensures e in Keys(setup) ==> KeyHolds(GateOf(after.gates, e), LogOf(after.handings, e), setup.window)
      ensures e in Turntables(setup) ==> TurnHolds(GateOf(after.gates, e), LogOf(after.handings, e), setup.window)
    {
      SpinHoldsOne(setup, played, at, spun, e);
    }
    SpinIsTruthful(setup, played.gates, spun, at);
    forall lane, dir
      ensures Net(Untimed(read.events), lane, dir)
              == DownCount(setup.plan, read.gates, lane, dir) - DownCount(setup.plan, played.gates, lane, dir)
    {
      AskedCount(played.gates, setup.plan, Turntables(setup), SpinAnswers(setup, played.gates, spun, at), at, lane,
        dir);
    }
    CountsOn(setup, played, read);
  }

  lemma StepHolds(setup: Setup, ran: Ran, step: Step)
    requires Holds(setup, AsPlayed(ran))
    ensures Holds(setup, AsPlayed(Joined(ran, Took(setup, ran.pad, step))))
  {
    hide Holds, TakeOpened, ReadKeys, ReadTurntables;
    var played := AsPlayed(ran);
    match step
    case Open(at) => OpenHolds(setup, played, at);
    case Change(at, change) =>
      var taken := TakeOpened(setup, played.gates, at);
      OpenHolds(setup, played, at);
      ReadHolds(setup, Then(played, taken), at, ran.pad.snapshot.Apply(change));
      ThenThrice(played, taken, ReadKeys(setup, taken.gates, ran.pad.snapshot.Apply(change), at));
    case Spin(at, spun) => SpinHolds(setup, played, at, spun);
  }

  lemma FreshHolds(setup: Setup)
    ensures Holds(setup, AsPlayed(Ran(FRESH_PAD, [], [])))
  {
    forall lane, dir ensures DownCount(setup.plan, map[], lane, dir) == 0 {
      NothingDown(setup.plan, lane, dir);
    }
  }

  /** In every run, whatever the instants: each key's changes alternate from a press and every release is
      at least the window after its press; each turntable direction's alternate the window apart; and of
      every lane there are as many more presses than releases as the plan has it down. */
  lemma {:induction false} EveryRunHolds(setup: Setup, steps: seq<Step>)
    ensures Holds(setup, AsPlayed(Run(setup, FRESH_PAD, steps)))
  {
    hide Holds, Took;
    if steps == [] {
      FreshHolds(setup);
    } else {
      EveryRunHolds(setup, steps[..|steps| - 1]);
      StepHolds(setup, Run(setup, FRESH_PAD, steps[..|steps| - 1]), steps[|steps| - 1]);
    }
  }

  // ---------- What is held down ----------

  ghost predicate HoldsDown(plan: seq<PlanEntry>, gates: Gates, event: PadEvent) {
    exists i :: 0 <= i < |plan| && PressOf(plan[i].target) == event && GateOf(gates, plan[i].element).handed
  }

  lemma HoldsDownLonger(plan: seq<PlanEntry>, gates: Gates, event: PadEvent)
    requires plan != []
    ensures var last := plan[|plan| - 1];
            HoldsDown(plan, gates, event)
            <==> HoldsDown(plan[..|plan| - 1], gates, event)
                 || (PressOf(last.target) == event && GateOf(gates, last.element).handed)
  {
    var init, last := plan[..|plan| - 1], plan[|plan| - 1];
    if HoldsDown(init, gates, event) {
      var i :| 0 <= i < |init| && PressOf(init[i].target) == event && GateOf(gates, init[i].element).handed;
      assert plan[i] == init[i];
    }
    if HoldsDown(plan, gates, event) && !(PressOf(last.target) == event && GateOf(gates, last.element).handed) {
      var i :| 0 <= i < |plan| && PressOf(plan[i].target) == event && GateOf(gates, plan[i].element).handed;
      assert plan[i] == init[i];
    }
  }

  ghost predicate NoneTwice(held: seq<PadEvent>) {
    forall i, j :: 0 <= i < j < |held| ==> held[i] != held[j]
  }

  /** What is held is exactly what some element of the plan holds down, each once. */
  lemma {:induction false} HeldIsWhatIsDown(plan: seq<PlanEntry>, gates: Gates)
    ensures forall event :: event in Held(plan, gates) <==> HoldsDown(plan, gates, event)
    ensures NoneTwice(Held(plan, gates))
  {
    if plan != [] {
      var init, last := plan[..|plan| - 1], plan[|plan| - 1];
      HeldIsWhatIsDown(init, gates);
      forall event
        ensures HoldsDown(plan, gates, event)
                <==> HoldsDown(init, gates, event)
                     || (PressOf(last.target) == event && GateOf(gates, last.element).handed)
      {
        HoldsDownLonger(plan, gates, event);
      }
      hide HoldsDown;
    }
  }

  lemma {:induction false} CountIsOfHolders(plan: seq<PlanEntry>, gates: Gates, lane: nat, dir: ScratchDir)
    ensures 0 <= DownCount(plan, gates, lane, dir)
    ensures DownCount(plan, gates, lane, dir) > 0 <==> LaneEvent(lane, dir, true) in Held(plan, gates)
  {
    if plan != [] {
      CountIsOfHolders(plan[..|plan| - 1], gates, lane, dir);
    }
  }

  /** In every run a lane is among the held exactly when it was pressed more often than let go of, and never
      let go of more often than pressed. */
  lemma HeldIsWhatWasPressed(setup: Setup, steps: seq<Step>, lane: nat, dir: ScratchDir)
    ensures var ran := Run(setup, FRESH_PAD, steps);
            var net := Net(Untimed(ran.events), lane, dir);
            && net == DownCount(setup.plan, ran.pad.gates, lane, dir) >= 0
            && (net > 0 <==> LaneEvent(lane, dir, true) in Held(setup.plan, ran.pad.gates))
  {
    hide Net, DownCount, Held, Run, KeyHolds, TurnHolds;
    EveryRunHolds(setup, steps);
    CountIsOfHolders(setup.plan, Run(setup, FRESH_PAD, steps).pad.gates, lane, dir);
  }

  // ---------- The order of one poll ----------

  /** The changes of a poll come in order, none after the poll's instant. */
  ghost predicate Ordered(poll: Poll) {
    && (forall i :: 0 <= i < |poll.changes| ==> poll.changes[i].at <= poll.now)
    && (forall i, j :: 0 <= i < j < |poll.changes| ==> poll.changes[i].at <= poll.changes[j].at)
  }

  lemma NoneDueEarlier(setup: Setup, gates: Gates, early: Micros, late: Micros)
    requires NoneDue(setup, gates, late) && early <= late
    ensures NoneDue(setup, gates, early)
  {
    hide Keys;
    forall e | e in Keys(setup) ensures GateOf(gates, e).ReleaseOpenedBy(early, setup.window) == None {
      assert GateOf(gates, e).ReleaseOpenedBy(late, setup.window) == None;
    }
  }

  lemma ReadRises(setup: Setup, gates: Gates, at: Micros, snapshot: Snapshot)
    requires NoneDue(setup, gates, at)
    ensures var read := ReadKeys(setup, gates, snapshot, at);
            Rises(read, at, at) && NoneDue(setup, read.gates, at)
  {
    hide Keys, LogOf, Elements, Events;
    var read := ReadKeys(setup, gates, snapshot, at);
    FiredRise(Keys(setup), KeyAnswers(setup, gates, snapshot, at), at);
    forall e | e in Keys(setup) ensures GateOf(read.gates, e).ReleaseOpenedBy(at, setup.window) == None {
      ReadOne(setup, gates, snapshot, at, e);
      OfferFires(GateOf(gates, e), snapshot.Reads(e, setup.deadzone), at, setup.window);
    }
  }

  lemma SpinRises(setup: Setup, gates: Gates, at: Micros, spun: set<PadElement>)
    requires NoneDue(setup, gates, at)
    ensures var read := ReadTurntables(setup, gates, spun, at);
            Rises(read, at, at) && NoneDue(setup, read.gates, at)
  {
    hide Keys, Turntables, LogOf, Elements, Events, Deaf;
    var read := ReadTurntables(setup, gates, spun, at);
    FiredRise(Turntables(setup), SpinAnswers(setup, gates, spun, at), at);
    KeysAreDistinct(setup);
    forall e | e in Keys(setup) ensures GateOf(read.gates, e).ReleaseOpenedBy(at, setup.window) == None {
      SpinOther(setup, gates, spun, at, e);
    }
  }

  /** A part of a poll taken when nothing was due at `t` rises from the earlier of `t` and its own instant,
      and leaves nothing due at its instant. A turntable reading comes when nothing is due at its own. */
  lemma StepRises(setup: Setup, pad: Pad, t: Micros, step: Step)
    requires NoneDue(setup, pad.gates, t) && (step.Spin? ==> t == step.at)
    ensures var ran := Took(setup, pad, step);
            && Rises(AsPlayed(ran), if t <= step.at then t else step.at, step.at)
            && NoneDue(setup, ran.pad.gates, step.at)
  {
    hide TakeOpened, ReadKeys, ReadTurntables, NoneDue, Rises;
    var low := if t <= step.at then t else step.at;
    NoneDueEarlier(setup, pad.gates, low, t);
    match step
    case Open(at) => TakeOpenedRises(setup, pad.gates, low, at);
    case Change(at, change) =>
      TakeOpenedRises(setup, pad.gates, low, at);
      var taken := TakeOpened(setup, pad.gates, at);
      ReadRises(setup, taken.gates, at, pad.snapshot.Apply(change));
      RisesOn(taken, ReadKeys(setup, taken.gates, pad.snapshot.Apply(change), at), low, at, at);
    case Spin(at, spun) => SpinRises(setup, pad.gates, at, spun);
  }

  /** The least instant of a poll's parts, or `t` if that is before. */
  function Earliest(poll: Poll, t: Micros): Micros {
    var first := if poll.changes == [] then poll.now else poll.changes[0].at;
    if t <= first then t else first
  }

  lemma {:induction false} ChangesRise(setup: Setup, pad: Pad, low: Micros, poll: Poll, n: nat)
    requires NoneDue(setup, pad.gates, low) && Ordered(poll) && low <= Earliest(poll, low) && n <= |poll.changes|
    ensures var ran := Run(setup, pad, ChangeSteps(poll.changes[..n]));
            var at := if n == 0 then low else poll.changes[n - 1].at;
            low <= at && Rises(AsPlayed(ran), low, at) && NoneDue(setup, ran.pad.gates, at)
  {
    hide Took, NoneDue;
    var steps := ChangeSteps(poll.changes[..n]);
    if n > 0 {
      ChangesRise(setup, pad, low, poll, n - 1);
      var init := ChangeSteps(poll.changes[..n - 1]);
      assert steps[..n - 1] == init;
      var before, last := Run(setup, pad, init), poll.changes[n - 1];
      var at := if n == 1 then low else poll.changes[n - 2].at;
      StepRises(setup, before.pad, at, Change(last.at, last.change));
      RisesOn(AsPlayed(before), AsPlayed(Took(setup, before.pad, Change(last.at, last.change))), low, at, last.at);
    }
  }

  lemma PollRises(setup: Setup, pad: Pad, t: Micros, poll: Poll)
    requires NoneDue(setup, pad.gates, t) && Ordered(poll)
    ensures var ran := Run(setup, pad, PollSteps(poll));
            Rises(AsPlayed(ran), Earliest(poll, t), poll.now) && NoneDue(setup, ran.pad.gates, poll.now)
  {
    hide Took, NoneDue, Rises;
    var n, low := |poll.changes|, Earliest(poll, t);
    NoneDueEarlier(setup, pad.gates, low, t);
    ChangesRise(setup, pad, low, poll, n);
    assert poll.changes[..n] == poll.changes;
    var first := Run(setup, pad, ChangeSteps(poll.changes));
    var at := if n == 0 then low else poll.changes[n - 1].at;
    var open, spin := Open(poll.now), Spin(poll.now, poll.spun);
    StepRises(setup, first.pad, at, open);
    var second := Took(setup, first.pad, open);
    StepRises(setup, second.pad, poll.now, spin);
    var third := Took(setup, second.pad, spin);
    RisesOn(AsPlayed(second), AsPlayed(third), at, poll.now, poll.now);
    RisesOn(AsPlayed(first), AsPlayed(Joined(second, third)), low, at, poll.now);
    assert PollSteps(poll) == ChangeSteps(poll.changes) + ([open] + [spin]);
    RunInTwo(setup, pad, ChangeSteps(poll.changes), [open] + [spin]);
    RunOfFirst(setup, first.pad, open, [spin]);
    RunOfOne(setup, second.pad, spin);
  }

  /** After the end of any poll nothing is due at its instant. */
  lemma PollLeavesNoneDue(setup: Setup, pad: Pad, poll: Poll)
    ensures NoneDue(setup, Run(setup, pad, PollSteps(poll)).pad.gates, poll.now)
  {
    hide TakeOpened, ReadTurntables, NoneDue;
    var open, spin := Open(poll.now), Spin(poll.now, poll.spun);
    var first := Run(setup, pad, ChangeSteps(poll.changes));
    assert PollSteps(poll) == ChangeSteps(poll.changes) + ([open] + [spin]);
    RunInTwo(setup, pad, ChangeSteps(poll.changes), [open] + [spin]);
    RunOfFirst(setup, first.pad, open, [spin]);
    RunOfOne(setup, Took(setup, first.pad, open).pad, spin);
    NoneDueAfter(setup, first.pad.gates, poll.now);
    SpinRises(setup, TakeOpened(setup, first.pad.gates, poll.now).gates, poll.now, poll.spun);
  }

  /** The instant of the last of some polls, or any before the first. */
  lemma NoneDueBetween(setup: Setup, polls: seq<Poll>) returns (t: Micros)
    ensures NoneDue(setup, Run(setup, FRESH_PAD, AllSteps(polls)).pad.gates, t)
  {
    hide Took;
    if polls == [] {
      t := 0;
    } else {
      var init, last := polls[..|polls| - 1], polls[|polls| - 1];
      t := last.now;
      RunInTwo(setup, FRESH_PAD, AllSteps(init), PollSteps(last));
      PollLeavesNoneDue(setup, Run(setup, FRESH_PAD, AllSteps(init)).pad, last);
    }
  }

  ghost predicate EarliestFirst(ran: Ran) {
    && (forall i, j :: 0 <= i < j < |ran.events| ==> ran.events[i].at <= ran.events[j].at)
    && (forall i, j :: 0 <= i < j < |ran.handings| ==> ran.handings[i].at <= ran.handings[j].at)
  }

  /** After any polls, whatever their instants, a poll whose own changes are in order and not after it hands
      over its events earliest first. */
  lemma EachPollIsEarliestFirst(setup: Setup, polls: seq<Poll>, poll: Poll)
    requires Ordered(poll)
    ensures EarliestFirst(Run(setup, Run(setup, FRESH_PAD, AllSteps(polls)).pad, PollSteps(poll)))
  {
    hide Run, NoneDue, AllSteps, PollSteps;
    var t := NoneDueBetween(setup, polls);
    PollRises(setup, Run(setup, FRESH_PAD, AllSteps(polls)).pad, t, poll);
  }

  // ---------- When instants go back from one poll to the next ----------

  lemma {:induction false} LogHas(handings: seq<Handing>, h: Handing)
    ensures h in handings <==> Handed(h.pressed, h.at) in LogOf(handings, h.element)
  {
    if handings != [] {
      var init, last := handings[..|handings| - 1], handings[|handings| - 1];
      assert handings == init + [last];
      LogHas(init, h);
      var added := if last.element == h.element then [Handed(last.pressed, last.at)] else [];
      assert LogOf(handings, h.element) == LogOf(init, h.element) + added;
      assert Handed(h.pressed, h.at) in LogOf(handings, h.element)
        <==> Handed(h.pressed, h.at) in LogOf(init, h.element) || Handed(h.pressed, h.at) in added;
    }
  }

  /** What a part of a poll would hand over of one element, from its gate, the way it reads and the instant. */
  ghost predicate HandsBefore(setup: Setup, pad: Pad, step: Step, e: PadElement, last: Micros) {
    var gate := GateOf(pad.gates, e);
    match step
    case Open(at) => e in Keys(setup) && gate.ReleaseOpenedBy(at, setup.window).Some?
      && gate.ReleaseOpenedBy(at, setup.window).value < last
    case Change(at, change) =>
      && e in Keys(setup)
      && ((gate.ReleaseOpenedBy(at, setup.window).Some? && gate.ReleaseOpenedBy(at, setup.window).value < last)
          || (at < last && Fires(gate, pad.snapshot.Apply(change).Reads(e, setup.deadzone), at, setup.window)))
    case Spin(at, spun) =>
      e in Turntables(setup) && at < last && !Deaf(gate, at, setup.window) && (e in spun) != gate.handed
  }

  ghost predicate AnyBefore(log: seq<Handed>, last: Micros) {
    exists i :: 0 <= i < |log| && log[i].at < last
  }

  lemma OneLogged(log: seq<Handed>, handed: Handed, last: Micros)
    requires log == [handed]
    ensures AnyBefore(log, last) <==> handed.at < last
  {
    assert log[0] == handed;
  }

  lemma AnyInTwo(a: seq<Handed>, b: seq<Handed>, last: Micros)
    ensures AnyBefore(a + b, last) <==> AnyBefore(a, last) || AnyBefore(b, last)
  {
    if AnyBefore(a, last) {
      var i :| 0 <= i < |a| && a[i].at < last;
      assert (a + b)[i] == a[i];
    }
    if AnyBefore(b, last) {
      var i :| 0 <= i < |b| && b[i].at < last;
      assert (a + b)[|a| + i] == b[i];
    }
  }

  lemma OpenedBefore(setup: Setup, gates: Gates, at: Micros, e: PadElement, last: Micros)
    ensures AnyBefore(LogOf(TakeOpened(setup, gates, at).handings, e), last)
            <==> e in Keys(setup) && GateOf(gates, e).ReleaseOpenedBy(at, setup.window).Some?
                 && GateOf(gates, e).ReleaseOpenedBy(at, setup.window).value < last
  {
    hide TakeOpened, Keys, LogOf, AnyBefore;
    TakeOpenedLog(setup, gates, at, e);
    match GateOf(gates, e).ReleaseOpenedBy(at, setup.window)
    case Some(opens) => OneLogged([Handed(false, opens)], Handed(false, opens), last); NothingLogged(last);
    case None => NothingLogged(last);
  }

  lemma NothingLogged(last: Micros)
    ensures !AnyBefore([], last)
  {}

  lemma StepHandsBefore(setup: Setup, pad: Pad, step: Step, e: PadElement, last: Micros)
    ensures AnyBefore(LogOf(Took(setup, pad, step).handings, e), last) <==> HandsBefore(setup, pad, step, e, last)
  {
    hide TakeOpened, ReadKeys, ReadTurntables, Keys, Turntables, LogOf, AnyBefore, Deaf;
    NothingLogged(last);
    KeysAreDistinct(setup);
    match step
    case Open(at) => OpenedBefore(setup, pad.gates, at, e, last);
    case Change(at, change) => ChangeHandsBefore(setup, pad, at, change, e, last);
    case Spin(at, spun) =>
      if e in Turntables(setup) {
        SpinOne(setup, pad.gates, spun, at, e);
        OneLogged([Handed(e in spun, at)], Handed(e in spun, at), last);
      } else {
        SpinOther(setup, pad.gates, spun, at, e);
      }
  }

  lemma ChangeHandsBefore(setup: Setup, pad: Pad, at: Micros, change: PadChange, e: PadElement, last: Micros)
    ensures AnyBefore(LogOf(Took(setup, pad, Change(at, change)).handings, e), last)
            <==> HandsBefore(setup, pad, Change(at, change), e, last)
  {
    hide TakeOpened, ReadKeys, Keys, LogOf, AnyBefore;
    var taken, snapshot := TakeOpened(setup, pad.gates, at), pad.snapshot.Apply(change);
    var pressed := snapshot.Reads(e, setup.deadzone);
    NothingLogged(last);
    OpenedBefore(setup, pad.gates, at, e, last);
    TakeOpenedGate(setup, pad.gates, at, e);
    LogOfTwo(taken.handings, ReadKeys(setup, taken.gates, snapshot, at).handings, e);
    AnyInTwo(LogOf(taken.handings, e), LogOf(ReadKeys(setup, taken.gates, snapshot, at).handings, e), last);
    if e in Keys(setup) {
      ReadOne(setup, taken.gates, snapshot, at, e);
      OfferFires(GateOf(taken.gates, e), pressed, at, setup.window);
      OneLogged([Handed(pressed, at)], Handed(pressed, at), last);
    } else {
      ReadOther(setup, taken.gates, snapshot, at, e);
    }
  }
}
