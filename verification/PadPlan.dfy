/** The plan and the key config as they tell on a run: events and elements in plan order, what is held, and the
    debounce and the deadzone in the units they are set in. */
module PadPlan {
  import opened InputDebounce
  import opened Gamepad
  import opened PadRuns
  import opened PadAlways
  import opened PadMeaning
  import opened Mapper

  // ---------- Plan order ----------

  lemma {:induction false} EventsOfTwo(a: seq<PlanEntry>, b: seq<PlanEntry>, fired: map<PadElement, bool>)
    ensures Events(a + b, fired) == Events(a, fired) + Events(b, fired)
  {
    if b == [] {
      assert a + b == a;
    } else {
      assert (a + b)[..|a + b| - 1] == a + b[..|b| - 1];
      EventsOfTwo(a, b[..|b| - 1], fired);
    }
  }

  /** The events of one instant follow the plan: an entry makes the event of its target if its element changed, a
      control's and a shortcut's on the way down only, after those of the entries before it and before those of the
      entries after it. */
  lemma EventsInPlanOrder(a: seq<PlanEntry>, entry: PlanEntry, b: seq<PlanEntry>, fired: map<PadElement, bool>)
    ensures Events(a + [entry] + b, fired)
            == Events(a, fired)
               + (if entry.element !in fired then []
                  else
                    match entry.target
                    case Lane(lane, dir) => [LaneEvent(lane, dir, fired[entry.element])]
                    case Control(action) => if fired[entry.element] then [ControlEvent(action)] else []
                    case Shortcut(shortcut) => if fired[entry.element] then [ShortcutEvent(shortcut)] else [])
               + Events(b, fired)
  {
    EventsOfTwo(a + [entry], b, fired);
    assert (a + [entry])[..|a|] == a;
  }

  /** The elements asked come in the order the plan first has them: those of its first entries come first. */
  lemma {:induction false} ElementsInPlanOrder(plan: seq<PlanEntry>, analog: set<nat>, turntables: bool, k: nat)
    requires k <= |plan|
    ensures Elements(plan[..k], analog, turntables) <= Elements(plan, analog, turntables)
    decreases |plan|
  {
    if k == |plan| {
      assert plan[..k] == plan;
    } else {
      ElementsInPlanOrder(plan[..|plan| - 1], analog, turntables, k);
      assert plan[..|plan| - 1][..k] == plan[..k];
    }
  }

  // ---------- What is held ----------

  /** What is held comes in plan order too. */
  lemma {:induction false} HeldInPlanOrder(plan: seq<PlanEntry>, gates: Gates, k: nat)
    requires k <= |plan|
    ensures Held(plan[..k], gates) <= Held(plan, gates)
    decreases |plan|
  {
    if k == |plan| {
      assert plan[..k] == plan;
    } else {
      HeldInPlanOrder(plan[..|plan| - 1], gates, k);
      assert plan[..|plan| - 1][..k] == plan[..k];
    }
  }

  /** Some entry whose element is down has the target of `event`. */
  ghost predicate BoundTo(plan: seq<PlanEntry>, gates: Gates, event: PadEvent, k: int) {
    0 <= k < |plan| && GateOf(gates, plan[k].element).handed && Sounds(event, plan[k].target, true)
  }

  lemma HeldIsWhatIsBound(plan: seq<PlanEntry>, gates: Gates, event: PadEvent)
    ensures event in Held(plan, gates) <==> exists k :: BoundTo(plan, gates, event, k)
  {
    hide Held;
    HeldIsWhatIsDown(plan, gates);
    if HoldsDown(plan, gates, event) {
      var k :| 0 <= k < |plan| && PressOf(plan[k].target) == event && GateOf(gates, plan[k].element).handed;
      assert BoundTo(plan, gates, event, k);
    }
    if k :| BoundTo(plan, gates, event, k) {
      assert PressOf(plan[k].target) == event;
    }
  }

  // ---------- A disabled controller ----------

  /** Changes that are not played are still taken in: the controller then stands as if they had been. */
  lemma {:induction false} DisabledFollows(setup: Setup, pad: Pad, changes: seq<Report>)
    ensures AllApplied(pad.snapshot, changes) == Run(setup, pad, ChangeSteps(changes)).pad.snapshot
  {
    hide TakeOpened, ReadKeys;
    if changes != [] {
      var n := |changes| - 1;
      DisabledFollows(setup, pad, changes[..n]);
      assert ChangeSteps(changes)[..n] == ChangeSteps(changes[..n]);
    }
  }

  // ---------- The config ----------

  /** PAD DEBOUNCE is in milliseconds, 100 at most: in every run a release comes at least that long after its
      press. */
  lemma DebounceIsInMilliseconds(cfg: PadConfig, analog: set<nat>, steps: seq<Step>, e: PadElement, i: nat)
    requires IsKey(cfg.SetupFor(analog), e)
    requires var log := LogOf(Run(cfg.SetupFor(analog), FRESH_PAD, steps).handings, e);
             0 < i < |log| && !log[i].pressed
    ensures var log := LogOf(Run(cfg.SetupFor(analog), FRESH_PAD, steps).handings, e);
            && (cfg.debounceMs <= 100 ==> log[i].at >= Later(log[i - 1].at, 1000 * cfg.debounceMs))
            && (cfg.debounceMs > 100 ==> log[i].at >= Later(log[i - 1].at, 100000))
  {
    hide Run, Keys, LogOf, IsKey;
    PlayedAs(cfg.SetupFor(analog), e);
    EveryRunHolds(cfg.SetupFor(analog), steps);
    var log := LogOf(Run(cfg.SetupFor(analog), FRESH_PAD, steps).handings, e);
    assert ReleasesWait(log, cfg.Window());
  }

  /** And held up no longer: a release reported once that time is over counts when it comes. */
  lemma ReleaseAfterTheWindowCounts(cfg: PadConfig, j: Judgement, at: Micros)
    requires CountsAsDown(j.log)
    requires at >= j.log[|j.log| - 1].at + 100000 || at >= j.log[|j.log| - 1].at + 1000 * cfg.debounceMs
    ensures Judge(j, false, at, cfg.Window()).log == j.log + [Handed(false, at)]
  {}

  /** An axis direction is down exactly while the axis stands beyond the deadzone set, taken between 0.05 and 0.95. */
  lemma DownBeyondTheDeadzone(cfg: PadConfig, steps: seq<Step>, axis: nat)
    ensures var position := LastPosition(steps, axis);
            && (IsDown(steps, AxisDir(axis, true), cfg.Deadzone())
                <==> position > 0.05 && (position > cfg.axisDeadzone || position > 0.95))
            && (IsDown(steps, AxisDir(axis, false), cfg.Deadzone())
                <==> -position > 0.05 && (-position > cfg.axisDeadzone || -position > 0.95))
  {
    hide LastPosition;
  }

  /** The deadzone in force is the one set, between 0.05 and 0.95: in every run the press of an axis direction is
      at a report of the axis beyond it on that side. */
  lemma PressesAreBeyondTheDeadzone(cfg: PadConfig, analog: set<nat>, steps: seq<Step>, h: Handing)
    requires h in Run(cfg.SetupFor(analog), FRESH_PAD, steps).handings && h.pressed
    requires h.element.AxisDir? && IsKey(cfg.SetupFor(analog), h.element)
    ensures exists i ::
              && 0 <= i < |steps| && steps[i].Change? && steps[i].at == h.at
              && steps[i].change.AxisChange? && steps[i].change.axis == h.element.axis
              && var position := if h.element.positive then steps[i].change.position else -steps[i].change.position;
              && position > 0.05
              && (position > cfg.axisDeadzone || position > 0.95)
  {
    hide Run, IsKey;
    EveryPressIsAReport(cfg.SetupFor(analog), steps, h);
    var i :| PushedAt(steps, h.element, cfg.Deadzone(), h.at, i);
    assert steps[i].change.AxisChange?;
  }
}
