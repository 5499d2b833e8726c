/** When a press of a key is handed over too soon after the release before it. The debounce measures from
    the last report of the key up, and a late stamp can put that before the release handed over. */
module PadSpacing {
  import opened Common
  import opened InputDebounce
  import opened Gamepad
  import opened FrameIndependence
  import opened PadRuns
  import opened PadAlways
  import opened PadOrder

  /** A press passes the guards of the debounce within the bounce gap of the last release handed over. */
  ghost predicate PressTooSoon(setup: Setup, before: Ran, step: Step, e: PadElement) {
    step.Change?
    && var taken := TakeOpened(setup, before.pad.gates, step.at);
       var log := LogOf(before.handings + taken.handings, e);
       && before.pad.snapshot.Apply(step.change).Reads(e, setup.deadzone)
       && Fires(GateOf(taken.gates, e), true, step.at, setup.window)
       && log != [] && step.at < After(log[|log| - 1].at, Gap(setup.window))
  }

  ghost predicate EverTooSoon(setup: Setup, steps: seq<Step>, e: PadElement) {
    steps != []
    && (EverTooSoon(setup, steps[..|steps| - 1], e)
        || PressTooSoon(setup, Run(setup, FRESH_PAD, steps[..|steps| - 1]), steps[|steps| - 1], e))
  }

  lemma OpenedStaysSpaced(g: Gate, log: seq<Handed>, until: Micros, window: nat)
    requires KeyHolds(g, log, window) && g.ReleaseOpenedBy(until, window).Some?
    ensures Spaced(log + [Handed(false, g.ReleaseOpenedBy(until, window).value)], window) <==> Spaced(log, window)
  {
    Longer(log, Handed(false, g.ReleaseOpenedBy(until, window).value), window);
  }

  lemma Longer(log: seq<Handed>, handed: Handed, window: nat)
    ensures Spaced(log + [handed], window)
            <==> Spaced(log, window)
                 && (log != [] ==>
                       handed.at >= After(log[|log| - 1].at, if handed.pressed then Gap(window) else window))
  {
    var all := log + [handed];
    if Spaced(all, window) {
      forall i | 0 < i < |log|
        ensures log[i].at >= After(log[i - 1].at, if log[i].pressed then Gap(window) else window)
      {
        assert all[i] == log[i] && all[i - 1] == log[i - 1];
      }
      if log != [] {
        assert all[|log|] == handed && all[|log| - 1] == log[|log| - 1];
      }
    }
  }

  /** A report keeps the distances exactly when it is no press let through too soon. */
  lemma OfferSpacedExactly(g: Gate, log: seq<Handed>, pressed: bool, at: Micros, window: nat)
    requires KeyHolds(g, log, window)
    ensures Spaced(Logged(log, g.Offer(pressed, at, window).1, pressed, at), window)
            <==> Spaced(log, window)
                 && !(pressed && Fires(g, true, at, window) && log != [] && at < After(log[|log| - 1].at, Gap(window)))
  {
    hide Spaced;
    OfferFires(g, pressed, at, window);
    Longer(log, Handed(pressed, at), window);
  }

  lemma OpenSpaced(setup: Setup, before: Ran, at: Micros, e: PadElement)
    requires Holds(setup, AsPlayed(before)) && e in Keys(setup)
    ensures var taken := TakeOpened(setup, before.pad.gates, at);
            var log := LogOf(before.handings + taken.handings, e);
            && (Spaced(log, setup.window) <==> Spaced(LogOf(before.handings, e), setup.window))
            && KeyHolds(GateOf(taken.gates, e), log, setup.window)
  {
    hide TakeOpened, Keys, Turntables, LogOf, Spaced, KeyHolds, TurnHolds, Net, DownCount;
    var taken, log := TakeOpened(setup, before.pad.gates, at), LogOf(before.handings, e);
    OpenHolds(setup, AsPlayed(before), at);
    TakeOpenedLog(setup, before.pad.gates, at, e);
    LogOfTwo(before.handings, taken.handings, e);
    assert log + [] == log;
    if GateOf(before.pad.gates, e).ReleaseOpenedBy(at, setup.window).Some? {
      OpenedStaysSpaced(GateOf(before.pad.gates, e), log, at, setup.window);
    }
  }

  lemma StepSpacedExactly(setup: Setup, before: Ran, step: Step, e: PadElement)
    requires Holds(setup, AsPlayed(before)) && e in Keys(setup)
    ensures Spaced(LogOf(Joined(before, Took(setup, before.pad, step)).handings, e), setup.window)
            <==> Spaced(LogOf(before.handings, e), setup.window) && !PressTooSoon(setup, before, step, e)
  {
    hide TakeOpened, ReadKeys, ReadTurntables, Keys, Turntables, LogOf, Spaced, KeyHolds, Holds;
    KeysAreDistinct(setup);
    match step
    case Open(at) => OpenSpaced(setup, before, at, e);
    case Spin(at, spun) =>
      SpinOther(setup, before.pad.gates, spun, at, e);
      LogOfTwo(before.handings, ReadTurntables(setup, before.pad.gates, spun, at).handings, e);
      assert LogOf(before.handings, e) + [] == LogOf(before.handings, e);
    case Change(at, change) =>
      var taken, snapshot := TakeOpened(setup, before.pad.gates, at), before.pad.snapshot.Apply(change);
      var read := ReadKeys(setup, taken.gates, snapshot, at);
      OpenSpaced(setup, before, at, e);
      ReadOne(setup, taken.gates, snapshot, at, e);
      LogOfTwo(before.handings + taken.handings, read.handings, e);
      assert (before.handings + taken.handings) + read.handings == before.handings + (taken.handings + read.handings);
      var log := LogOf(before.handings + taken.handings, e);
      assert log + [] == log;
      OfferSpacedExactly(GateOf(taken.gates, e), log, snapshot.Reads(e, setup.deadzone), at, setup.window);
  }

  /** In every run, a key's presses and releases keep the debounce's distances exactly when no press is let
      through within the bounce gap of the last release handed over. */
  lemma {:induction false} SpacedExactly(setup: Setup, steps: seq<Step>, e: PadElement)
    requires e in Keys(setup)
    ensures Spaced(LogOf(Run(setup, FRESH_PAD, steps).handings, e), setup.window) <==> !EverTooSoon(setup, steps, e)
  {
    hide Took, LogOf, Holds, PressTooSoon, Keys;
    if steps == [] {
      NothingSpaced(e, setup.window);
    } else {
      var init := steps[..|steps| - 1];
      SpacedExactly(setup, init, e);
      EveryRunHolds(setup, init);
      StepSpacedExactly(setup, Run(setup, FRESH_PAD, init), steps[|steps| - 1], e);
    }
  }

  lemma NothingSpaced(e: PadElement, window: nat)
    ensures Spaced(LogOf([], e), window)
  {}

  // ---------- A run in which a press is too soon ----------

  /** A tap and a press stamped before the release a poll has taken at 16 ms, then a press at 16.5 ms. */
  const BOUNCED := [Change(10000, ButtonChange(1, None, true)), Change(10500, ButtonChange(1, None, false))]
  const SOON := Change(16500, ButtonChange(1, None, true))

  lemma AfterTheBounce(pad: Pad)
    requires GateOf(pad.gates, Button(1)) == Gate(false, Some(0), Some(16000), false)
    ensures var first := Took(TWO_KEYS, pad, BOUNCED[0]);
            var second := Took(TWO_KEYS, first.pad, BOUNCED[1]);
            var third := Took(TWO_KEYS, second.pad, SOON);
            && LogOf(first.handings, Button(1)) == [] && LogOf(second.handings, Button(1)) == []
            && LogOf(third.handings, Button(1)) == [Handed(true, 16500)]
  {
    hide Took, Elements, LogOf;
    KeysOfTwo();
    var first := Took(TWO_KEYS, pad, BOUNCED[0]);
    var second := Took(TWO_KEYS, first.pad, BOUNCED[1]);
    ChangeOfOne(TWO_KEYS, pad, 10000, ButtonChange(1, None, true), Button(1));
    ChangeOfOne(TWO_KEYS, first.pad, 10500, ButtonChange(1, None, false), Button(1));
    ChangeOfOne(TWO_KEYS, second.pad, 16500, ButtonChange(1, None, true), Button(1));
  }

  /** A release is handed over at 16 ms and the next press at 16.5 ms, within the bounce gap of 2 ms. */
  lemma PressWithinTheGap()
    ensures var log := LogOf(Run(TWO_KEYS, FRESH_PAD, PollSteps(TAPPED) + (BOUNCED + [SOON])).handings, Button(1));
            log == [Handed(true, 0), Handed(false, 16000), Handed(true, 16500)] && !Spaced(log, TWO_KEYS.window)
  {
    hide Took, Elements, LogOf;
    var ran := Run(TWO_KEYS, FRESH_PAD, PollSteps(TAPPED));
    AfterTheTap();
    AfterTheBounce(ran.pad);
    var first := Took(TWO_KEYS, ran.pad, BOUNCED[0]);
    var second := Took(TWO_KEYS, first.pad, BOUNCED[1]);
    var third := Took(TWO_KEYS, second.pad, SOON);
    assert BOUNCED + [SOON] == [BOUNCED[0]] + ([BOUNCED[1]] + [SOON]);
    RunInTwo(TWO_KEYS, FRESH_PAD, PollSteps(TAPPED), BOUNCED + [SOON]);
    RunOfFirst(TWO_KEYS, ran.pad, BOUNCED[0], [BOUNCED[1]] + [SOON]);
    RunOfFirst(TWO_KEYS, first.pad, BOUNCED[1], [SOON]);
    RunOfOne(TWO_KEYS, second.pad, SOON);
    LogOfTwo(second.handings, third.handings, Button(1));
    LogOfTwo(first.handings, second.handings + third.handings, Button(1));
    LogOfTwo(ran.handings, first.handings + (second.handings + third.handings), Button(1));
    var log := LogOf(ran.handings, Button(1)) + ([] + ([] + [Handed(true, 16500)]));
    assert log[1] == Handed(false, 16000) && log[2] == Handed(true, 16500);
  }
}
