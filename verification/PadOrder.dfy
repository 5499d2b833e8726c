/** When the instants of a run go back from one poll to the next, and that no press is ever late. */
module PadOrder {
  import opened Common
  import opened StableSort
  import opened InputDebounce
  import opened Gamepad
  import opened FrameIndependence
  import opened PadRuns
  import opened PadAlways

  ghost predicate Rising(handings: seq<Handing>) {
    forall i, j :: 0 <= i < j < |handings| ==> handings[i].at <= handings[j].at
  }

  ghost predicate SomeBefore(handings: seq<Handing>, last: Micros) {
    exists h :: h in handings && h.at < last
  }

  /** What a part of a poll hands over before `last`, told from the gates and the change alone. */
  ghost predicate StepGoesBack(setup: Setup, pad: Pad, step: Step, last: Micros) {
    exists e :: HandsBefore(setup, pad, step, e, last)
  }

  lemma StepGoesBackExactly(setup: Setup, pad: Pad, step: Step, last: Micros)
    ensures SomeBefore(Took(setup, pad, step).handings, last) <==> StepGoesBack(setup, pad, step, last)
  {
    hide Took, HandsBefore, LogOf;
    var handings := Took(setup, pad, step).handings;
    if SomeBefore(handings, last) {
      var h :| h in handings && h.at < last;
      LogHas(handings, h);
      var log := LogOf(handings, h.element);
      var i :| 0 <= i < |log| && log[i] == Handed(h.pressed, h.at);
      assert AnyBefore(log, last);
      StepHandsBefore(setup, pad, step, h.element, last);
    }
    if StepGoesBack(setup, pad, step, last) {
      var e :| HandsBefore(setup, pad, step, e, last);
      StepHandsBefore(setup, pad, step, e, last);
      var log := LogOf(handings, e);
      var i :| 0 <= i < |log| && log[i].at < last;
      LogHas(handings, Handing(e, log[i].pressed, log[i].at));
    }
  }

  /** One of the parts would hand a change over before `last`. */
  ghost predicate AnyStepGoesBack(setup: Setup, pad: Pad, steps: seq<Step>, last: Micros) {
    exists k :: 0 <= k < |steps| && StepGoesBack(setup, Run(setup, pad, steps[..k]).pad, steps[k], last)
  }

  lemma AnyStepInLonger(setup: Setup, pad: Pad, init: seq<Step>, step: Step, last: Micros)
    ensures AnyStepGoesBack(setup, pad, init + [step], last)
            <==> AnyStepGoesBack(setup, pad, init, last) || StepGoesBack(setup, Run(setup, pad, init).pad, step, last)
  {
    hide Run, StepGoesBack;
    var steps := init + [step];
    assert steps[..|init|] == init;
    if AnyStepGoesBack(setup, pad, init, last) {
      var k :| 0 <= k < |init| && StepGoesBack(setup, Run(setup, pad, init[..k]).pad, init[k], last);
      assert steps[..k] == init[..k] && steps[k] == init[k];
    }
    if StepGoesBack(setup, Run(setup, pad, init).pad, step, last) {
      assert steps[|init|] == step;
    }
    if AnyStepGoesBack(setup, pad, steps, last) {
      var k :| 0 <= k < |steps| && StepGoesBack(setup, Run(setup, pad, steps[..k]).pad, steps[k], last);
      if k < |init| {
        assert steps[..k] == init[..k] && steps[k] == init[k];
      }
    }
  }

  lemma {:induction false} RunGoesBackExactly(setup: Setup, pad: Pad, steps: seq<Step>, last: Micros)
    ensures SomeBefore(Run(setup, pad, steps).handings, last) <==> AnyStepGoesBack(setup, pad, steps, last)
  {
    hide Took, StepGoesBack;
    if steps == [] {
      assert Run(setup, pad, steps).handings == [];
    } else {
      var init, step := steps[..|steps| - 1], steps[|steps| - 1];
      assert steps == init + [step];
      var before := Run(setup, pad, init);
      RunGoesBackExactly(setup, pad, init, last);
      StepGoesBackExactly(setup, before.pad, step, last);
      AnyStepInLonger(setup, pad, init, step, last);
      SomeInTwo(before.handings, Took(setup, before.pad, step).handings, last);
    }
  }

  lemma SomeInTwo(a: seq<Handing>, b: seq<Handing>, last: Micros)
    ensures SomeBefore(a + b, last) <==> SomeBefore(a, last) || SomeBefore(b, last)
  {}

  /** A poll goes back behind what has been handed over: a change of its own is stamped early enough, and
      passes the guards of the debounce, or a release opens early enough. */
  ghost predicate PollGoesBack(setup: Setup, before: Ran, poll: Poll) {
    before.handings != []
      && AnyStepGoesBack(setup, before.pad, PollSteps(poll), before.handings[|before.handings| - 1].at)
  }

  /** In changes handed over in order, the first is before `last` exactly when any is. */
  lemma FirstIsLeast(handings: seq<Handing>, last: Micros)
    requires Rising(handings)
    ensures SomeBefore(handings, last) <==> handings != [] && handings[0].at < last
  {
    if handings != [] && handings[0].at < last {
      assert handings[0] in handings;
    }
  }

  /** The first change a poll hands over is before the last one handed over until then exactly when the
      guards say so. */
  lemma PollGoesBackExactly(setup: Setup, polls: seq<Poll>, poll: Poll)
    requires Ordered(poll)
    ensures var before := Run(setup, FRESH_PAD, AllSteps(polls));
            var handed := Run(setup, before.pad, PollSteps(poll)).handings;
            PollGoesBack(setup, before, poll)
            <==> before.handings != [] && handed != [] && handed[0].at < before.handings[|before.handings| - 1].at
  {
    hide Run, AllSteps, PollSteps, AnyStepGoesBack;
    var before := Run(setup, FRESH_PAD, AllSteps(polls));
    var handed := Run(setup, before.pad, PollSteps(poll)).handings;
    EachPollIsEarliestFirst(setup, polls, poll);
    if before.handings != [] {
      var last := before.handings[|before.handings| - 1].at;
      RunGoesBackExactly(setup, before.pad, PollSteps(poll), last);
      FirstIsLeast(handed, last);
    }
  }

  ghost predicate AllOrdered(polls: seq<Poll>) {
    forall i :: 0 <= i < |polls| ==> Ordered(polls[i])
  }

  /** Some poll of the run goes back. */
  ghost predicate EverGoesBack(setup: Setup, polls: seq<Poll>) {
    polls != []
    && (EverGoesBack(setup, polls[..|polls| - 1])
        || PollGoesBack(setup, Run(setup, FRESH_PAD, AllSteps(polls[..|polls| - 1])), polls[|polls| - 1]))
  }

  lemma RisingInTwo(a: seq<Handing>, b: seq<Handing>)
    requires Rising(b)
    ensures Rising(a + b) <==> Rising(a) && (a == [] || b == [] || a[|a| - 1].at <= b[0].at)
  {
    var all := a + b;
    if Rising(all) {
      forall i, j | 0 <= i < j < |a| ensures a[i].at <= a[j].at {
        assert all[i] == a[i] && all[j] == a[j];
      }
      if a != [] && b != [] {
        assert all[|a| - 1] == a[|a| - 1] && all[|a|] == b[0];
      }
    }
  }

  /** Instants never go back over a run of polls, each in order in itself, exactly when no poll goes back. */
  lemma {:induction false} InstantsGoBackExactly(setup: Setup, polls: seq<Poll>)
    requires AllOrdered(polls)
    ensures Rising(Run(setup, FRESH_PAD, AllSteps(polls)).handings) <==> !EverGoesBack(setup, polls)
  {
    hide Took, PollSteps, PollGoesBack, Ordered;
    if polls == [] {
      assert Run(setup, FRESH_PAD, AllSteps(polls)).handings == [];
    } else {
      var init, last := polls[..|polls| - 1], polls[|polls| - 1];
      var before := Run(setup, FRESH_PAD, AllSteps(init));
      InstantsGoBackExactly(setup, init);
      RunInTwo(setup, FRESH_PAD, AllSteps(init), PollSteps(last));
      EachPollIsEarliestFirst(setup, init, last);
      PollGoesBackExactly(setup, init, last);
      RisingInTwo(before.handings, Run(setup, before.pad, PollSteps(last)).handings);
    }
  }

  // ---------- A run in which they do ----------

  /** One raw change to a key with nothing due. */
  lemma ChangeOfOne(setup: Setup, pad: Pad, at: Micros, change: PadChange, e: PadElement)
    requires e in Keys(setup) && GateOf(pad.gates, e).ReleaseOpenedBy(at, setup.window).None?
    ensures var ran := Took(setup, pad, Change(at, change));
            var pressed := pad.snapshot.Apply(change).Reads(e, setup.deadzone);
            var (gate, fired) := GateOf(pad.gates, e).Offer(pressed, at, setup.window);
            && GateOf(ran.pad.gates, e) == gate
            && LogOf(ran.handings, e) == (if fired then [Handed(pressed, at)] else [])
            && ran.pad.snapshot == pad.snapshot.Apply(change)
  {
    hide TakeOpened, ReadKeys, Keys, LogOf;
    var taken, snapshot := TakeOpened(setup, pad.gates, at), pad.snapshot.Apply(change);
    TakeOpenedGate(setup, pad.gates, at, e);
    TakeOpenedLog(setup, pad.gates, at, e);
    ReadOne(setup, taken.gates, snapshot, at, e);
    var read := ReadKeys(setup, taken.gates, snapshot, at);
    LogOfTwo(taken.handings, read.handings, e);
    assert [] + LogOf(read.handings, e) == LogOf(read.handings, e);
  }

  const TWO_KEYS :=
    Setup([PlanEntry(Button(1), Lane(0, Forward)), PlanEntry(Button(2), Lane(1, Forward))], {}, 16000, 0.2)

  /** The first key down at 0 and up at 5 ms, taken by a poll at 20 ms; the second down stamped 10 ms, taken
      by a poll at 30 ms. */
  const TAPPED := Poll([Report(0, ButtonChange(1, None, true)), Report(5000, ButtonChange(1, None, false))], 20000, {})
  const LATE := Poll([Report(10000, ButtonChange(2, None, true))], 30000, {})

  lemma KeysOfTwo()
    ensures Button(1) in Keys(TWO_KEYS) && Button(2) in Keys(TWO_KEYS)
    ensures Button(1) !in Turntables(TWO_KEYS) && Button(2) !in Turntables(TWO_KEYS)
  {
    hide Elements;
    ElementsAreThePlans(TWO_KEYS.plan, TWO_KEYS.analog, false);
    ElementsAreThePlans(TWO_KEYS.plan, TWO_KEYS.analog, true);
    assert TWO_KEYS.plan[0].element == Button(1) && TWO_KEYS.plan[1].element == Button(2);
  }

  /** After the tap the first key has been let go of at 16 ms, when its window ended. */
  lemma AfterTheTap()
    ensures var ran := Run(TWO_KEYS, FRESH_PAD, PollSteps(TAPPED));
            && LogOf(ran.handings, Button(1)) == [Handed(true, 0), Handed(false, 16000)]
            && GateOf(ran.pad.gates, Button(1)) == Gate(false, Some(0), Some(16000), false)
            && GateOf(ran.pad.gates, Button(2)) == FRESH
            && ran.pad.snapshot.Apply(LATE.changes[0].change).Reads(Button(2), TWO_KEYS.deadzone)
  {
    hide Took, Elements, LogOf;
    KeysOfTwo();
    var steps := PollSteps(TAPPED);
    var down, up := Change(0, ButtonChange(1, None, true)), Change(5000, ButtonChange(1, None, false));
    var open, spin := Open(20000), Spin(20000, {});
    assert ChangeSteps(TAPPED.changes) == [down] + [up];
    assert steps == [down] + ([up] + ([open] + [spin]));
    var a := Took(TWO_KEYS, FRESH_PAD, down);
    var b := Took(TWO_KEYS, a.pad, up);
    var c := Took(TWO_KEYS, b.pad, open);
    var d := Took(TWO_KEYS, c.pad, spin);
    RunOfFirst(TWO_KEYS, FRESH_PAD, down, [up] + ([open] + [spin]));
    RunOfFirst(TWO_KEYS, a.pad, up, [open] + [spin]);
    RunOfFirst(TWO_KEYS, b.pad, open, [spin]);
    RunOfOne(TWO_KEYS, c.pad, spin);
    ChangeOfOne(TWO_KEYS, FRESH_PAD, 0, ButtonChange(1, None, true), Button(1));
    ChangeOfOne(TWO_KEYS, FRESH_PAD, 0, ButtonChange(1, None, true), Button(2));
    ChangeOfOne(TWO_KEYS, a.pad, 5000, ButtonChange(1, None, false), Button(1));
    ChangeOfOne(TWO_KEYS, a.pad, 5000, ButtonChange(1, None, false), Button(2));
    TheTapEnds(b.pad);
    LogOfTwo(b.handings, c.handings + d.handings, Button(1));
    LogOfTwo(c.handings, d.handings, Button(1));
    LogOfTwo(a.handings, b.handings + (c.handings + d.handings), Button(1));
  }

  lemma TheTapEnds(pad: Pad)
    requires GateOf(pad.gates, Button(1)) == Gate(true, Some(0), None, false) && GateOf(pad.gates, Button(2)) == FRESH
    ensures var c := Took(TWO_KEYS, pad, Open(20000));
            var d := Took(TWO_KEYS, c.pad, Spin(20000, {}));
            && LogOf(c.handings, Button(1)) == [Handed(false, 16000)] && LogOf(d.handings, Button(1)) == []
            && GateOf(d.pad.gates, Button(1)) == Gate(false, Some(0), Some(16000), false)
            && GateOf(d.pad.gates, Button(2)) == FRESH
            && d.pad.snapshot == pad.snapshot
  {
    hide TakeOpened, ReadTurntables, Elements, LogOf;
    KeysOfTwo();
    TakeOpenedLog(TWO_KEYS, pad.gates, 20000, Button(1));
    TakeOpenedGate(TWO_KEYS, pad.gates, 20000, Button(1));
    TakeOpenedGate(TWO_KEYS, pad.gates, 20000, Button(2));
    SpinOther(TWO_KEYS, TakeOpened(TWO_KEYS, pad.gates, 20000).gates, {}, 20000, Button(1));
    SpinOther(TWO_KEYS, TakeOpened(TWO_KEYS, pad.gates, 20000).gates, {}, 20000, Button(2));
  }

  /** A press stamped between two polls' instants is handed over before a release the poll before has taken
      at the end of its window: instants go back. */
  lemma LateStampGoesBack()
    ensures AllOrdered([TAPPED, LATE])
    ensures EverGoesBack(TWO_KEYS, [TAPPED, LATE])
    ensures !Rising(Run(TWO_KEYS, FRESH_PAD, AllSteps([TAPPED, LATE])).handings)
  {
    hide Took, Elements, LogOf, Ordered;
    var before := Run(TWO_KEYS, FRESH_PAD, PollSteps(TAPPED));
    var polls := [TAPPED, LATE];
    assert Ordered(TAPPED) && Ordered(LATE) by { BothOrdered(); }
    assert polls[..1] == [TAPPED] && [TAPPED][..0] == [];
    assert AllSteps([TAPPED]) == PollSteps(TAPPED) by { assert AllSteps([]) + PollSteps(TAPPED) == PollSteps(TAPPED); }
    AfterTheTap();
    assert LogOf(before.handings, Button(1))[1] == Handed(false, 16000);
    LogHas(before.handings, Handing(Button(1), false, 16000));
    EachPollIsEarliestFirst(TWO_KEYS, [], TAPPED);
    assert AllSteps([]) == [] && Run(TWO_KEYS, FRESH_PAD, []).pad == FRESH_PAD;
    var last := before.handings[|before.handings| - 1].at;
    assert last >= 16000;
    KeysOfTwo();
    var late := Change(10000, ButtonChange(2, None, true));
    assert HandsBefore(TWO_KEYS, before.pad, late, Button(2), last);
    var steps := PollSteps(LATE);
    assert steps[0] == late && Run(TWO_KEYS, before.pad, steps[..0]).pad == before.pad;
    assert StepGoesBack(TWO_KEYS, Run(TWO_KEYS, before.pad, steps[..0]).pad, steps[0], last);
    assert PollGoesBack(TWO_KEYS, before, LATE);
    InstantsGoBackExactly(TWO_KEYS, polls);
  }

  lemma BothOrdered()
    ensures Ordered(TAPPED) && Ordered(LATE)
  {}

  // ---------- No press is late ----------

  /** Every key's gate knows the way the key reads. */
  ghost predicate InSync(setup: Setup, pad: Pad) {
    forall e :: e in Keys(setup) ==> GateOf(pad.gates, e).reported == pad.snapshot.Reads(e, setup.deadzone)
  }

  lemma FreshInSync(setup: Setup)
    requires setup.deadzone >= 0.0
    ensures InSync(setup, FRESH_PAD)
  {
    hide Elements;
  }

  lemma StepInSync(setup: Setup, pad: Pad, step: Step)
    requires InSync(setup, pad)
    ensures InSync(setup, Took(setup, pad, step).pad)
  {
    hide TakeOpened, ReadKeys, ReadTurntables, Keys, Turntables;
    KeysAreDistinct(setup);
    var after := Took(setup, pad, step).pad;
    forall e | e in Keys(setup) ensures GateOf(after.gates, e).reported == after.snapshot.Reads(e, setup.deadzone) {
      match step
      case Open(at) => TakeOpenedGate(setup, pad.gates, at, e);
      case Change(at, change) =>
        var taken := TakeOpened(setup, pad.gates, at);
        ReadOne(setup, taken.gates, after.snapshot, at, e);
        OfferFires(GateOf(taken.gates, e), after.snapshot.Reads(e, setup.deadzone), at, setup.window);
      case Spin(at, spun) => SpinOther(setup, pad.gates, spun, at, e);
    }
  }

  lemma {:induction false} RunInSync(setup: Setup, pad: Pad, steps: seq<Step>)
    requires InSync(setup, pad)
    ensures InSync(setup, Run(setup, pad, steps).pad)
  {
    hide InSync, Took;
    if steps != [] {
      var init := steps[..|steps| - 1];
      RunInSync(setup, pad, init);
      StepInSync(setup, Run(setup, pad, init).pad, steps[|steps| - 1]);
    }
  }

  /** Change `i` of the run is at the instant of `h`, and it made the element read the other way. */
  ghost predicate ReportedBy(setup: Setup, pad: Pad, steps: seq<Step>, h: Handing, i: int) {
    && 0 <= i < |steps| && steps[i].Change? && steps[i].at == h.at
    && Run(setup, pad, steps[..i]).pad.snapshot.Reads(h.element, setup.deadzone) != h.pressed
    && Run(setup, pad, steps[..i + 1]).pad.snapshot.Reads(h.element, setup.deadzone) == h.pressed
  }

  ghost predicate Reported(setup: Setup, pad: Pad, steps: seq<Step>, h: Handing) {
    exists i :: ReportedBy(setup, pad, steps, h, i)
  }

  lemma ReportedStays(setup: Setup, pad: Pad, steps: seq<Step>, h: Handing)
    requires steps != [] && Reported(setup, pad, steps[..|steps| - 1], h)
    ensures Reported(setup, pad, steps, h)
  {
    var i :| ReportedBy(setup, pad, steps[..|steps| - 1], h, i);
    assert steps[..|steps| - 1][..i + 1] == steps[..i + 1] && steps[..|steps| - 1][..i] == steps[..i];
    assert ReportedBy(setup, pad, steps, h, i);
  }

  lemma {:induction false} FiredAre(order: seq<PadElement>, answers: map<PadElement, Answer>, at: Micros)
    ensures forall h :: h in FiredIn(order, answers, at) ==>
              h.element in order && h.element in answers && answers[h.element].fired
                && h.pressed == answers[h.element].pressed && h.at == at
  {
    if order != [] {
      FiredAre(order[..|order| - 1], answers, at);
      assert order == order[..|order| - 1] + [order[|order| - 1]];
    }
  }

  lemma {:induction false} ItemsAre(list: seq<Keyed<Handing>>)
    ensures forall h :: h in Items(list) ==> exists x :: x in list && x.item == h
  {
    if list != [] {
      ItemsAre(list[..|list| - 1]);
      assert list == list[..|list| - 1] + [list[|list| - 1]];
    }
  }

  lemma NoPressOpens(setup: Setup, gates: Gates, until: Micros)
    ensures forall h :: h in TakeOpened(setup, gates, until).handings ==> !h.pressed
  {
    var list := Releases(setup, gates, until);
    HandAllLog(gates, setup.plan, list);
    ItemsAre(list);
    SortedOpenedHolds(gates, Keys(setup), until, setup.window);
    forall h | h in TakeOpened(setup, gates, until).handings ensures !h.pressed {
      var x :| x in list && x.item == h;
      assert IsOpened(gates, Keys(setup), until, setup.window, x);
    }
  }

  /** No press of a key is ever late: each is at the instant of the very change that made the key read down,
      which it did not before that change. */
  lemma {:induction false} PressesAreAsReported(setup: Setup, pad: Pad, steps: seq<Step>)
    requires InSync(setup, pad)
    ensures forall h :: h in Run(setup, pad, steps).handings && h.pressed && h.element in Keys(setup)
              ==> Reported(setup, pad, steps, h)
  {
    if steps != [] {
      var init, last := steps[..|steps| - 1], steps[|steps| - 1];
      PressesAreAsReported(setup, pad, init);
      forall h | h in Run(setup, pad, steps).handings && h.pressed && h.element in Keys(setup)
        ensures Reported(setup, pad, steps, h)
      {
        if h in Run(setup, pad, init).handings {
          ReportedStays(setup, pad, steps, h);
        } else {
          RunInSync(setup, pad, init);
          StepPresses(setup, Run(setup, pad, init).pad, last, h);
          assert steps[..|init| + 1] == steps && steps[..|init|] == init;
          assert ReportedBy(setup, pad, steps, h, |init|);
        }
      }
    }
  }

  lemma StepPresses(setup: Setup, pad: Pad, step: Step, h: Handing)
    requires InSync(setup, pad) && h in Took(setup, pad, step).handings && h.pressed && h.element in Keys(setup)
    ensures step.Change? && step.at == h.at
    ensures Took(setup, pad, step).pad.snapshot.Reads(h.element, setup.deadzone)
            && !pad.snapshot.Reads(h.element, setup.deadzone)
  {
    hide TakeOpened, Keys, Turntables, Elements, Events, FiredIn;
    NoPressOpens(setup, pad.gates, step.at);
    TakeOpenedGate(setup, pad.gates, step.at, h.element);
    match step
    case Open(at) =>
    case Change(at, change) =>
      OfferFires(GateOf(TakeOpened(setup, pad.gates, at).gates, h.element), true, at, setup.window);
      FiredAre(Keys(setup), KeyAnswers(setup, TakeOpened(setup, pad.gates, at).gates, pad.snapshot.Apply(change), at),
        at);
    case Spin(at, spun) =>
      KeysAreDistinct(setup);
      FiredAre(Turntables(setup), SpinAnswers(setup, pad.gates, spun, at), at);
  }

  /** The presses of every run from a controller just opened. The deadzone in force is never negative. */
  lemma NoPressIsLate(setup: Setup, steps: seq<Step>)
    requires setup.deadzone >= 0.0
    ensures forall h :: h in Run(setup, FRESH_PAD, steps).handings && h.pressed && h.element in Keys(setup)
              ==> Reported(setup, FRESH_PAD, steps, h)
  {
    hide Run, Keys, Reported;
    FreshInSync(setup);
    PressesAreAsReported(setup, FRESH_PAD, steps);
  }
}
