/** The controller layer as the program keeps it, in place: each method is held to the value it
    computes in Gamepad.dfy. */
module Mapper {
  import opened Common
  import opened StableSort
  import opened InputDebounce
  import opened Gamepad
  import opened FrameIndependence

  /** What the player's key config says, the bindings as the plan made of them. */
  datatype PadConfig = PadConfig(
    enabled: bool,
    plan: seq<PlanEntry>,
    analogAxes: seq<nat>,
    analogOff: bool,
    analogShape: nat,
    debounceMs: nat,
    axisDeadzone: real)
  {
    /** PAD DEBOUNCE in microseconds, pulled inside its range. */
    function Window(): nat {
      (if debounceMs > 100 then 100 else debounceMs) * 1000
    }

    function Deadzone(): real {
      if axisDeadzone < 0.05 then 0.05 else if axisDeadzone > 0.95 then 0.95 else axisDeadzone
    }

    function SetupFor(analog: set<nat>): Setup {
      Setup(plan, analog, Window(), Deadzone())
    }
  }

  class PadSnapshot {
    var buttons: map<nat, bool>
    var standard: map<StandardButton, bool>
    var axes: map<nat, real>

    function Value(): Snapshot
      reads this
    {
      Snapshot(buttons, standard, axes)
    }

    constructor ()
      ensures Value() == NOTHING
    {
      buttons, standard, axes := map[], map[], map[];
    }

    method Apply(change: PadChange)
      modifies this
      ensures Value() == old(Value()).Apply(change)
    {
      match change {
        case ButtonChange(code, named, pressed) =>
          buttons := buttons[code := pressed];
          if named.Some? {
            standard := standard[named.value := pressed];
          }
        case AxisChange(axis, position) =>
          axes := axes[axis := position];
        case Disconnected =>
          buttons, standard, axes := map[], map[], map[];
      }
    }
  }

  /** The axes read as turntables once the mapper has been tuned to a config: the ones of another
      algorithm or threshold are forgotten. */
  function Retuned(analog: set<nat>, shape: Option<nat>, cfg: PadConfig): set<nat> {
    (if shape == Some(cfg.analogShape) then analog else {})
      + (if cfg.analogOff then {} else set axis | axis in cfg.analogAxes)
  }

  /** The elements of `done` have given their answers, and no other. */
  ghost predicate SoFar(
    before: Gates, gates: Gates, fired: map<PadElement, bool>, answers: map<PadElement, Answer>, done: seq<PadElement>)
  {
    && (forall e :: e in gates <==> e in before || (e in done && e in answers))
    && (forall e ::
          e in gates
          ==> if e in done && e in answers then gates[e] == answers[e].gate else e in before && gates[e] == before[e])
    && (forall e :: e in fired <==> e in done && e in answers && answers[e].fired)
    && (forall e :: e in fired ==> fired[e] == answers[e].pressed)
  }

  lemma NoneAsked(before: Gates, answers: map<PadElement, Answer>, order: seq<PadElement>)
    ensures SoFar(before, before, map[], answers, order[..0])
  {}

  lemma NotYetAsked(
    before: Gates, gates: Gates, fired: map<PadElement, bool>, answers: map<PadElement, Answer>, done: seq<PadElement>,
    e: PadElement)
    requires SoFar(before, gates, fired, answers, done) && e !in done
    ensures GateOf(gates, e) == GateOf(before, e)
  {}

  lemma OneAsked(
    before: Gates, gates: Gates, fired: map<PadElement, bool>, answers: map<PadElement, Answer>, order: seq<PadElement>,
    i: nat)
    requires i < |order| && order[i] !in order[..i]
    requires SoFar(before, gates, fired, answers, order[..i])
    ensures var e := order[i];
            if e in answers
            then SoFar(before, gates[e := answers[e].gate],
                       if answers[e].fired then fired[e := answers[e].pressed] else fired, answers, order[..i + 1])
            else SoFar(before, gates, fired, answers, order[..i + 1])
  {
    assert order[..i + 1] == order[..i] + [order[i]];
  }

  lemma AllAsked(
    before: Gates, gates: Gates, fired: map<PadElement, bool>, answers: map<PadElement, Answer>, order: seq<PadElement>)
    requires SoFar(before, gates, fired, answers, order[..|order|])
    requires forall e :: e in answers ==> e in order
    ensures gates == before + (map e | e in answers :: answers[e].gate)
    ensures fired == Fired(answers)
  {
    assert order[..|order|] == order;
  }

  class PadMapper {
    var gates: Gates
    var analog: set<nat>
    var analogShape: Option<nat>

    constructor ()
      ensures gates == map[] && analog == {} && analogShape == None
    {
      gates, analog, analogShape := map[], {}, None;
    }

    method Retune(cfg: PadConfig)
      modifies `analog, `analogShape
      ensures analog == Retuned(old(analog), old(analogShape), cfg) && analogShape == Some(cfg.analogShape)
      ensures forall axis :: axis in analog <==>
                || (axis in cfg.analogAxes && !cfg.analogOff)
                || (axis in old(analog) && old(analogShape) == Some(cfg.analogShape))
    {
      if analogShape != Some(cfg.analogShape) {
        analog := {};
        analogShape := Some(cfg.analogShape);
      }
      if cfg.analogOff {
        return;
      }
      ghost var kept := analog;
      for i := 0 to |cfg.analogAxes|
        invariant analog == kept + set axis | axis in cfg.analogAxes[..i]
        invariant analogShape == Some(cfg.analogShape)
      {
        analog := analog + {cfg.analogAxes[i]};
      }
      assert cfg.analogAxes[..|cfg.analogAxes|] == cfg.analogAxes;
    }

    method ElementsOf(plan: seq<PlanEntry>, turntables: bool) returns (order: seq<PadElement>)
      ensures order == Elements(plan, analog, turntables)
    {
      order := [];
      for i := 0 to |plan|
        invariant order == Elements(plan[..i], analog, turntables)
      {
        var e := plan[i].element;
        assert plan[..i + 1][..i] == plan[..i];
        if e !in order && IsTurntable(e, analog) == turntables {
          order := order + [e];
        }
      }
      assert plan[..|plan|] == plan;
    }

    method EventsOf(plan: seq<PlanEntry>, fired: map<PadElement, bool>) returns (events: seq<PadEvent>)
      ensures events == Events(plan, fired)
    {
      events := [];
      for i := 0 to |plan|
        invariant events == Events(plan[..i], fired)
      {
        assert plan[..i + 1][..i] == plan[..i];
        if plan[i].element in fired {
          var event := EventOf(plan[i].target, fired[plan[i].element]);
          if event.Some? {
            events := events + [event.value];
          }
        }
      }
      assert plan[..|plan|] == plan;
    }

    /** Offer one key to its debounce as it reads. */
    method AskKey(e: PadElement, at: Micros, cfg: PadConfig, snapshot: PadSnapshot) returns (raw: bool, handed: bool)
      modifies `gates
      ensures var answer := KeyAnswer(cfg.SetupFor(analog), old(gates), snapshot.Value(), e, at);
              gates == old(gates)[e := answer.gate] && raw == answer.pressed && handed == answer.fired
    {
      raw := snapshot.Value().Reads(e, cfg.Deadzone());
      var gate := new Lr2Debounce(GateOf(gates, e));
      handed := gate.Offer(raw, at, cfg.Window());
      gates := gates[e := gate.State()];
    }

    method ReadKeys(at: Micros, cfg: PadConfig, snapshot: PadSnapshot) returns (events: seq<PadEvent>)
      modifies `gates
      ensures var read := Gamepad.ReadKeys(cfg.SetupFor(analog), old(gates), snapshot.Value(), at);
              gates == read.gates && Stamped(events, at) == read.events
    {
      ghost var setup := cfg.SetupFor(analog);
      ghost var answers := KeyAnswers(setup, gates, snapshot.Value(), at);
      ghost var before := gates;
      var fired: map<PadElement, bool> := map[];
      var order := ElementsOf(cfg.plan, false);
      ElementsAreThePlans(cfg.plan, analog, false);
      NoneAsked(before, answers, order);
      for i := 0 to |order|
        invariant SoFar(before, gates, fired, answers, order[..i])
      {
        hide SoFar, Elements, Snapshot.Reads, Gate.Offer, Events;
        var e := order[i];
        NotYetAsked(before, gates, fired, answers, order[..i], e);
        OneAsked(before, gates, fired, answers, order, i);
        var raw, handed := AskKey(e, at, cfg, snapshot);
        if handed {
          fired := fired[e := raw];
        }
      }
      AllAsked(before, gates, fired, answers, order);
      events := EventsOf(cfg.plan, fired);
    }

    /** Read one turntable direction, unless it is deaf. `spun` stands for what the turntables' own
        machines, which are not modelled, would read. */
    method AskTurntable(e: PadElement, at: Micros, cfg: PadConfig, spun: set<PadElement>) returns (handed: bool)
      modifies `gates
      ensures if Deaf(GateOf(old(gates), e), at, cfg.Window()) then gates == old(gates) && !handed
              else (gates, handed) == (old(gates)[e := GateOf(old(gates), e).HandOver(e in spun, at).0],
                                       GateOf(old(gates), e).HandOver(e in spun, at).1)
    {
      var gate := new Lr2Debounce(GateOf(gates, e));
      var last := gate.LastHandedAt();
      if last.Some? && at < After(last.value, cfg.Window()) {
        return false;
      }
      handed := gate.HandOver(e in spun, at);
      gates := gates[e := gate.State()];
    }

    method ReadTurntables(at: Micros, cfg: PadConfig, spun: set<PadElement>) returns (events: seq<PadEvent>)
      modifies `gates
      ensures var read := Gamepad.ReadTurntables(cfg.SetupFor(analog), old(gates), spun, at);
              gates == read.gates && Stamped(events, at) == read.events
    {
      ghost var setup := cfg.SetupFor(analog);
      ghost var answers := SpinAnswers(setup, gates, spun, at);
      ghost var before := gates;
      var fired: map<PadElement, bool> := map[];
      var order := ElementsOf(cfg.plan, true);
      ElementsAreThePlans(cfg.plan, analog, true);
      NoneAsked(before, answers, order);
      for i := 0 to |order|
        invariant SoFar(before, gates, fired, answers, order[..i])
      {
        hide SoFar, Elements, Gate.HandOver, Deaf, Events;
        var e := order[i];
        NotYetAsked(before, gates, fired, answers, order[..i], e);
        OneAsked(before, gates, fired, answers, order, i);
        var handed := AskTurntable(e, at, cfg, spun);
        if handed {
          fired := fired[e := e in spun];
        }
      }
      AllAsked(before, gates, fired, answers, order);
      events := EventsOf(cfg.plan, fired);
    }

    method FindOpened(until: Micros, cfg: PadConfig) returns (releases: seq<Keyed<Handing>>)
      ensures releases == OpenedIn(gates, Keys(cfg.SetupFor(analog)), until, cfg.Window())
    {
      var order := ElementsOf(cfg.plan, false);
      releases := [];
      for i := 0 to |order|
        invariant releases == OpenedIn(gates, order[..i], until, cfg.Window())
      {
        assert order[..i + 1][..i] == order[..i];
        var gate := new Lr2Debounce(GateOf(gates, order[i]));
        var opens := gate.ReleaseOpenedBy(until, cfg.Window());
        if opens.Some? {
          releases := releases + [Keyed(opens.value, Handing(order[i], false, opens.value))];
        }
      }
      assert order[..|order|] == order;
    }

    method HandOne(h: Handing, cfg: PadConfig) returns (events: seq<Timed>)
      modifies `gates
      ensures var handed := Gamepad.HandOne(old(gates), cfg.plan, h);
              gates == handed.gates && events == handed.events
    {
      var gate := new Lr2Debounce(GateOf(gates, h.element));
      var _ := gate.HandOver(false, h.at);
      gates := gates[h.element := gate.State()];
      var released := EventsOf(cfg.plan, map[h.element := false]);
      events := Stamped(released, h.at);
    }

    /** Take every release the debounce kept out and has let through by `until`, earliest first. */
    method TakeOpened(until: Micros, cfg: PadConfig) returns (events: seq<Timed>)
      modifies `gates
      ensures var taken := Gamepad.TakeOpened(cfg.SetupFor(analog), old(gates), until);
              gates == taken.gates && events == taken.events
    {
      var releases := FindOpened(until, cfg);
      var sorted := SortByKey(releases);
      events := [];
      for i := 0 to |sorted|
        invariant var taken := HandAll(old(gates), cfg.plan, sorted[..i]);
                  gates == taken.gates && events == taken.events
      {
        hide Gamepad.HandOne, Elements, SortByKey;
        assert sorted[..i + 1][..i] == sorted[..i];
        var handed := HandOne(sorted[i].item, cfg);
        events := events + handed;
      }
      assert sorted[..|sorted|] == sorted;
    }

    /** One raw change: the releases opened by its instant, then the keys as they read after it. */
    method TakeChange(report: Report, cfg: PadConfig, snapshot: PadSnapshot) returns (events: seq<Timed>)
      modifies `gates, snapshot
      ensures var took :=
              Took(cfg.SetupFor(analog), Pad(old(gates), old(snapshot.Value())), Change(report.at, report.change));
              Pad(gates, snapshot.Value()) == took.pad && events == took.events
    {
      hide Gamepad.TakeOpened, Gamepad.ReadKeys;
      var taken := TakeOpened(report.at, cfg);
      snapshot.Apply(report.change);
      var keys := ReadKeys(report.at, cfg, snapshot);
      events := taken + Stamped(keys, report.at);
    }

    /** Take the changes in without playing them. */
    method ApplyAll(changes: seq<Report>, snapshot: PadSnapshot)
      modifies snapshot
      ensures snapshot.Value() == AllApplied(old(snapshot.Value()), changes)
    {
      for i := 0 to |changes|
        invariant snapshot.Value() == AllApplied(old(snapshot.Value()), changes[..i])
      {
        assert changes[..i + 1][..i] == changes[..i];
        snapshot.Apply(changes[i].change);
      }
      assert changes[..|changes|] == changes;
    }

    method TakeChanges(changes: seq<Report>, cfg: PadConfig, snapshot: PadSnapshot) returns (events: seq<Timed>)
      modifies `gates, snapshot
      ensures var ran := Run(cfg.SetupFor(analog), Pad(old(gates), old(snapshot.Value())), ChangeSteps(changes));
              Pad(gates, snapshot.Value()) == ran.pad && events == ran.events
    {
      hide Took;
      ghost var setup, start := cfg.SetupFor(analog), Pad(gates, snapshot.Value());
      events := [];
      for i := 0 to |changes|
        invariant var ran := Run(setup, start, ChangeSteps(changes[..i]));
                  Pad(gates, snapshot.Value()) == ran.pad && events == ran.events
      {
        var played := TakeChange(changes[i], cfg, snapshot);
        events := events + played;
        assert ChangeSteps(changes[..i + 1])[..i] == ChangeSteps(changes[..i]);
      }
      assert changes[..|changes|] == changes;
    }

    /** One poll of raw changes, each at its own instant, then the releases opened by `now`, then the
        turntables. */
    method ResolveChanges(
      changes: seq<Report>, now: Micros, cfg: PadConfig, snapshot: PadSnapshot, spun: set<PadElement>)
      returns (events: seq<Timed>)
      modifies this, snapshot
      ensures !cfg.enabled ==>
                && events == [] && gates == old(gates) && analog == old(analog) && analogShape == old(analogShape)
                && snapshot.Value() == AllApplied(old(snapshot.Value()), changes)
      ensures cfg.enabled ==>
                && analog == Retuned(old(analog), old(analogShape), cfg)
                && analogShape == Some(cfg.analogShape)
                && var ran := Run(cfg.SetupFor(analog), Pad(old(gates), old(snapshot.Value())),
                                  PollSteps(Poll(changes, now, spun)));
                   Pad(gates, snapshot.Value()) == ran.pad && events == ran.events
    {
      hide Gamepad.TakeOpened, Gamepad.ReadTurntables, Run, AllApplied, PollSteps, ChangeSteps;
      ghost var start := Pad(gates, snapshot.Value());
      if !cfg.enabled {
        ApplyAll(changes, snapshot);
        return [];
      }
      Retune(cfg);
      ghost var setup := cfg.SetupFor(analog);
      var played := TakeChanges(changes, cfg, snapshot);
      var taken := TakeOpened(now, cfg);
      var turned := ReadTurntables(now, cfg, spun);
      events := played + (taken + Stamped(turned, now));
      PollInParts(setup, start, Poll(changes, now, spun));
    }

    /** Everything held down as of the last poll. */
    method HeldNow(cfg: PadConfig) returns (held: seq<PadEvent>)
      ensures held == if cfg.enabled then Held(cfg.plan, gates) else []
    {
      held := [];
      if !cfg.enabled {
        return;
      }
      for i := 0 to |cfg.plan|
        invariant held == Held(cfg.plan[..i], gates)
      {
        assert cfg.plan[..i + 1][..i] == cfg.plan[..i];
        var entry := cfg.plan[i];
        if !GateOf(gates, entry.element).handed {
          continue;
        }
        var event := PressOf(entry.target);
        if event !in held {
          held := held + [event];
        }
      }
      assert cfg.plan[..|cfg.plan|] == cfg.plan;
    }
  }

  /** A snapshot after every change of a poll that is not to be played. */
  function AllApplied(snapshot: Snapshot, changes: seq<Report>): Snapshot {
    if changes == [] then snapshot
    else AllApplied(snapshot, changes[..|changes| - 1]).Apply(changes[|changes| - 1].change)
  }

  lemma PollInParts(setup: Setup, pad: Pad, poll: Poll)
    ensures var first := Run(setup, pad, ChangeSteps(poll.changes));
            var second := Took(setup, first.pad, Open(poll.now));
            var third := Took(setup, second.pad, Spin(poll.now, poll.spun));
            Run(setup, pad, PollSteps(poll)) == Joined(first, Joined(second, third))
  {
    hide Took;
    var changes := ChangeSteps(poll.changes);
    var first := Run(setup, pad, changes);
    var open, spin := Open(poll.now), Spin(poll.now, poll.spun);
    assert PollSteps(poll) == changes + ([open] + [spin]);
    RunInTwo(setup, pad, changes, [open] + [spin]);
    RunOfFirst(setup, first.pad, open, [spin]);
    RunOfOne(setup, Took(setup, first.pad, open).pad, spin);
  }
}
