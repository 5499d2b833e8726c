/** Controller input (gamepad.rs): raw changes resolved one by one through the debounce of each
    physical element into lane, control and shortcut events. The state is modelled by value here
    and kept in place by `PadMapper` in PadMapper.dfy. */
module Gamepad {
  import opened Common
  import opened StableSort
  import opened InputDebounce

  datatype StandardButton = Start | Select

  /** One physical thing on the controller. */
  datatype PadElement =
    | Button(code: nat)
    | Standard(button: StandardButton)
    | AxisDir(axis: nat, positive: bool)

  datatype ScratchDir = Forward | Backward

  datatype PadTarget =
    | Lane(lane: nat, dir: ScratchDir)
    | Control(action: nat)
    | Shortcut(shortcut: nat)

  datatype PadEvent =
    | LaneEvent(lane: nat, dir: ScratchDir, press: bool)
    | ControlEvent(action: nat)
    | ShortcutEvent(shortcut: nat)

  datatype PlanEntry = PlanEntry(element: PadElement, target: PadTarget)

  datatype PadChange =
    | ButtonChange(code: nat, standard: Option<StandardButton>, pressed: bool)
    | AxisChange(axis: nat, position: real)
    | Disconnected

  /** The raw value of every element the device last reported. */
  datatype Snapshot = Snapshot(buttons: map<nat, bool>, standard: map<StandardButton, bool>, axes: map<nat, real>) {

    function Apply(change: PadChange): Snapshot {
      match change
      case ButtonChange(code, named, pressed) =>
        Snapshot(buttons[code := pressed], if named.Some? then standard[named.value := pressed] else standard, axes)
      case AxisChange(axis, position) => this.(axes := axes[axis := position])
      case Disconnected => NOTHING
    }

    /** How a button or an axis direction read as a key stands. */
    predicate Reads(e: PadElement, deadzone: real) {
      match e
      case Button(code) => code in buttons && buttons[code]
      case Standard(button) => button in standard && standard[button]
      case AxisDir(axis, positive) =>
        var position := if axis in axes then axes[axis] else 0.0;
        if positive then position > deadzone else position < -deadzone
    }
  }

  const NOTHING := Snapshot(map[], map[], map[])

  /** What is constant over a run: the plan, the axes read as turntables, the debounce window in
      microseconds and the deadzone. */
  datatype Setup = Setup(plan: seq<PlanEntry>, analog: set<nat>, window: nat, deadzone: real)

  type Gates = map<PadElement, Gate>

  function GateOf(gates: Gates, e: PadElement): Gate {
    if e in gates then gates[e] else FRESH
  }

  predicate IsTurntable(e: PadElement, analog: set<nat>) {
    e.AxisDir? && e.axis in analog
  }

  /** The distinct elements of a plan that are turntable directions, or that are not, in plan order. */
  function Elements(plan: seq<PlanEntry>, analog: set<nat>, turntables: bool): seq<PadElement> {
    if plan == [] then []
    else
      var order := Elements(plan[..|plan| - 1], analog, turntables);
      var e := plan[|plan| - 1].element;
      if e !in order && IsTurntable(e, analog) == turntables then order + [e] else order
  }

  function Keys(setup: Setup): seq<PadElement> {
    Elements(setup.plan, setup.analog, false)
  }

  function Turntables(setup: Setup): seq<PadElement> {
    Elements(setup.plan, setup.analog, true)
  }

  /** The event a target makes when its element changes; a control and a shortcut fire on the press. */
  function EventOf(target: PadTarget, pressed: bool): Option<PadEvent> {
    match target
    case Lane(lane, dir) => Some(LaneEvent(lane, dir, pressed))
    case Control(action) => if pressed then Some(ControlEvent(action)) else None
    case Shortcut(shortcut) => if pressed then Some(ShortcutEvent(shortcut)) else None
  }

  function EntryEvents(entry: PlanEntry, fired: map<PadElement, bool>): seq<PadEvent> {
    if entry.element !in fired then []
    else
      match EventOf(entry.target, fired[entry.element])
      case Some(event) => [event]
      case None => []
  }

  /** The events of the elements that changed, in plan order. */
  function Events(plan: seq<PlanEntry>, fired: map<PadElement, bool>): seq<PadEvent> {
    if plan == [] then []
    else Events(plan[..|plan| - 1], fired) + EntryEvents(plan[|plan| - 1], fired)
  }

  datatype Timed = Timed(event: PadEvent, at: Micros)

  function Stamped(events: seq<PadEvent>, at: Micros): seq<Timed> {
    seq(|events|, i requires 0 <= i < |events| => Timed(events[i], at))
  }

  /** A change of one element handed over. */
  datatype Handing = Handing(element: PadElement, pressed: bool, at: Micros)

  /** What a part of a poll does: the gates after it, its events and the changes they come from. */
  datatype Played = Played(gates: Gates, events: seq<Timed>, handings: seq<Handing>)

  // ---------- Releases whose window has ended ----------

  function OpenedOf(gates: Gates, e: PadElement, until: Micros, window: nat): seq<Keyed<Handing>> {
    match GateOf(gates, e).ReleaseOpenedBy(until, window)
    case Some(opens) => [Keyed(opens, Handing(e, false, opens))]
    case None => []
  }

  function OpenedIn(gates: Gates, order: seq<PadElement>, until: Micros, window: nat): seq<Keyed<Handing>> {
    if order == [] then []
    else OpenedIn(gates, order[..|order| - 1], until, window) + OpenedOf(gates, order[|order| - 1], until, window)
  }

  /** One part of a poll after another. */
  function Then(first: Played, second: Played): Played {
    Played(second.gates, first.events + second.events, first.handings + second.handings)
  }

  function HandOne(gates: Gates, plan: seq<PlanEntry>, h: Handing): Played {
    Played(gates[h.element := GateOf(gates, h.element).HandOver(false, h.at).0],
           Stamped(Events(plan, map[h.element := false]), h.at),
           [h])
  }

  /** Hand the opened releases over one after another. */
  function HandAll(gates: Gates, plan: seq<PlanEntry>, releases: seq<Keyed<Handing>>): Played {
    if releases == [] then Played(gates, [], [])
    else
      var before := HandAll(gates, plan, releases[..|releases| - 1]);
      Then(before, HandOne(before.gates, plan, releases[|releases| - 1].item))
  }

  function TakeOpened(setup: Setup, gates: Gates, until: Micros): Played {
    HandAll(gates, setup.plan, SortByKey(OpenedIn(gates, Keys(setup), until, setup.window)))
  }

  // ---------- Elements asked at one instant ----------

  /** What one element answers when it is asked: its gate after it, the way it reads, and whether
      that is handed over. */
  datatype Answer = Answer(gate: Gate, pressed: bool, fired: bool)

  function FiredOf(e: PadElement, answers: map<PadElement, Answer>, at: Micros): seq<Handing> {
    if e in answers && answers[e].fired then [Handing(e, answers[e].pressed, at)] else []
  }

  function FiredIn(order: seq<PadElement>, answers: map<PadElement, Answer>, at: Micros): seq<Handing> {
    if order == [] then []
    else FiredIn(order[..|order| - 1], answers, at) + FiredOf(order[|order| - 1], answers, at)
  }

  function Fired(answers: map<PadElement, Answer>): map<PadElement, bool> {
    map e | e in answers && answers[e].fired :: answers[e].pressed
  }

  function Asked(
    gates: Gates, plan: seq<PlanEntry>, order: seq<PadElement>, answers: map<PadElement, Answer>, at: Micros): Played {
    Played(gates + (map e | e in answers :: answers[e].gate),
           Stamped(Events(plan, Fired(answers)), at),
           FiredIn(order, answers, at))
  }

  function KeyAnswer(setup: Setup, gates: Gates, snapshot: Snapshot, e: PadElement, at: Micros): Answer {
    var pressed := snapshot.Reads(e, setup.deadzone);
    var (gate, fired) := GateOf(gates, e).Offer(pressed, at, setup.window);
    Answer(gate, pressed, fired)
  }

  function KeyAnswers(setup: Setup, gates: Gates, snapshot: Snapshot, at: Micros): map<PadElement, Answer> {
    map e | e in Keys(setup) :: KeyAnswer(setup, gates, snapshot, e, at)
  }

  function ReadKeys(setup: Setup, gates: Gates, snapshot: Snapshot, at: Micros): Played {
    Asked(gates, setup.plan, Keys(setup), KeyAnswers(setup, gates, snapshot, at), at)
  }

  /** A turntable direction is deaf for the window after its last accepted change. */
  predicate Deaf(gate: Gate, at: Micros, window: nat) {
    gate.LastHandedAt().Some? && at < After(gate.LastHandedAt().value, window)
  }

  /** The turntables' own state machines are not modelled: `spun` is what each direction would read. */
  function SpinAnswers(setup: Setup, gates: Gates, spun: set<PadElement>, at: Micros): map<PadElement, Answer> {
    map e | e in Turntables(setup) && !Deaf(GateOf(gates, e), at, setup.window) ::
      var (gate, fired) := GateOf(gates, e).HandOver(e in spun, at);
      Answer(gate, e in spun, fired)
  }

  function ReadTurntables(setup: Setup, gates: Gates, spun: set<PadElement>, at: Micros): Played {
    Asked(gates, setup.plan, Turntables(setup), SpinAnswers(setup, gates, spun, at), at)
  }

  // ---------- What is held ----------

  function PressOf(target: PadTarget): PadEvent {
    match target
    case Lane(lane, dir) => LaneEvent(lane, dir, true)
    case Control(action) => ControlEvent(action)
    case Shortcut(shortcut) => ShortcutEvent(shortcut)
  }

  /** Everything the controller holds down, each once, in plan order. */
  function Held(plan: seq<PlanEntry>, gates: Gates): seq<PadEvent> {
    if plan == [] then []
    else
      var held := Held(plan[..|plan| - 1], gates);
      var entry := plan[|plan| - 1];
      if GateOf(gates, entry.element).handed && PressOf(entry.target) !in held then held + [PressOf(entry.target)]
      else held
  }

  // ---------- A run ----------

  datatype Pad = Pad(gates: Gates, snapshot: Snapshot)

  /** The parts of a poll in the order they are taken: each raw change, then the releases opened by
      the poll's instant, then the turntables. */
  datatype Step =
    | Change(at: Micros, change: PadChange)
    | Open(at: Micros)
    | Spin(at: Micros, spun: set<PadElement>)

  datatype Ran = Ran(pad: Pad, events: seq<Timed>, handings: seq<Handing>)

  function Took(setup: Setup, pad: Pad, step: Step): Ran {
    match step
    case Open(at) =>
      var releases := TakeOpened(setup, pad.gates, at);
      Ran(Pad(releases.gates, pad.snapshot), releases.events, releases.handings)
    case Change(at, change) =>
      var releases := TakeOpened(setup, pad.gates, at);
      var snapshot := pad.snapshot.Apply(change);
      var read := ReadKeys(setup, releases.gates, snapshot, at);
      Ran(Pad(read.gates, snapshot), releases.events + read.events, releases.handings + read.handings)
    case Spin(at, spun) =>
      var read := ReadTurntables(setup, pad.gates, spun, at);
      Ran(Pad(read.gates, pad.snapshot), read.events, read.handings)
  }

  /** One stretch of a run after another. */
  function Joined(first: Ran, second: Ran): Ran {
    Ran(second.pad, first.events + second.events, first.handings + second.handings)
  }

  function Run(setup: Setup, pad: Pad, steps: seq<Step>): Ran {
    if steps == [] then Ran(pad, [], [])
    else
      var before := Run(setup, pad, steps[..|steps| - 1]);
      Joined(before, Took(setup, before.pad, steps[|steps| - 1]))
  }

  datatype Report = Report(at: Micros, change: PadChange)

  datatype Poll = Poll(changes: seq<Report>, now: Micros, spun: set<PadElement>)

  function ChangeSteps(changes: seq<Report>): seq<Step> {
    seq(|changes|, i requires 0 <= i < |changes| => Change(changes[i].at, changes[i].change))
  }

  function PollSteps(poll: Poll): seq<Step> {
    ChangeSteps(poll.changes) + [Open(poll.now), Spin(poll.now, poll.spun)]
  }

  function AllSteps(polls: seq<Poll>): seq<Step> {
    if polls == [] then [] else AllSteps(polls[..|polls| - 1]) + PollSteps(polls[|polls| - 1])
  }

  lemma JoinedThrice(a: Ran, b: Ran, c: Ran)
    ensures Joined(Joined(a, b), c) == Joined(a, Joined(b, c))
  {}

  lemma {:induction false} RunInTwo(setup: Setup, pad: Pad, a: seq<Step>, b: seq<Step>)
    ensures var first := Run(setup, pad, a);
            Run(setup, pad, a + b) == Joined(first, Run(setup, first.pad, b))
  {
    hide Took;
    var first := Run(setup, pad, a);
    if b == [] {
      assert a + b == a;
    } else {
      var init, last := b[..|b| - 1], b[|b| - 1];
      assert (a + b)[..|a + b| - 1] == a + init;
      RunInTwo(setup, pad, a, init);
      var second := Run(setup, first.pad, init);
      JoinedThrice(first, second, Took(setup, second.pad, last));
    }
  }

  // ---------- The elements of a plan ----------

  ghost predicate InPlan(plan: seq<PlanEntry>, e: PadElement) {
    exists i :: 0 <= i < |plan| && plan[i].element == e
  }

  ghost predicate Distinct(order: seq<PadElement>) {
    forall i, j :: 0 <= i < j < |order| ==> order[i] != order[j]
  }

  lemma InPlanOfLonger(plan: seq<PlanEntry>, e: PadElement)
    requires plan != []
    ensures InPlan(plan, e) <==> InPlan(plan[..|plan| - 1], e) || plan[|plan| - 1].element == e
  {
    if InPlan(plan[..|plan| - 1], e) {
      var i :| 0 <= i < |plan| - 1 && plan[..|plan| - 1][i].element == e;
      assert plan[i].element == e;
    }
    if InPlan(plan, e) && plan[|plan| - 1].element != e {
      var i :| 0 <= i < |plan| && plan[i].element == e;
      assert plan[..|plan| - 1][i].element == e;
    }
  }

  lemma {:induction false} ElementsAreThePlans(plan: seq<PlanEntry>, analog: set<nat>, turntables: bool)
    ensures Distinct(Elements(plan, analog, turntables))
    ensures forall e ::
              e in Elements(plan, analog, turntables) <==> InPlan(plan, e) && IsTurntable(e, analog) == turntables
  {
    if plan != [] {
      ElementsAreThePlans(plan[..|plan| - 1], analog, turntables);
      forall e ensures InPlan(plan, e) <==> InPlan(plan[..|plan| - 1], e) || plan[|plan| - 1].element == e {
        InPlanOfLonger(plan, e);
      }
    }
  }
}
