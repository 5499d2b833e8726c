/** LR2's debounce of one key or button (input_debounce.rs), on the controller's clock in
    microseconds. */
module InputDebounce {
  import opened Common

  /** An instant of a 64-bit clock. */
  type Micros = t: int | -0x8000_0000_0000_0000 <= t <= 0x7FFF_FFFF_FFFF_FFFF witness 0

  const CLOCK_END: Micros := 0x7FFF_FFFF_FFFF_FFFF

  /** The shortest time between two of LR2's reads of its keys. */
  const LR2_POLL_GAP: nat := 2000

  /** The instant `span` after `at`; the clock does not wrap at its end. */
  function After(at: Micros, span: nat): (later: Micros)
    ensures at <= later
  {
    if at + span > CLOCK_END then CLOCK_END else at + span
  }

  /** How soon after a release a press is still the switch bouncing. */
  function Gap(window: nat): nat {
    if window < LR2_POLL_GAP then window else LR2_POLL_GAP
  }

  /** One key's state. `Lr2Debounce` is a plain copied record in the program, and this is its value. */
  datatype Gate = Gate(handed: bool, pressedAt: Option<Micros>, releasedAt: Option<Micros>, reported: bool) {

    /** Whether a press at `at` is the bounce of the release before it. */
    predicate Bounces(at: Micros, window: nat) {
      releasedAt.Some? && at < After(releasedAt.value, Gap(window))
    }

    /** Whether a release at `at` has to wait for its press's window to end. */
    predicate KeptOut(at: Micros, window: nat) {
      pressedAt.Some? && at < After(pressedAt.value, window)
    }

    /** The gate after a report, and whether the report is handed over. */
    function Offer(pressed: bool, at: Micros, window: nat): (Gate, bool) {
      if pressed == reported then (this, false)
      else if pressed && (handed || Bounces(at, window)) then (this.(reported := true), false)
      else if pressed then (Gate(true, Some(at), releasedAt, true), true)
      else if !handed then (this.(releasedAt := Some(at), reported := false), false)
      else if KeptOut(at, window) then (this.(reported := false), false)
      else (Gate(false, pressedAt, Some(at), false), true)
    }

    /** Whether a release waits for its window to end. */
    predicate Waiting() {
      handed && !reported && pressedAt.Some?
    }

    function ReleaseOpenedBy(until: Micros, window: nat): Option<Micros> {
      if !Waiting() || After(pressedAt.value, window) > until then None
      else Some(After(pressedAt.value, window))
    }

    function HandOver(pressed: bool, at: Micros): (Gate, bool) {
      if pressed == handed then (this.(reported := pressed), false)
      else if pressed then (Gate(true, Some(at), releasedAt, true), true)
      else (Gate(false, pressedAt, Some(at), false), true)
    }

    function LastHandedAt(): Option<Micros> {
      if handed then pressedAt else releasedAt
    }
  }

  const FRESH := Gate(false, None, None, false)

  // ---------- The gate as the program keeps it ----------

  class Lr2Debounce {
    var handed: bool
    var pressedAt: Option<Micros>
    var releasedAt: Option<Micros>
    var reported: bool

    function State(): Gate
      reads this
    {
      Gate(handed, pressedAt, releasedAt, reported)
    }

    /** A copy of a gate, which is how one is taken out of a table and put back. */
    constructor (g: Gate)
      ensures State() == g
    {
      handed, pressedAt, releasedAt, reported := g.handed, g.pressedAt, g.releasedAt, g.reported;
    }

    method Offer(pressed: bool, at: Micros, window: nat) returns (fired: bool)
      modifies this
      ensures (State(), fired) == old(State()).Offer(pressed, at, window)
    {
      if pressed == reported {
        return false;
      }
      reported := pressed;
      if pressed && handed {
        fired := false;
      } else if pressed {
        if releasedAt.Some? && at < After(releasedAt.value, Gap(window)) {
          return false;
        }
        handed := true;
        pressedAt := Some(at);
        fired := true;
      } else if !handed {
        releasedAt := Some(at);
        fired := false;
      } else {
        if pressedAt.Some? && at < After(pressedAt.value, window) {
          return false;
        }
        handed := false;
        releasedAt := Some(at);
        fired := true;
      }
    }

    method ReleaseOpenedBy(until: Micros, window: nat) returns (opens: Option<Micros>)
      ensures opens == State().ReleaseOpenedBy(until, window)
    {
      if !handed || reported {
        return None;
      }
      match pressedAt
      case None => opens := None;
      case Some(p) =>
        opens := if After(p, window) <= until then Some(After(p, window)) else None;
    }

    method HandOver(pressed: bool, at: Micros) returns (changed: bool)
      modifies this
      ensures (State(), changed) == old(State()).HandOver(pressed, at)
    {
      reported := pressed;
      if pressed == handed {
        return false;
      }
      handed := pressed;
      if pressed {
        pressedAt := Some(at);
      } else {
        releasedAt := Some(at);
      }
      changed := true;
    }

    method LastHandedAt() returns (at: Option<Micros>)
      ensures at == State().LastHandedAt()
    {
      at := if handed then pressedAt else releasedAt;
    }
  }

  // ---------- What a gate hands over ----------

  /** A change handed over: the way it went and its instant. */
  datatype Handed = Handed(pressed: bool, at: Micros)

  /** The changes alternate, a press first. */
  ghost predicate Alternates(log: seq<Handed>) {
    forall i :: 0 <= i < |log| ==> log[i].pressed == (i % 2 == 0)
  }

  /** Every release is at least the window after its press, and no press is within the bounce gap
      of the release before it. */
  ghost predicate Spaced(log: seq<Handed>, window: nat) {
    forall i :: 0 < i < |log| ==>
      log[i].at >= After(log[i - 1].at, if log[i].pressed then Gap(window) else window)
  }

  /** How the gate stands to the changes it has handed over. */
  ghost predicate Stands(g: Gate, log: seq<Handed>) {
    && g.handed == (|log| % 2 == 1)
    && (g.handed ==> g.pressedAt == Some(log[|log| - 1].at))
    && (!g.handed && log != [] ==> g.releasedAt.Some? && g.releasedAt.value >= log[|log| - 1].at)
  }

  ghost predicate Keeps(g: Gate, log: seq<Handed>, window: nat) {
    Alternates(log) && Spaced(log, window) && Stands(g, log)
  }

  function Logged(log: seq<Handed>, fired: bool, pressed: bool, at: Micros): seq<Handed> {
    if fired then log + [Handed(pressed, at)] else log
  }

  lemma OfferKeeps(g: Gate, log: seq<Handed>, pressed: bool, at: Micros, window: nat)
    requires Keeps(g, log, window)
    requires log != [] ==> log[|log| - 1].at <= at
    ensures var (g', fired) := g.Offer(pressed, at, window);
            Keeps(g', Logged(log, fired, pressed, at), window)
  {}

  lemma OpenedReleaseKeeps(g: Gate, log: seq<Handed>, until: Micros, window: nat)
    requires Keeps(g, log, window) && g.ReleaseOpenedBy(until, window).Some?
    ensures var opens := g.ReleaseOpenedBy(until, window).value;
            && g.HandOver(false, opens).1
            && log != [] && opens == After(log[|log| - 1].at, window)
            && Keeps(g.HandOver(false, opens).0, log + [Handed(false, opens)], window)
  {}

  // ---------- Whatever the instants of the reports ----------

  /** Every release is at least the window after its press. */
  ghost predicate ReleasesWait(log: seq<Handed>, window: nat) {
    forall i :: 0 < i < |log| && !log[i].pressed ==> log[i].at >= After(log[i - 1].at, window)
  }

  /** How the gate of a key stands to its changes in any run. */
  ghost predicate KeyHolds(g: Gate, log: seq<Handed>, window: nat) {
    && Alternates(log) && ReleasesWait(log, window)
    && g.handed == (|log| % 2 == 1)
    && (g.handed ==> g.pressedAt == Some(log[|log| - 1].at))
  }

  /** A report hands a change over exactly when it is a change of the reported state that is also one of
      the state handed over and no window keeps it out. */
  predicate Fires(g: Gate, pressed: bool, at: Micros, window: nat) {
    && pressed != g.reported
    && (if pressed then !g.handed && !g.Bounces(at, window) else g.handed && !g.KeptOut(at, window))
  }

  lemma OfferFires(g: Gate, pressed: bool, at: Micros, window: nat)
    ensures g.Offer(pressed, at, window).1 <==> Fires(g, pressed, at, window)
    ensures g.Offer(pressed, at, window).0.reported == pressed
    ensures g.ReleaseOpenedBy(at, window).None? ==> g.Offer(pressed, at, window).0.ReleaseOpenedBy(at, window).None?
  {}

  lemma OfferHolds(g: Gate, log: seq<Handed>, pressed: bool, at: Micros, window: nat)
    requires KeyHolds(g, log, window)
    ensures var (g', fired) := g.Offer(pressed, at, window);
            KeyHolds(g', Logged(log, fired, pressed, at), window)
  {}

  lemma OpenedReleaseHolds(g: Gate, log: seq<Handed>, until: Micros, window: nat)
    requires KeyHolds(g, log, window) && g.ReleaseOpenedBy(until, window).Some?
    ensures var opens := g.ReleaseOpenedBy(until, window).value;
            KeyHolds(g.HandOver(false, opens).0, log + [Handed(false, opens)], window)
  {}

  /** How the gate of a turntable direction stands to its changes: every one is at least the window after
      the one before. */
  ghost predicate TurnHolds(g: Gate, log: seq<Handed>, window: nat) {
    && Alternates(log)
    && (forall i :: 0 < i < |log| ==> log[i].at >= After(log[i - 1].at, window))
    && g.handed == g.reported == (|log| % 2 == 1)
    && g.LastHandedAt() == (if log == [] then None else Some(log[|log| - 1].at))
  }

  /** `LastHandedAt` is the instant of the last change handed over, so a direction read only once the
      window has passed since then keeps its changes the window apart. */
  lemma HandOverHolds(g: Gate, log: seq<Handed>, pressed: bool, at: Micros, window: nat)
    requires TurnHolds(g, log, window)
    requires g.LastHandedAt().Some? ==> at >= After(g.LastHandedAt().value, window)
    ensures var (g', fired) := g.HandOver(pressed, at);
            TurnHolds(g', Logged(log, fired, pressed, at), window)
  {}
}
