/** How fast an upload run sends, and what it does while the server asks it to wait. */
module UploadRate {
  import opened Common
  import opened Counting
  import opened UploadGate
  import opened UploadRun
  import opened UploadBound

  // ---------- Slots ----------

  /** The slot a worker has reserved and not used yet, or -1. */
  function SlotOf(phase: Phase): int {
    if phase.Slotted? || phase.Passed? then phase.slot else -1
  }

  ghost predicate Spaced(slots: seq<int>) {
    forall i :: 0 <= i < |slots| - 1 ==> slots[i] + INTERVAL <= slots[i + 1]
  }

  ghost predicate Usable(phase: Phase, slots: seq<int>, starts: map<nat, int>, now: int) {
    SlotOf(phase) >= 0 ==>
      SlotOf(phase) < |slots| && SlotOf(phase) !in starts && (phase.Passed? ==> slots[SlotOf(phase)] <= now)
  }

  ghost predicate Apart(phases: seq<Phase>) {
    forall u, v :: 0 <= u < v < |phases| ==> SlotOf(phases[u]) < 0 || SlotOf(phases[u]) != SlotOf(phases[v])
  }

  ghost predicate StartsFit(slots: seq<int>, starts: map<nat, int>, now: int) {
    forall j: nat :: j in starts ==> j < |slots| && slots[j] <= starts[j] <= now
  }

  /** Slots are an interval apart, each is used by one request at most, and none early. */
  ghost predicate SlotsFit(run: Run) {
    && Shaped(run)
    && Spaced(run.slots)
    && run.gate.nextSlotAt == (if run.slots == [] then 0 else run.slots[|run.slots| - 1] + INTERVAL)
    && StartsFit(run.slots, run.starts, run.now)
    && |run.starts| == Total(run.tallies, SentOff)
    && Apart(run.phases)
    && (forall v :: 0 <= v < |run.phases| ==> Usable(run.phases[v], run.slots, run.starts, run.now))
  }

  /** A worker that moves on without reserving or sending. */
  lemma MoveFits(run: Run, w: nat, phase: Phase, tally: Tally)
    requires SlotsFit(run) && w < |run.phases|
    requires SlotOf(phase) == -1 || SlotOf(phase) == SlotOf(run.phases[w])
    requires Usable(phase, run.slots, run.starts, run.now)
    requires tally.sent == run.tallies[w].sent
    ensures SlotsFit(Counted(Moved(run, w, phase), w, tally))
  {
    hide Total, Spaced, Usable, StartsFit;
    TotalOfUpdate(run.tallies, w, tally, SentOff);
  }

  lemma MoveAloneFits(run: Run, w: nat, phase: Phase)
    requires SlotsFit(run) && w < |run.phases|
    requires SlotOf(phase) == -1 || SlotOf(phase) == SlotOf(run.phases[w])
    requires Usable(phase, run.slots, run.starts, run.now)
    ensures SlotsFit(Moved(run, w, phase))
  {
    hide Total, Spaced, Usable, StartsFit, Apart;
    assert run.tallies[w := run.tallies[w]] == run.tallies;
    MoveFits(run, w, phase, run.tallies[w]);
  }

  lemma SlotsFitOf(run: Run, ms: nat, gate: Gate, queue: seq<File>, results: seq<FileResult>, pauses: seq<Pause>)
    requires SlotsFit(run) && gate.nextSlotAt == run.gate.nextSlotAt
    ensures SlotsFit(run.(now := run.now + ms, gate := gate, queue := queue, results := results, pauses := pauses))
  {
    hide Total, Spaced, StartsFit, Apart, SlotOf;
    StartsLater(run.slots, run.starts, run.now, run.now + ms);
  }

  lemma StartsLater(slots: seq<int>, starts: map<nat, int>, now: int, later: int)
    requires StartsFit(slots, starts, now) && now <= later
    ensures StartsFit(slots, starts, later)
  {
    forall j: nat | j in starts ensures j < |slots| && slots[j] <= starts[j] <= later {
      assert starts[j] <= now;
    }
  }

  lemma ReserveFits(run: Run, w: nat)
    requires SlotsFit(run) && w < |run.phases| && run.phases[w].Held?
    ensures SlotsFit(Reserved(run, w))
  {
    hide Total, StartsFit;
    var slot := run.gate.NextSlot(run.now);
    SlotIsFree(run.slots, slot, run.starts, run.now);
    forall v | 0 <= v < |run.phases| && v != w ensures Usable(run.phases[v], run.slots + [slot], run.starts, run.now) {
      assert Usable(run.phases[v], run.slots, run.starts, run.now);
    }
  }

  lemma SlotIsFree(slots: seq<int>, slot: int, starts: map<nat, int>, now: int)
    requires StartsFit(slots, starts, now)
    ensures |slots| !in starts
    ensures StartsFit(slots + [slot], starts, now)
  {
    if |slots| in starts {
      assert false;
    }
    forall j: nat | j in starts ensures j < |slots + [slot]| && (slots + [slot])[j] <= starts[j] <= now {
      assert slots[j] <= starts[j] <= now;
    }
  }

  lemma SendFits(run: Run, w: nat)
    requires SlotsFit(run) && w < |run.phases| && run.phases[w].Passed?
    ensures SlotsFit(Sent(run, w))
  {
    hide Total, Spaced, StartsFit;
    var slot := run.phases[w].slot;
    assert Usable(run.phases[w], run.slots, run.starts, run.now);
    TotalOfUpdate(run.tallies, w, run.tallies[w].(sent := run.tallies[w].sent + 1), SentOff);
    StartAdded(run.slots, slot, run.starts, run.now);
    forall v | 0 <= v < |run.phases| && v != w
      ensures Usable(run.phases[v], run.slots, run.starts[slot := run.now], run.now)
    {
      assert Usable(run.phases[v], run.slots, run.starts, run.now);
    }
  }

  lemma StartAdded(slots: seq<int>, slot: nat, starts: map<nat, int>, now: int)
    requires StartsFit(slots, starts, now) && slot < |slots| && slots[slot] <= now && slot !in starts
    ensures StartsFit(slots, starts[slot := now], now)
    ensures |starts[slot := now]| == |starts| + 1
  {
    var after := starts[slot := now];
    assert after.Keys == starts.Keys + {slot};
    forall j: nat | j in after ensures j < |slots| && slots[j] <= after[j] <= now {
      if j != slot {
        assert j in starts;
      }
    }
  }

  lemma ReceiveFits(run: Run, w: nat, answer: Answer)
    requires SlotsFit(run) && w < |run.phases| && run.phases[w].InFlight?
    ensures SlotsFit(Received(run, w, answer))
  {
    hide SlotsFit, PauseFor;
    assert Shaped(run) by { SlotsShape(run); }
    var after := Received(run, w, answer);
    if after.tallies == run.tallies {
      MoveAloneFits(run, w, after.phases[w]);
      SlotsFitOf(Moved(run, w, after.phases[w]), 0, after.gate, run.queue, run.results, after.pauses);
    } else {
      MoveFits(run, w, after.phases[w], after.tallies[w]);
      SlotsFitOf(Counted(Moved(run, w, after.phases[w]), w, after.tallies[w]), 0, after.gate, run.queue, run.results,
        after.pauses);
    }
  }

  lemma SlotsShape(run: Run)
    requires SlotsFit(run)
    ensures Shaped(run)
  {
    hide Total, Spaced, Apart, Usable;
  }

  lemma TakeFits(run: Run, w: nat)
    requires Shaped(run) && SlotsFit(run) && Enabled(run, Take(w))
    ensures SlotsFit(Took(run, w))
  {
    hide SlotsFit, IsStopped;
    if IsStopped(run.results) || run.queue == [] {
      MoveAloneFits(run, w, Ended);
    } else {
      var tally := run.tallies[w].(taken := run.tallies[w].taken + 1);
      MoveFits(run, w, Reading(run.queue[0]), tally);
      SlotsFitOf(Counted(Moved(run, w, Reading(run.queue[0])), w, tally), 0, run.gate, run.queue[1..], run.results,
        run.pauses);
    }
  }

  lemma FinishFits(run: Run, w: nat, kind: Kind)
    requires SlotsFit(run) && w < |run.phases| && (run.phases[w].Reading? || run.phases[w].Answered?)
    ensures SlotsFit(Finished(run, w, kind))
  {
    hide SlotsFit;
    MoveAloneFits(run, w, Idle);
    SlotsFitOf(Moved(run, w, Idle), 0, run.gate, run.queue, run.results + [FileResult(run.phases[w].file, kind)],
               run.pauses);
  }

  lemma TryFits(run: Run, w: nat)
    requires Shaped(run) && SlotsFit(run) && Enabled(run, TryGate(w))
    ensures SlotsFit(Tried(run, w))
  {
    hide Total, Spaced, StartsFit, Apart;
    assert Usable(run.phases[w], run.slots, run.starts, run.now);
    MoveAloneFits(run, w, Tried(run, w).phases[w]);
  }

  lemma CheckFits(run: Run, w: nat, found: Local)
    requires Shaped(run) && SlotsFit(run) && Enabled(run, CheckText(w, found))
    ensures SlotsFit(TextChecked(run, w, found))
  {
    hide SlotsFit;
    match found
    case Unfit => FinishFits(run, w, Failed(None));
    case DryRun => FinishFits(run, w, Checked);
    case Fit => MoveAloneFits(run, w, AtGate(run.phases[w].file));
  }

  lemma StepFits(run: Run, step: Step)
    requires Shaped(run) && SlotsFit(run) && Enabled(run, step)
    ensures SlotsFit(After(run, step))
  {
    hide SlotsFit;
    match step
    case Tick(ms) => SlotsFitOf(run, ms, run.gate, run.queue, run.results, run.pauses);
    case Take(w) => TakeFits(run, w);
    case CheckText(w, found) => CheckFits(run, w, found);
    case SleepOut(w) => MoveAloneFits(run, w, Phase.Held(run.phases[w].file, run.gate.pausedUntil));
    case ReserveSlot(w) => ReserveFits(run, w);
    case TryGate(w) => TryFits(run, w);
    case Send(w) => SendFits(run, w);
    case Receive(w, answer) => ReceiveFits(run, w, answer);
    case Report(w, parsed) => FinishFits(run, w, Verdict(run.phases[w].status, parsed));
  }

  lemma {:induction false} NothingSent(workers: nat)
    ensures Total(seq(workers, _ => Tally(0, 0, 0, 0)), SentOff) == 0
  {
    if workers > 0 {
      NothingSent(workers - 1);
      assert seq(workers, _ => Tally(0, 0, 0, 0))[..workers - 1] == seq(workers - 1, _ => Tally(0, 0, 0, 0));
    }
  }

  lemma StartFits(files: seq<File>, workers: nat, now: nat)
    ensures SlotsFit(Start(files, workers, now))
  {
    hide Total;
    NothingSent(workers);
  }

  lemma {:induction false} RunFits(files: seq<File>, workers: nat, now: nat, steps: seq<Step>)
    ensures var last := Ran(Start(files, workers, now), steps);
            last.Some? ==> SlotsFit(last.value)
  {
    hide SlotsFit, Enabled, After;
    if steps == [] {
      StartFits(files, workers, now);
    } else {
      RunFits(files, workers, now, steps[..|steps| - 1]);
      var before := Ran(Start(files, workers, now), steps[..|steps| - 1]);
      if before.Some? && Enabled(before.value, steps[|steps| - 1]) {
        StepFits(before.value, steps[|steps| - 1]);
      }
    }
  }

  // ---------- How many requests a stretch of time holds ----------

  /** The requests sent in the `length` milliseconds from `begin`. */
  function SentIn(starts: map<nat, int>, begin: int, length: nat): set<nat> {
    set j | j in starts && begin <= starts[j] < begin + length
  }

  lemma {:induction false} SpacedApart(slots: seq<int>, i: nat, j: nat)
    requires Spaced(slots) && i <= j < |slots|
    ensures slots[i] + (j - i) * INTERVAL <= slots[j]
  {
    if i < j {
      SpacedApart(slots, i, j - 1);
    }
  }

  lemma Extremes(s: set<nat>) returns (low: nat, high: nat)
    requires s != {}
    ensures low in s && high in s && forall j :: j in s ==> low <= j <= high
    decreases |s|
  {
    var x :| x in s;
    if s == {x} {
      low, high := x, x;
    } else {
      assert s - {x} != {};
      low, high := Extremes(s - {x});
      low := if x < low then x else low;
      high := if x > high then x else high;
      assert s == (s - {x}) + {x};
    }
  }

  /** If sleeps run over by at most `over`, no stretch of time holds more requests than fit in it and
      the overrun at one per interval, rounded up. */
  lemma RateIsKept(files: seq<File>, workers: nat, now: nat, steps: seq<Step>, begin: int, length: nat, over: nat)
    requires Ran(Start(files, workers, now), steps).Some?
    requires var last := Ran(Start(files, workers, now), steps).value;
             forall j :: j in last.starts && j < |last.slots| ==> last.starts[j] <= last.slots[j] + over
    ensures var last := Ran(Start(files, workers, now), steps).value;
            (|SentIn(last.starts, begin, length)| - 1) * INTERVAL < length + over
  {
    hide Ran, Spaced, Total, Apart, Usable;
    RunFits(files, workers, now, steps);
    var last := Ran(Start(files, workers, now), steps).value;
    var sent := SentIn(last.starts, begin, length);
    if sent != {} {
      var low, high := Extremes(sent);
      SpacedApart(last.slots, low, high);
      CountBetween(sent, low, high);
      Multiples(|sent| - 1, high - low);
    }
  }

  lemma Multiples(a: int, b: int)
    requires a <= b
    ensures a * INTERVAL <= b * INTERVAL
  {}

  /** The server's limit for a minute holds in every minute as long as no sleep runs over by more than
      seven seconds. */
  lemma ServerLimitIsKept(files: seq<File>, workers: nat, now: nat, steps: seq<Step>, begin: int)
    requires Ran(Start(files, workers, now), steps).Some?
    requires var last := Ran(Start(files, workers, now), steps).value;
             forall j :: j in last.starts && j < |last.slots| ==> last.starts[j] <= last.slots[j] + 7200
    ensures |SentIn(Ran(Start(files, workers, now), steps).value.starts, begin, WINDOW)| <= LIMIT
  {
    hide Ran, SentIn;
    RateIsKept(files, workers, now, steps, begin, WINDOW, 7200);
  }

  // ---------- Pauses ----------

  /** A worker passes the gate exactly when no pause that has begun is still in force. */
  lemma PassesOutsidePauses(files: seq<File>, workers: nat, now: nat, steps: seq<Step>, w: nat)
    requires Ran(Start(files, workers, now), steps).Some?
    requires Enabled(Ran(Start(files, workers, now), steps).value, TryGate(w))
    ensures var run := Ran(Start(files, workers, now), steps).value;
            After(run, TryGate(w)).phases[w].Passed?
            <==> forall j :: 0 <= j < |run.pauses| ==> run.pauses[j].until <= run.now
  {
    hide Ran, Total, Stands, Accounted;
    RunKeeps(files, workers, now, steps);
  }

  /** No step moves the end of the pause back. */
  lemma PauseEndStands(files: seq<File>, workers: nat, now: nat, steps: seq<Step>, step: Step)
    requires Ran(Start(files, workers, now), steps).Some?
    requires Enabled(Ran(Start(files, workers, now), steps).value, step)
    ensures var run := Ran(Start(files, workers, now), steps).value;
            run.gate.pausedUntil <= After(run, step).gate.pausedUntil
  {
    hide Ran, Total, Accounted, PausesPaidFor, PausesFit, IsStopped;
    RunKeeps(files, workers, now, steps);
    var run := Ran(Start(files, workers, now), steps).value;
    if step.Receive? {
      assert Stands(run.now, run.pauses, run.phases[step.w]);
    }
  }

  /** A 429 joins a pause exactly when a pause has begun since its request was sent, or began between
      the gate and the sending and was still in force when the request was sent. */
  lemma JoinsExactly(files: seq<File>, workers: nat, now: nat, steps: seq<Step>, w: nat)
    requires Ran(Start(files, workers, now), steps).Some?
    requires var run := Ran(Start(files, workers, now), steps).value;
             w < |run.phases| && run.phases[w].InFlight?
    ensures var run := Ran(Start(files, workers, now), steps).value;
            var phase := run.phases[w];
            && phase.pauses <= phase.pausesSent <= |run.pauses|
            && (run.gate.Joins(phase.sentAt)
                <==> phase.pausesSent < |run.pauses|
                     || (phase.pauses < phase.pausesSent && run.pauses[phase.pausesSent - 1].until > phase.sentAt))
  {
    hide Ran, Total, Accounted, PausesPaidFor;
    RunKeeps(files, workers, now, steps);
    var run := Ran(Start(files, workers, now), steps).value;
    assert Stands(run.now, run.pauses, run.phases[w]);
  }
}
