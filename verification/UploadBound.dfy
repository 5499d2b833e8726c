/** How many requests an upload run makes, and when a 429 joins a pause. */
module UploadBound {
  import opened Common
  import opened UploadGate
  import opened UploadRun

  // ---------- Totals over the workers ----------

  datatype Count = Taken | SentOff | Retried | Got

  function Of(tally: Tally, count: Count): nat {
    match count
    case Taken => tally.taken
    case SentOff => tally.sent
    case Retried => tally.retried
    case Got => tally.got
  }

  function Total(tallies: seq<Tally>, count: Count): nat {
    if tallies == [] then 0 else Total(tallies[..|tallies| - 1], count) + Of(tallies[|tallies| - 1], count)
  }

  lemma {:induction false} TotalOfUpdate(tallies: seq<Tally>, w: nat, tally: Tally, count: Count)
    requires w < |tallies|
    ensures Total(tallies[w := tally], count) == Total(tallies, count) - Of(tallies[w], count) + Of(tally, count)
  {
    var init, after := tallies[..|tallies| - 1], tallies[w := tally];
    if w == |tallies| - 1 {
      assert after[..|after| - 1] == init;
    } else {
      assert after[..|after| - 1] == init[w := tally];
      TotalOfUpdate(init, w, tally, count);
    }
  }

  // ---------- The gate and its pauses ----------

  /** Pauses do not overlap, each lasts at least the shortest wait, and the gate knows the last one. */
  ghost predicate PausesFit(run: Run) {
    && |run.pauses| == run.gate.total
    && run.gate.pausedUntil == LastUntil(run.pauses, |run.pauses|)
    && (forall j ::
          0 <= j < |run.pauses|
          ==> 0 <= run.pauses[j].begun <= run.now && run.pauses[j].begun + MIN_PAUSE <= run.pauses[j].until)
    && (forall i, j :: 0 <= i < j < |run.pauses| ==> run.pauses[i].until <= run.pauses[j].begun)
    && 0 <= run.now
  }

  /** When the first `k` pauses are over. */
  function LastUntil(pauses: seq<Pause>, k: nat): int
    requires k <= |pauses|
  {
    if k == 0 then 0 else pauses[k - 1].until
  }

  /** Each request that got through allows as many more waits as may come in a row. */
  ghost predicate PausesPaidFor(run: Run) {
    run.gate.consecutive <= MAX_CONSECUTIVE
      && run.gate.total <= MAX_CONSECUTIVE * Total(run.tallies, Got) + run.gate.consecutive
  }

  // ---------- One worker ----------

  /** A worker past the gate passed it when the pauses before were over, and pauses that began since it
      sent its request did so at or after the sending. */
  ghost predicate Stands(now: int, pauses: seq<Pause>, phase: Phase) {
    match phase
    case Passed(_, _, at, k) => k <= |pauses| && LastUntil(pauses, k) <= at <= now
    case InFlight(_, sentAt, k, s) =>
      && k <= s <= |pauses| && LastUntil(pauses, k) <= sentAt <= now
      && (forall j :: s <= j < |pauses| ==> sentAt <= pauses[j].begun)
    case _ => true
  }

  predicate Between(phase: Phase) {
    phase.Idle? || phase.Ended?
  }

  /** Each 429 that was followed by another try came with a pause of its own for this worker. */
  ghost predicate Accounted(phase: Phase, tally: Tally, pauses: nat) {
    && tally.retried <= (match phase case Passed(_, _, _, k) => k case InFlight(_, _, k, _) => k case _ => pauses)
    && tally.sent + (if Between(phase) || phase.InFlight? || phase.Answered? then 0 else 1)
       <= tally.taken + tally.retried
    && tally.got + (if Between(phase) || phase.Answered? then 0 else 1) <= tally.taken
  }

  ghost predicate WorkersFit(run: Run) {
    && Shaped(run)
    && (forall v :: 0 <= v < |run.phases| ==> Stands(run.now, run.pauses, run.phases[v]))
    && (forall v :: 0 <= v < |run.phases| ==> Accounted(run.phases[v], run.tallies[v], |run.pauses|))
  }

  ghost predicate Kept(run: Run) {
    PausesFit(run) && PausesPaidFor(run) && WorkersFit(run)
  }

  // ---------- Every step keeps it ----------

  /** A worker that moves on without a request coming back. */
  lemma MovesOn(run: Run, w: nat, phase: Phase, tally: Tally)
    requires Kept(run) && w < |run.phases|
    requires Stands(run.now, run.pauses, phase) && Accounted(phase, tally, |run.pauses|)
             && tally.got == run.tallies[w].got
    ensures Kept(Counted(Moved(run, w, phase), w, tally))
  {
    hide Total, Stands, Accounted;
    TotalOfUpdate(run.tallies, w, tally, Got);
  }

  lemma MovesAlone(run: Run, w: nat, phase: Phase)
    requires Kept(run) && w < |run.phases|
    requires Stands(run.now, run.pauses, phase) && Accounted(phase, run.tallies[w], |run.pauses|)
    ensures Kept(Moved(run, w, phase))
  {
    hide Total, Stands, Accounted, PausesFit;
    assert run.tallies[w := run.tallies[w]] == run.tallies;
    MovesOn(run, w, phase, run.tallies[w]);
  }

  lemma TickKeeps(run: Run, ms: nat)
    requires Kept(run)
    ensures Kept(run.(now := run.now + ms))
  {
    hide Total, Accounted, LastUntil;
    forall v | 0 <= v < |run.phases| ensures Stands(run.now + ms, run.pauses, run.phases[v]) {
      assert Stands(run.now, run.pauses, run.phases[v]);
    }
  }

  /** What the invariant does not speak of may change. */
  lemma KeptOf(
    run: Run, queue: seq<File>, results: seq<FileResult>, slots: seq<int>, starts: map<nat, int>, nextSlotAt: int)
    requires Kept(run)
    ensures Kept(run.(queue := queue, results := results, slots := slots, starts := starts,
                      gate := run.gate.(nextSlotAt := nextSlotAt)))
  {
    hide Total, Accounted, Stands, LastUntil;
  }

  lemma TakeKeeps(run: Run, w: nat)
    requires Kept(run) && Enabled(run, Take(w))
    ensures Kept(Took(run, w))
  {
    hide Kept, PausesFit, PausesPaidFor, IsStopped;
    WorkerFits(run, w);
    if IsStopped(run.results) || run.queue == [] {
      MovesAlone(run, w, Ended);
    } else {
      var tally := run.tallies[w].(taken := run.tallies[w].taken + 1);
      MovesOn(run, w, Reading(run.queue[0]), tally);
      KeptOf(Counted(Moved(run, w, Reading(run.queue[0])), w, tally), run.queue[1..], run.results, run.slots,
        run.starts, run.gate.nextSlotAt);
    }
  }

  lemma WorkerFits(run: Run, w: nat)
    requires Kept(run) && w < |run.phases|
    ensures Shaped(run) && Stands(run.now, run.pauses, run.phases[w])
            && Accounted(run.phases[w], run.tallies[w], |run.pauses|)
  {
    hide Total, LastUntil, Stands, Accounted;
  }

  lemma FinishKeeps(run: Run, w: nat, kind: Kind)
    requires Kept(run) && w < |run.phases| && (run.phases[w].Reading? || run.phases[w].Answered?)
    ensures Kept(Finished(run, w, kind))
  {
    hide Kept, PausesFit, PausesPaidFor;
    WorkerFits(run, w);
    MovesAlone(run, w, Idle);
    KeptOf(Moved(run, w, Idle), run.queue, run.results + [FileResult(run.phases[w].file, kind)], run.slots, run.starts,
           run.gate.nextSlotAt);
  }

  lemma ReserveKeeps(run: Run, w: nat)
    requires Kept(run) && w < |run.phases| && run.phases[w].Held?
    ensures Kept(Reserved(run, w))
  {
    hide Kept, PausesFit, PausesPaidFor;
    WorkerFits(run, w);
    MovesAlone(run, w, Slotted(run.phases[w].file, |run.slots|));
    KeptOf(Moved(run, w, Slotted(run.phases[w].file, |run.slots|)), run.queue, run.results,
           run.slots + [run.gate.NextSlot(run.now)], run.starts, run.gate.NextSlot(run.now) + INTERVAL);
  }

  lemma TryKeeps(run: Run, w: nat)
    requires Kept(run) && w < |run.phases| && run.phases[w].Slotted?
    ensures Kept(Tried(run, w))
  {
    hide Total;
    WorkerFits(run, w);
    var phase := run.phases[w];
    MovesAlone(run, w,
               if run.gate.LetsPass(run.now) then Passed(phase.file, phase.slot, run.now, |run.pauses|)
               else AtGate(phase.file));
  }

  lemma SendKeeps(run: Run, w: nat)
    requires Kept(run) && w < |run.phases| && run.phases[w].Passed?
    ensures Kept(Sent(run, w))
  {
    hide Kept, PausesFit, PausesPaidFor;
    WorkerFits(run, w);
    var phase, tally := run.phases[w], run.tallies[w].(sent := run.tallies[w].sent + 1);
    var next := InFlight(phase.file, run.now, phase.pauses, |run.pauses|);
    MovesOn(run, w, next, tally);
    KeptOf(Counted(Moved(run, w, next), w, tally), run.queue, run.results, run.slots, run.starts[phase.slot := run.now],
      run.gate.nextSlotAt);
  }

  lemma ThroughKeeps(run: Run, w: nat, status: Option<nat>)
    requires Kept(run) && w < |run.phases| && run.phases[w].InFlight?
    ensures Kept(Through(run, w, status))
  {
    hide Total, LastUntil;
    WorkerFits(run, w);
    TotalOfUpdate(run.tallies, w, run.tallies[w].(got := run.tallies[w].got + 1), Got);
  }

  /** A worker whose request is in the air as the pauses grow by one. */
  lemma StandsLater(now: int, pauses: seq<Pause>, pause: Pause, phase: Phase, tally: Tally)
    requires Stands(now, pauses, phase) && Accounted(phase, tally, |pauses|) && pause.begun == now
    ensures Stands(now, pauses + [pause], phase) && Accounted(phase, tally, |pauses| + 1)
  {}

  lemma LimitedKeeps(run: Run, w: nat, retryAfter: Option<nat>)
    requires Kept(run) && w < |run.phases| && run.phases[w].InFlight?
    ensures Kept(Limited(run, w, retryAfter))
  {
    hide Total, PauseFor;
    WorkerFits(run, w);
    var phase, tally := run.phases[w], run.tallies[w].(retried := run.tallies[w].retried + 1);
    if run.gate.GivesUp(phase.sentAt) {
      MovesAlone(run, w, Answered(phase.file, Some(429)));
    } else if run.gate.Joins(phase.sentAt) {
      JoinedIsNew(run, phase);
      MovesOn(run, w, AtGate(phase.file), tally);
    } else {
      PauseKeeps(run, w, retryAfter);
    }
  }

  /** A request that joins a pause passed the gate before that pause began. */
  lemma JoinedIsNew(run: Run, phase: Phase)
    requires PausesFit(run) && Stands(run.now, run.pauses, phase) && phase.InFlight? && run.gate.Joins(phase.sentAt)
    ensures phase.pauses < |run.pauses|
  {}

  lemma PauseKeeps(run: Run, w: nat, retryAfter: Option<nat>)
    requires Kept(run) && w < |run.phases| && run.phases[w].InFlight?
    requires !run.gate.GivesUp(run.phases[w].sentAt) && !run.gate.Joins(run.phases[w].sentAt)
    ensures Kept(Limited(run, w, retryAfter))
  {
    hide Total, PauseFor;
    var phase, tally := run.phases[w], run.tallies[w].(retried := run.tallies[w].retried + 1);
    var pause := Pause(run.now, run.now + PauseFor(retryAfter));
    TotalOfUpdate(run.tallies, w, tally, Got);
    PausesGrow(run, w, retryAfter);
    forall v | 0 <= v < |run.phases|
      ensures Stands(run.now, run.pauses + [pause], run.phases[v])
      ensures Accounted(run.phases[v], run.tallies[v], |run.pauses| + 1)
    {
      StandsLater(run.now, run.pauses, pause, run.phases[v], run.tallies[v]);
    }
  }

  lemma PausesGrow(run: Run, w: nat, retryAfter: Option<nat>)
    requires PausesFit(run) && Shaped(run) && w < |run.phases| && run.phases[w].InFlight?
    requires !run.gate.GivesUp(run.phases[w].sentAt) && !run.gate.Joins(run.phases[w].sentAt)
             && run.phases[w].sentAt <= run.now
    ensures PausesFit(Limited(run, w, retryAfter))
  {
    hide PauseFor;
  }

  lemma StepKeeps(run: Run, step: Step)
    requires Kept(run) && Enabled(run, step)
    ensures Kept(After(run, step))
  {
    hide Kept;
    match step
    case Tick(ms) => TickKeeps(run, ms);
    case Take(w) => TakeKeeps(run, w);
    case CheckText(w, found) => CheckKeeps(run, w, found);
    case SleepOut(w) =>
      WorkerFits(run, w);
      MovesAlone(run, w, Phase.Held(run.phases[w].file, run.gate.pausedUntil));
    case ReserveSlot(w) => ReserveKeeps(run, w);
    case TryGate(w) => TryKeeps(run, w);
    case Send(w) => SendKeeps(run, w);
    case Receive(w, answer) => ReceiveKeeps(run, w, answer);
    case Report(w, parsed) => FinishKeeps(run, w, Verdict(run.phases[w].status, parsed));
  }

  lemma CheckKeeps(run: Run, w: nat, found: Local)
    requires Kept(run) && Enabled(run, CheckText(w, found))
    ensures Kept(TextChecked(run, w, found))
  {
    hide Kept;
    match found
    case Unfit => FinishKeeps(run, w, Failed(None));
    case DryRun => FinishKeeps(run, w, Checked);
    case Fit =>
      WorkerFits(run, w);
      MovesAlone(run, w, AtGate(run.phases[w].file));
  }

  lemma ReceiveKeeps(run: Run, w: nat, answer: Answer)
    requires Kept(run) && Enabled(run, Receive(w, answer))
    ensures Kept(Received(run, w, answer))
  {
    hide Kept;
    match answer
    case NoAnswer => ThroughKeeps(run, w, None);
    case Status(status) => ThroughKeeps(run, w, Some(status));
    case TooMany(retryAfter) => LimitedKeeps(run, w, retryAfter);
  }

  lemma {:induction false} StartKeeps(files: seq<File>, workers: nat, now: nat)
    ensures Kept(Start(files, workers, now))
  {
    hide Total;
  }

  lemma {:induction false} RunKeeps(files: seq<File>, workers: nat, now: nat, steps: seq<Step>)
    ensures var last := Ran(Start(files, workers, now), steps);
            last.Some? ==> Kept(last.value)
  {
    hide Kept, Enabled, After;
    if steps == [] {
      StartKeeps(files, workers, now);
    } else {
      RunKeeps(files, workers, now, steps[..|steps| - 1]);
      var before := Ran(Start(files, workers, now), steps[..|steps| - 1]);
      if before.Some? && Enabled(before.value, steps[|steps| - 1]) {
        StepKeeps(before.value, steps[|steps| - 1]);
      }
    }
  }
}
