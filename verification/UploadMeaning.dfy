/** What an upload run reports and how long it waits, told from the answers: each file's result from the answer to it,
    each pause from what `Retry-After` asks. */
module UploadMeaning {
  import opened Common
  import opened UploadGate
  import opened UploadRun
  import opened UploadBound

  // ---------- How long and how often ----------

  /** The least whole number of milliseconds at which a minute holds no more than nine tenths of the limit. */
  lemma IntervalIsTheLeast(ms: nat)
    ensures 10 * 60000 <= 9 * 1200 * ms <==> ms >= INTERVAL
    ensures MAX_CONSECUTIVE == 5
  {}

  /** Step `i` of a run is a 429 that asks for a pause then begun. */
  ghost predicate AskedFor(first: Run, steps: seq<Step>, pause: Pause, i: int)
    requires Shaped(first)
  {
    && 0 <= i < |steps| && steps[i].Receive? && steps[i].answer.TooMany?
    && Ran(first, steps[..i]).Some? && pause.begun == Ran(first, steps[..i]).value.now
    && pause.until - pause.begun
       == match steps[i].answer.retryAfter
          case None => 60000
          case Some(seconds) => if seconds < 1 then 1000 else if seconds > 300 then 300000 else 1000 * seconds
  }

  lemma NewPause(run: Run, step: Step)
    requires Shaped(run) && Enabled(run, step)
    ensures var pauses := After(run, step).pauses;
            || pauses == run.pauses
            || (step.Receive? && step.answer.TooMany?
                && pauses == run.pauses + [Pause(run.now, run.now + PauseFor(step.answer.retryAfter))])
  {
    hide PauseFor;
  }

  /** In every run each pause is begun by a 429 and lasts as that asks: a minute if it says nothing, otherwise the
      seconds it says, but a second at least and five minutes at most. */
  lemma {:induction false} EveryPauseIsAsAsked(first: Run, steps: seq<Step>, j: nat)
    requires Shaped(first) && Ran(first, steps).Some?
    requires |first.pauses| <= j < |Ran(first, steps).value.pauses|
    ensures exists i :: AskedFor(first, steps, Ran(first, steps).value.pauses[j], i)
  {
    hide After, Enabled;
    if steps != [] {
      var init, step := steps[..|steps| - 1], steps[|steps| - 1];
      var before, pause := Ran(first, init).value, Ran(first, steps).value.pauses[j];
      NewPause(before, step);
      if j < |before.pauses| {
        EveryPauseIsAsAsked(first, init, j);
        var i :| AskedFor(first, init, pause, i);
        assert init[..i] == steps[..i];
        assert AskedFor(first, steps, pause, i);
      } else {
        assert steps[..|init|] == init;
        assert AskedFor(first, steps, pause, |init|);
      }
    }
  }

  /** A worker about to reserve a slot went to sleep at step `i`, and has done nothing since. */
  ghost predicate SleptSince(first: Run, steps: seq<Step>, w: nat, i: int)
    requires Shaped(first)
  {
    && 0 <= i < |steps| && steps[i] == SleepOut(w) && Ran(first, steps[..i]).Some?
    && Ran(first, steps).Some? && w < |Ran(first, steps).value.phases| && Ran(first, steps).value.phases[w].Held?
    && Ran(first, steps).value.phases[w].until == Ran(first, steps[..i]).value.gate.pausedUntil
  }

  lemma HeldBy(run: Run, step: Step, w: nat)
    requires Shaped(run) && Enabled(run, step) && w < |run.phases|
    ensures |After(run, step).phases| == |run.phases|
    ensures After(run, step).phases[w].Held? ==>
              if step == SleepOut(w) then After(run, step).phases[w].until == run.gate.pausedUntil
              else After(run, step).phases[w] == run.phases[w]
  {
    hide PauseFor, Verdict, IsStopped;
  }

  lemma {:induction false} HeldHasSlept(first: Run, steps: seq<Step>, w: nat)
    requires Shaped(first) && (forall v :: 0 <= v < |first.phases| ==> !first.phases[v].Held?)
    requires Ran(first, steps).Some? && w < |Ran(first, steps).value.phases|
    requires Ran(first, steps).value.phases[w].Held?
    ensures exists i :: SleptSince(first, steps, w, i)
  {
    hide After, Enabled;
    if steps != [] {
      var init, step := steps[..|steps| - 1], steps[|steps| - 1];
      var before := Ran(first, init).value;
      assert w < |before.phases| by { PhasesStay(before, step); }
      HeldBy(before, step, w);
      assert steps[..|init|] == init;
      if step == SleepOut(w) {
        assert SleptSince(first, steps, w, |init|);
      } else {
        HeldHasSlept(first, init, w);
        var i :| SleptSince(first, init, w, i);
        assert init[..i] == steps[..i];
        assert SleptSince(first, steps, w, i);
      }
    }
  }

  lemma PhasesStay(run: Run, step: Step)
    requires Shaped(run) && Enabled(run, step)
    ensures |After(run, step).phases| == |run.phases|
  {
    hide PauseFor, Verdict, IsStopped;
  }

  /** In every run a slot is reserved only once every pause is over that had begun when the worker came to the gate,
      and it is the next free one not before now. */
  lemma SlotsComeAfterPauses(files: seq<File>, workers: nat, now: nat, steps: seq<Step>, w: nat)
    requires Ran(Start(files, workers, now), steps).Some?
    requires Enabled(Ran(Start(files, workers, now), steps).value, ReserveSlot(w))
    ensures var first := Start(files, workers, now);
            var run := Ran(first, steps).value;
            && (exists i :: SleptSince(first, steps, w, i) && OverBy(Ran(first, steps[..i]).value.pauses, run.now))
            && After(run, ReserveSlot(w)).slots
               == run.slots + [if run.now > run.gate.nextSlotAt then run.now else run.gate.nextSlotAt]
  {
    hide Ran, Total, Stands, Accounted;
    var first := Start(files, workers, now);
    HeldHasSlept(first, steps, w);
    var i :| SleptSince(first, steps, w, i);
    RunKeeps(files, workers, now, steps[..i]);
    LastIsLatest(Ran(first, steps[..i]).value, Ran(first, steps).value.now);
  }

  ghost predicate OverBy(pauses: seq<Pause>, now: int) {
    forall j :: 0 <= j < |pauses| ==> pauses[j].until <= now
  }

  lemma LastIsLatest(run: Run, now: int)
    requires PausesFit(run) && run.gate.pausedUntil <= now
    ensures OverBy(run.pauses, now)
  {}

  // ---------- What becomes of each file ----------

  /** The result of a file whose last answer was `status`, or that could not be sent: uploaded only on a 200 or a 201
      that can be read, and stopping the run on a 401, a 403 and a 429 given up. */
  function ResultOn(status: Option<nat>, parsed: Option<Kind>): Kind {
    match status
    case Some(200) => if parsed.Some? then parsed.value else Failed(None)
    case Some(201) => if parsed.Some? then parsed.value else Failed(None)
    case Some(401) => Failed(Some(Auth))
    case Some(403) => Failed(Some(Auth))
    case Some(429) => Failed(Some(RateLimit))
    case _ => Failed(None)
  }

  /** What a step reports. */
  function Reports(run: Run, step: Step): seq<FileResult>
    requires Shaped(run) && Enabled(run, step)
  {
    match step
    case CheckText(w, Unfit) => [FileResult(run.phases[w].file, Failed(None))]
    case CheckText(w, DryRun) => [FileResult(run.phases[w].file, Checked)]
    case Report(w, parsed) => [FileResult(run.phases[w].file, ResultOn(run.phases[w].status, parsed))]
    case _ => []
  }

  function FileIn(phase: Phase): Option<File> {
    match phase
    case Idle => None
    case Ended => None
    case Reading(file) => Some(file)
    case AtGate(file) => Some(file)
    case Held(file, _) => Some(file)
    case Slotted(file, _) => Some(file)
    case Passed(file, _, _, _) => Some(file)
    case InFlight(file, _, _, _) => Some(file)
    case Answered(file, _) => Some(file)
  }

  lemma StepReports(run: Run, step: Step)
    requires Shaped(run) && Enabled(run, step)
    ensures After(run, step).results == run.results + Reports(run, step)
  {
    hide PauseFor;
  }

  /** The answer a worker's request last came back with. */
  function LastAnswer(steps: seq<Step>, w: nat): Option<Answer> {
    if steps == [] then None
    else
      match steps[|steps| - 1]
      case Receive(v, answer) => if v == w then Some(answer) else LastAnswer(steps[..|steps| - 1], w)
      case _ => LastAnswer(steps[..|steps| - 1], w)
  }

  function StatusOf(answer: Answer): Option<nat> {
    match answer
    case NoAnswer => None
    case Status(status) => Some(status)
    case TooMany(_) => Some(429)
  }

  ghost predicate AnsweredAsReceived(run: Run, steps: seq<Step>) {
    forall w: nat :: w < |run.phases| && run.phases[w].Answered? ==>
      LastAnswer(steps, w).Some? && run.phases[w].status == StatusOf(LastAnswer(steps, w).value)
  }

  lemma StepAnswers(run: Run, steps: seq<Step>, step: Step)
    requires Shaped(run) && Enabled(run, step) && AnsweredAsReceived(run, steps)
    ensures AnsweredAsReceived(After(run, step), steps + [step])
  {
    hide PauseFor, IsStopped, Verdict;
    assert (steps + [step])[..|steps|] == steps;
  }

  /** In every run a worker that reports an answer reports the one its request last came back with. */
  lemma {:induction false} AnswersAreReported(first: Run, steps: seq<Step>)
    requires Shaped(first) && (forall w :: 0 <= w < |first.phases| ==> !first.phases[w].Answered?)
    requires Ran(first, steps).Some?
    ensures AnsweredAsReceived(Ran(first, steps).value, steps)
  {
    hide AnsweredAsReceived, After, Enabled;
    if steps == [] {
      NothingAnswered(first);
    } else {
      var init := steps[..|steps| - 1];
      AnswersAreReported(first, init);
      StepAnswers(Ran(first, init).value, init, steps[|steps| - 1]);
      assert steps == init + [steps[|steps| - 1]];
    }
  }

  lemma NothingAnswered(first: Run)
    requires forall w :: 0 <= w < |first.phases| ==> !first.phases[w].Answered?
    ensures AnsweredAsReceived(first, [])
  {}

  /** Step `k` reported a result: what the local check found, or what the answer its worker last had comes to. */
  ghost predicate ReportedAt(first: Run, steps: seq<Step>, result: FileResult, k: int)
    requires Shaped(first)
  {
    && 0 <= k < |steps| && Ran(first, steps[..k]).Some? && !steps[k].Tick?
    && var run := Ran(first, steps[..k]).value;
    && steps[k].w < |run.phases| && FileIn(run.phases[steps[k].w]) == Some(result.file)
    && match steps[k]
       case CheckText(_, Unfit) => result.kind == Failed(None)
       case CheckText(_, DryRun) => result.kind == Checked
       case Report(w, parsed) =>
         && LastAnswer(steps[..k], w).Some?
         && result.kind == ResultOn(StatusOf(LastAnswer(steps[..k], w).value), parsed)
       case _ => false
  }

  /** In every run each result is of the file its worker had in hand: what the local check found, or what the last
      answer to its request comes to. */
  lemma {:induction false} EveryResultIsItsAnswer(first: Run, steps: seq<Step>, i: nat)
    requires Shaped(first) && (forall w :: 0 <= w < |first.phases| ==> !first.phases[w].Answered?)
    requires Ran(first, steps).Some? && |first.results| <= i < |Ran(first, steps).value.results|
    ensures exists k :: ReportedAt(first, steps, Ran(first, steps).value.results[i], k)
  {
    hide After, Enabled, Reports, AnsweredAsReceived;
    if steps != [] {
      var init, step := steps[..|steps| - 1], steps[|steps| - 1];
      var before, result := Ran(first, init).value, Ran(first, steps).value.results[i];
      StepReports(before, step);
      assert steps[..|init|] == init;
      if i < |before.results| {
        EveryResultIsItsAnswer(first, init, i);
        var k :| ReportedAt(first, init, result, k);
        assert init[..k] == steps[..k];
        assert ReportedAt(first, steps, result, k);
      } else {
        AnswersAreReported(first, init);
        ReportsAreOf(first, init, step);
        assert ReportedAt(first, steps, result, |init|);
      }
    }
  }

  lemma ReportsAreOf(first: Run, steps: seq<Step>, step: Step)
    requires Shaped(first) && Ran(first, steps).Some? && Enabled(Ran(first, steps).value, step)
    requires AnsweredAsReceived(Ran(first, steps).value, steps)
    requires Reports(Ran(first, steps).value, step) != []
    ensures |Reports(Ran(first, steps).value, step)| == 1
    ensures ReportedAt(first, steps + [step], Reports(Ran(first, steps).value, step)[0], |steps|)
  {
    assert (steps + [step])[..|steps|] == steps;
  }

  /** A result that stops the run: one of an authorisation refused, or of a 429 given up. */
  ghost predicate Stopping(results: seq<FileResult>) {
    exists i ::
      0 <= i < |results| && (results[i].kind == Failed(Some(Auth)) || results[i].kind == Failed(Some(RateLimit)))
  }

  lemma StoppingStops(results: seq<FileResult>)
    ensures Stopping(results) <==> IsStopped(results)
  {
    if IsStopped(results) {
      var i :| 0 <= i < |results| && results[i].kind.Failed? && results[i].kind.stop.Some?;
      var stop := results[i].kind.stop.value;
      assert results[i].kind == Failed(Some(stop)) && (stop == Auth || stop == RateLimit);
    }
  }

  /** A worker keeps its file until it reports it, and takes the next of the queue unless the run is stopped. */
  lemma FilesAreKept(run: Run, step: Step, v: nat)
    requires Shaped(run) && Enabled(run, step) && v < |run.phases|
    ensures var before, after := FileIn(run.phases[v]), FileIn(After(run, step).phases[v]);
            if step == Take(v) then
              if Stopping(run.results) || run.queue == [] then after.None? && After(run, step).queue == run.queue
              else after == Some(run.queue[0]) && After(run, step).queue == run.queue[1..]
            else if Reports(run, step) != [] && step.w == v then
              before == Some(Reports(run, step)[0].file) && after.None?
            else after == before
  {
    hide PauseFor, Verdict, IsStopped, Stopping;
    StoppingStops(run.results);
  }

  /** Once a result stops the run nothing more is taken. */
  lemma {:induction false} NothingIsTakenAfterAStop(first: Run, steps: seq<Step>)
    requires Shaped(first) && Stopping(first.results)
    requires Ran(first, steps).Some?
    ensures Ran(first, steps).value.queue == first.queue && Stopping(Ran(first, steps).value.results)
  {
    hide After, Enabled, Stopping;
    if steps != [] {
      var init, step := steps[..|steps| - 1], steps[|steps| - 1];
      NothingIsTakenAfterAStop(first, init);
      StaysStopped(Ran(first, init).value, step);
    }
  }

  lemma StaysStopped(run: Run, step: Step)
    requires Shaped(run) && Enabled(run, step) && Stopping(run.results)
    ensures After(run, step).queue == run.queue && Stopping(After(run, step).results)
  {
    hide PauseFor, Verdict, IsStopped;
    StoppingStops(run.results);
    var i :| 0 <= i < |run.results|
      && (run.results[i].kind == Failed(Some(Auth)) || run.results[i].kind == Failed(Some(RateLimit)));
    assert After(run, step).results[i] == run.results[i];
  }
}
