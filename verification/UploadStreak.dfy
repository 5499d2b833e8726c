/** An upload run gives a request up, and stops, only after the most waits there may be in a row, with no
    request getting through between them. */
module UploadStreak {
  import opened Common
  import opened UploadGate
  import opened UploadRun

  predicate IsThrough(step: Step) {
    step.Receive? && !step.answer.TooMany?
  }

  /** Just after the last request that got through. */
  function LastThrough(steps: seq<Step>): (i: nat)
    ensures i <= |steps|
  {
    if steps == [] then 0
    else if IsThrough(steps[|steps| - 1]) then |steps|
    else LastThrough(steps[..|steps| - 1])
  }

  ghost predicate NoneThrough(steps: seq<Step>, i: nat, j: nat)
    requires i <= j <= |steps|
  {
    forall k :: i <= k < j ==> !IsThrough(steps[k])
  }

  lemma {:induction false} NoneThroughSince(steps: seq<Step>)
    ensures NoneThrough(steps, LastThrough(steps), |steps|)
  {
    if steps != [] {
      var init := steps[..|steps| - 1];
      NoneThroughSince(init);
      forall k | LastThrough(steps) <= k < |steps| ensures !IsThrough(steps[k]) {
        if k < |init| {
          assert init[k] == steps[k];
        }
      }
    }
  }

  /** What leads somewhere leads there through its beginnings. */
  lemma {:induction false} BeginningsRun(first: Run, steps: seq<Step>, i: nat)
    requires Shaped(first) && i <= |steps| && Ran(first, steps).Some?
    ensures Ran(first, steps[..i]).Some?
    decreases |steps|
  {
    hide After, Enabled;
    if i == |steps| {
      assert steps[..i] == steps;
    } else {
      assert steps[..|steps| - 1][..i] == steps[..i];
      BeginningsRun(first, steps[..|steps| - 1], i);
    }
  }

  /** How many pauses have begun. */
  function Waits(first: Run, steps: seq<Step>): nat
    requires Shaped(first) && Ran(first, steps).Some?
  {
    |Ran(first, steps).value.pauses|
  }

  /** The waits in a row the gate counts are the ones begun since a request last got through. */
  lemma {:induction false} CountsTheStreak(first: Run, steps: seq<Step>)
    requires Shaped(first) && Ran(first, steps).Some? && first.gate.consecutive == |first.pauses| == 0
    ensures Ran(first, steps[..LastThrough(steps)]).Some?
    ensures Ran(first, steps).value.gate.consecutive + Waits(first, steps[..LastThrough(steps)]) == Waits(first, steps)
  {
    hide After;
    BeginningsRun(first, steps, LastThrough(steps));
    if steps == [] {
      assert steps[..LastThrough(steps)] == steps;
    } else {
      var init, step := steps[..|steps| - 1], steps[|steps| - 1];
      CountsTheStreak(first, init);
      StepCounts(Ran(first, init).value, step);
      if IsThrough(step) {
        assert steps[..LastThrough(steps)] == steps;
      } else {
        assert steps[..LastThrough(steps)] == init[..LastThrough(init)];
      }
    }
  }

  lemma StepCounts(run: Run, step: Step)
    requires Shaped(run) && Enabled(run, step)
    ensures var after := After(run, step);
            if IsThrough(step) then after.gate.consecutive == 0
            else after.gate.consecutive - run.gate.consecutive == |after.pauses| - |run.pauses|
  {
    hide IsStopped, PauseFor;
  }

  /** The most waits in a row, with no request getting through from the first of them on. */
  ghost predicate WaitedInARow(first: Run, steps: seq<Step>)
    requires Shaped(first)
  {
    exists i: nat, j: nat :: Streak(first, steps, i, j)
  }

  ghost predicate Streak(first: Run, steps: seq<Step>, i: nat, j: nat)
    requires Shaped(first)
  {
    && i <= j <= |steps| && NoneThrough(steps, i, j)
    && Ran(first, steps[..i]).Some? && Ran(first, steps[..j]).Some?
    && Waits(first, steps[..i]) + MAX_CONSECUTIVE <= Waits(first, steps[..j])
  }

  lemma StreakStays(first: Run, steps: seq<Step>)
    requires Shaped(first) && steps != [] && WaitedInARow(first, steps[..|steps| - 1])
    ensures WaitedInARow(first, steps)
  {
    hide Ran, IsThrough;
    var init := steps[..|steps| - 1];
    var i: nat, j: nat :| Streak(first, init, i, j);
    assert init[..i] == steps[..i] && init[..j] == steps[..j];
    forall k | i <= k < j ensures !IsThrough(steps[k]) {
      assert init[k] == steps[k];
    }
    assert Streak(first, steps, i, j);
  }

  // ---------- Giving up ----------

  /** A 429 has been taken as the answer, or has stopped the run. */
  ghost predicate GivenUp(run: Run) {
    (exists v :: 0 <= v < |run.phases| && run.phases[v].Answered? && run.phases[v].status == Some(429))
    || (exists i :: 0 <= i < |run.results| && run.results[i].kind == Failed(Some(RateLimit)))
  }

  /** The gate gives this request up. */
  predicate GivesUpNow(run: Run, step: Step)
    requires Shaped(run) && Enabled(run, step)
  {
    step.Receive? && step.answer.TooMany? && run.gate.GivesUp(run.phases[step.w].sentAt)
  }

  lemma OneMoved(run: Run, after: Run, w: nat)
    requires w < |run.phases| == |after.phases| && GivenUp(after)
    requires forall v :: 0 <= v < |run.phases| && v != w ==> after.phases[v] == run.phases[v]
    requires after.phases[w].Answered? && after.phases[w].status == Some(429) ==> GivenUp(run)
    requires forall i :: 0 <= i < |after.results| && after.results[i].kind == Failed(Some(RateLimit)) ==>
               (i < |run.results| && after.results[i] == run.results[i]) || GivenUp(run)
    ensures GivenUp(run)
  {
    if v :| 0 <= v < |after.phases| && after.phases[v].Answered? && after.phases[v].status == Some(429) {
      if v != w {
        assert run.phases[v] == after.phases[v];
      }
    } else {
      var i :| 0 <= i < |after.results| && after.results[i].kind == Failed(Some(RateLimit));
      assert i < |run.results| ==> run.results[i].kind == Failed(Some(RateLimit)) || GivenUp(run);
    }
  }

  lemma StepGivesUp(run: Run, step: Step)
    requires Shaped(run) && Enabled(run, step) && GivenUp(After(run, step))
    ensures GivenUp(run) || GivesUpNow(run, step)
  {
    hide IsStopped, PauseFor, GivenUp;
    if step.Tick? {
      SameGivenUp(run, After(run, step));
    } else if !GivesUpNow(run, step) {
      if step.Report? && run.phases[step.w].status == Some(429) {
        AnswerGivenUp(run, step.w);
      }
      OneMoved(run, After(run, step), step.w);
    }
  }

  lemma SameGivenUp(run: Run, after: Run)
    requires GivenUp(after) && after.phases == run.phases && after.results == run.results
    ensures GivenUp(run)
  {}

  lemma AnswerGivenUp(run: Run, w: nat)
    requires w < |run.phases| && run.phases[w].Answered? && run.phases[w].status == Some(429)
    ensures GivenUp(run)
  {}

  /** In every run the gate gives a request up exactly when no pause the request is part of is in force and
      the most waits there may be have begun since a request last got through. */
  lemma GivesUpExactly(files: seq<File>, workers: nat, now: nat, steps: seq<Step>, step: Step)
    requires Ran(Start(files, workers, now), steps).Some?
    requires var run := Ran(Start(files, workers, now), steps).value;
             Enabled(run, step) && step.Receive? && step.answer.TooMany?
    ensures var start := Start(files, workers, now);
            var run := Ran(start, steps).value;
            && Ran(start, steps[..LastThrough(steps)]).Some?
            && NoneThrough(steps, LastThrough(steps), |steps|)
            && (After(run, step).phases[step.w].Answered?
                <==> !run.gate.Joins(run.phases[step.w].sentAt)
                     && Waits(start, steps) - Waits(start, steps[..LastThrough(steps)]) >= MAX_CONSECUTIVE)
  {
    hide Ran, LastThrough;
    NoneThroughSince(steps);
    CountsTheStreak(Start(files, workers, now), steps);
  }

  /** In every run, a 429 taken as an answer, and so a run stopped by the rate limit, comes after the most
      waits in a row with no request getting through. */
  lemma {:induction false} StopsOnlyAfterWaiting(files: seq<File>, workers: nat, now: nat, steps: seq<Step>)
    requires Ran(Start(files, workers, now), steps).Some? && GivenUp(Ran(Start(files, workers, now), steps).value)
    ensures WaitedInARow(Start(files, workers, now), steps)
  {
    hide After, Enabled, GivenUp, WaitedInARow;
    var start := Start(files, workers, now);
    if steps == [] {
      NothingGivenUp(files, workers, now);
    } else {
      var init, step := steps[..|steps| - 1], steps[|steps| - 1];
      var before := Ran(start, init).value;
      StepGivesUp(before, step);
      if GivenUp(before) {
        StopsOnlyAfterWaiting(files, workers, now, init);
      } else {
        GivingUpIsAStreak(start, init, step);
      }
      StreakStays(start, steps);
    }
  }

  lemma GivingUpIsAStreak(first: Run, steps: seq<Step>, step: Step)
    requires Shaped(first) && first.gate.consecutive == |first.pauses| == 0
    requires Ran(first, steps).Some? && Enabled(Ran(first, steps).value, step)
             && GivesUpNow(Ran(first, steps).value, step)
    ensures WaitedInARow(first, steps)
  {
    hide Ran, LastThrough;
    NoneThroughSince(steps);
    CountsTheStreak(first, steps);
    assert steps[..|steps|] == steps;
    assert Streak(first, steps, LastThrough(steps), |steps|);
  }

  lemma NothingGivenUp(files: seq<File>, workers: nat, now: nat)
    ensures !GivenUp(Start(files, workers, now))
  {}
}
