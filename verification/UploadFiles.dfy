/** Every file an upload run takes gets one result. */
module UploadFiles {
  import opened Common
  import opened Multisets
  import opened UploadGate
  import opened UploadRun
  import opened UploadBound

  function FileOf(phase: Phase): multiset<File> {
    if phase.Idle? || phase.Ended? then multiset{} else multiset{phase.file}
  }

  /** The files the workers have taken and not reported yet. */
  function InHand(phases: seq<Phase>): multiset<File> {
    if phases == [] then multiset{} else InHand(phases[..|phases| - 1]) + FileOf(phases[|phases| - 1])
  }

  function Reported(results: seq<FileResult>): seq<File> {
    if results == [] then [] else Reported(results[..|results| - 1]) + [results[|results| - 1].file]
  }

  lemma {:induction false} InHandOfUpdate(phases: seq<Phase>, w: nat, phase: Phase)
    requires w < |phases|
    ensures InHand(phases[w := phase]) + FileOf(phases[w]) == InHand(phases) + FileOf(phase)
  {
    hide FileOf;
    var init, after := phases[..|phases| - 1], phases[w := phase];
    if w == |phases| - 1 {
      assert after[..|after| - 1] == init;
      Swap(InHand(init), FileOf(phase), FileOf(phases[w]));
    } else {
      var last := FileOf(phases[|phases| - 1]);
      assert after[..|after| - 1] == init[w := phase];
      InHandOfUpdate(init, w, phase);
      Swap(InHand(init[w := phase]), last, FileOf(phases[w]));
      Swap(InHand(init), last, FileOf(phase));
    }
  }

  /** Each file is queued, in hand or reported; a worker ends only once the run is stopped or nothing is
      queued. */
  ghost predicate Shares(files: seq<File>, workers: nat, run: Run) {
    && Shaped(run)
    && |run.phases| == workers
    && Total(run.tallies, Taken) + |run.queue| == |files|
    && multiset(files) == multiset(run.queue) + InHand(run.phases) + multiset(Reported(run.results))
    && (forall v :: 0 <= v < |run.phases| && run.phases[v].Ended? ==> IsStopped(run.results) || run.queue == [])
  }

  lemma MoveShares(files: seq<File>, workers: nat, run: Run, w: nat, phase: Phase, tally: Tally)
    requires Shares(files, workers, run) && w < |run.phases|
    requires FileOf(phase) == FileOf(run.phases[w]) && tally.taken == run.tallies[w].taken && !phase.Ended?
    ensures Shares(files, workers, Counted(Moved(run, w, phase), w, tally))
  {
    hide Total, InHand, Reported, IsStopped;
    TotalOfUpdate(run.tallies, w, tally, Taken);
    InHandOfUpdate(run.phases, w, phase);
    Cancel(InHand(run.phases[w := phase]), InHand(run.phases), FileOf(phase));
  }

  lemma MoveAloneShares(files: seq<File>, workers: nat, run: Run, w: nat, phase: Phase)
    requires Shares(files, workers, run) && w < |run.phases|
    requires FileOf(phase) == FileOf(run.phases[w]) && !phase.Ended?
    ensures Shares(files, workers, Moved(run, w, phase))
  {
    hide Total, InHand, Reported, IsStopped, Shares;
    assert Shaped(run) by { SharesShape(files, workers, run); }
    assert run.tallies[w := run.tallies[w]] == run.tallies;
    MoveShares(files, workers, run, w, phase, run.tallies[w]);
  }

  lemma SharesShape(files: seq<File>, workers: nat, run: Run)
    requires Shares(files, workers, run)
    ensures Shaped(run)
  {
    hide Total, InHand, Reported, IsStopped;
  }

  lemma SharesOf(
    files: seq<File>, workers: nat, run: Run, now: int, gate: Gate, slots: seq<int>, starts: map<nat, int>,
    pauses: seq<Pause>)
    requires Shares(files, workers, run)
    ensures Shares(files, workers, run.(now := now, gate := gate, slots := slots, starts := starts, pauses := pauses))
  {
    hide Total, InHand, Reported, IsStopped;
  }

  lemma TakeShares(files: seq<File>, workers: nat, run: Run, w: nat)
    requires Shares(files, workers, run) && Enabled(run, Take(w))
    ensures Shares(files, workers, Took(run, w))
  {
    hide Total, InHand, Reported, IsStopped;
    if IsStopped(run.results) || run.queue == [] {
      InHandOfUpdate(run.phases, w, Ended);
      Cancel(InHand(run.phases[w := Ended]), InHand(run.phases), multiset{});
    } else {
      TotalOfUpdate(run.tallies, w, run.tallies[w].(taken := run.tallies[w].taken + 1), Taken);
      InHandOfUpdate(run.phases, w, Reading(run.queue[0]));
      Cancel(InHand(run.phases[w := Reading(run.queue[0])]), InHand(run.phases) + multiset{run.queue[0]}, multiset{});
      assert run.queue == [run.queue[0]] + run.queue[1..];
    }
  }

  lemma ReportedLonger(results: seq<FileResult>, result: FileResult)
    ensures Reported(results + [result]) == Reported(results) + [result.file]
    ensures IsStopped(results) ==> IsStopped(results + [result])
  {
    assert (results + [result])[..|results|] == results;
    if IsStopped(results) {
      var i :| 0 <= i < |results| && results[i].kind.Failed? && results[i].kind.stop.Some?;
      assert (results + [result])[i] == results[i];
    }
  }

  lemma HandsOver(queue: multiset<File>, after: multiset<File>, before: multiset<File>, reported: seq<File>, file: File)
    requires after + multiset{file} == before + multiset{}
    ensures queue + after + multiset(reported + [file]) == queue + before + multiset(reported)
  {
    assert before == after + multiset{file};
  }

  lemma FinishShares(files: seq<File>, workers: nat, run: Run, w: nat, kind: Kind)
    requires Shares(files, workers, run) && w < |run.phases| && (run.phases[w].Reading? || run.phases[w].Answered?)
    ensures Shares(files, workers, Finished(run, w, kind))
  {
    hide Total, InHand, Reported, IsStopped;
    var file := run.phases[w].file;
    InHandOfUpdate(run.phases, w, Idle);
    ReportedLonger(run.results, FileResult(file, kind));
    HandsOver(multiset(run.queue), InHand(run.phases[w := Idle]), InHand(run.phases), Reported(run.results), file);
  }

  lemma ReceiveShares(files: seq<File>, workers: nat, run: Run, w: nat, answer: Answer)
    requires Shares(files, workers, run) && Shaped(run) && Enabled(run, Receive(w, answer))
    ensures Shares(files, workers, Received(run, w, answer))
  {
    hide Shares, Total, InHand, Reported, IsStopped, PauseFor;
    var after := Received(run, w, answer);
    if after.tallies == run.tallies {
      MoveAloneShares(files, workers, run, w, after.phases[w]);
      SharesOf(files, workers, Moved(run, w, after.phases[w]), after.now, after.gate, after.slots, after.starts,
        after.pauses);
    } else {
      MoveShares(files, workers, run, w, after.phases[w], after.tallies[w]);
      SharesOf(files, workers, Counted(Moved(run, w, after.phases[w]), w, after.tallies[w]), after.now, after.gate,
        after.slots, after.starts, after.pauses);
    }
  }

  lemma StepShares(files: seq<File>, workers: nat, run: Run, step: Step)
    requires Shaped(run) && Shares(files, workers, run) && Enabled(run, step)
    ensures Shares(files, workers, After(run, step))
  {
    hide Shares, Total, InHand, Reported, IsStopped;
    match step
    case Tick(ms) => SharesOf(files, workers, run, run.now + ms, run.gate, run.slots, run.starts, run.pauses);
    case Take(w) => TakeShares(files, workers, run, w);
    case CheckText(w, found) => CheckShares(files, workers, run, w, found);
    case SleepOut(w) => MoveAloneShares(files, workers, run, w, Phase.Held(run.phases[w].file, run.gate.pausedUntil));
    case ReserveSlot(w) => ReserveShares(files, workers, run, w);
    case TryGate(w) => TryShares(files, workers, run, w);
    case Send(w) => SendShares(files, workers, run, w);
    case Receive(w, answer) => ReceiveShares(files, workers, run, w, answer);
    case Report(w, parsed) => FinishShares(files, workers, run, w, Verdict(run.phases[w].status, parsed));
  }

  lemma CheckShares(files: seq<File>, workers: nat, run: Run, w: nat, found: Local)
    requires Shaped(run) && Shares(files, workers, run) && Enabled(run, CheckText(w, found))
    ensures Shares(files, workers, TextChecked(run, w, found))
  {
    hide Shares;
    match found
    case Unfit => FinishShares(files, workers, run, w, Failed(None));
    case DryRun => FinishShares(files, workers, run, w, Checked);
    case Fit => MoveAloneShares(files, workers, run, w, AtGate(run.phases[w].file));
  }

  lemma ReserveShares(files: seq<File>, workers: nat, run: Run, w: nat)
    requires Shaped(run) && Shares(files, workers, run) && Enabled(run, ReserveSlot(w))
    ensures Shares(files, workers, Reserved(run, w))
  {
    hide Shares;
    var after := Reserved(run, w);
    MoveAloneShares(files, workers, run, w, after.phases[w]);
    SharesOf(files, workers, Moved(run, w, after.phases[w]), run.now, after.gate, after.slots, run.starts, run.pauses);
  }

  lemma TryShares(files: seq<File>, workers: nat, run: Run, w: nat)
    requires Shaped(run) && Shares(files, workers, run) && Enabled(run, TryGate(w))
    ensures Shares(files, workers, Tried(run, w))
  {
    hide Shares;
    MoveAloneShares(files, workers, run, w, Tried(run, w).phases[w]);
  }

  lemma SendShares(files: seq<File>, workers: nat, run: Run, w: nat)
    requires Shaped(run) && Shares(files, workers, run) && Enabled(run, Send(w))
    ensures Shares(files, workers, Sent(run, w))
  {
    hide Shares;
    var after := Sent(run, w);
    MoveShares(files, workers, run, w, after.phases[w], after.tallies[w]);
    SharesOf(files, workers, Counted(Moved(run, w, after.phases[w]), w, after.tallies[w]), run.now, run.gate, run.slots,
      after.starts, run.pauses);
  }

  lemma {:induction false} NothingTaken(workers: nat)
    ensures Total(seq(workers, _ => Tally(0, 0, 0, 0)), Taken) == 0 && InHand(seq(workers, _ => Idle)) == multiset{}
  {
    if workers > 0 {
      NothingTaken(workers - 1);
      assert seq(workers, _ => Tally(0, 0, 0, 0))[..workers - 1] == seq(workers - 1, _ => Tally(0, 0, 0, 0));
      assert seq(workers, _ => Idle)[..workers - 1] == seq(workers - 1, _ => Idle);
    }
  }

  lemma {:induction false} RunShares(files: seq<File>, workers: nat, now: nat, steps: seq<Step>)
    ensures var last := Ran(Start(files, workers, now), steps);
            last.Some? ==> Shares(files, workers, last.value)
  {
    hide Shares, Enabled, After;
    if steps == [] {
      StartShares(files, workers, now);
    } else {
      RunShares(files, workers, now, steps[..|steps| - 1]);
      var before := Ran(Start(files, workers, now), steps[..|steps| - 1]);
      if before.Some? && Enabled(before.value, steps[|steps| - 1]) {
        StepShares(files, workers, before.value, steps[|steps| - 1]);
      }
    }
  }

  lemma StartShares(files: seq<File>, workers: nat, now: nat)
    ensures Shares(files, workers, Start(files, workers, now))
  {
    hide Total, InHand;
    NothingTaken(workers);
  }

  // ---------- Main results ----------

  /** At every moment of every run, each file is queued, in a worker's hands or has exactly one result,
      as often as it is in the list; once all workers have ended, all files have their result unless a
      result stopped the run. */
  lemma OneResultEach(files: seq<File>, workers: nat, now: nat, steps: seq<Step>)
    requires Ran(Start(files, workers, now), steps).Some?
    ensures var last := Ran(Start(files, workers, now), steps).value;
            && multiset(files) == multiset(last.queue) + InHand(last.phases) + multiset(Reported(last.results))
            && ((forall v :: 0 <= v < |last.phases| ==> last.phases[v].Ended?)
                && workers > 0 && !IsStopped(last.results)
                ==> multiset(Reported(last.results)) == multiset(files))
  {
    hide Ran, InHand, Reported, IsStopped, Total;
    RunShares(files, workers, now, steps);
    var last := Ran(Start(files, workers, now), steps).value;
    if forall v :: 0 <= v < |last.phases| ==> last.phases[v].Ended? {
      NothingInHand(last.phases);
      if workers > 0 {
        assert last.phases[0].Ended?;
      }
    }
  }

  lemma {:induction false} NothingInHand(phases: seq<Phase>)
    requires forall v :: 0 <= v < |phases| ==> phases[v].Ended?
    ensures InHand(phases) == multiset{}
  {
    if phases != [] {
      NothingInHand(phases[..|phases| - 1]);
    }
  }

  lemma {:induction false} TotalsCompare(run: Run, m: nat)
    requires WorkersFit(run) && |run.pauses| <= m
    ensures Total(run.tallies, SentOff) <= Total(run.tallies, Taken) + |run.tallies| * m
    ensures Total(run.tallies, Got) <= Total(run.tallies, Taken)
  {
    forall v | 0 <= v < |run.tallies|
      ensures run.tallies[v].sent <= run.tallies[v].taken + m && run.tallies[v].got <= run.tallies[v].taken
    {
      assert Stands(run.now, run.pauses, run.phases[v]) && Accounted(run.phases[v], run.tallies[v], |run.pauses|);
    }
    SumsCompare(run.tallies, m);
  }

  lemma {:induction false} SumsCompare(tallies: seq<Tally>, m: nat)
    requires forall v :: 0 <= v < |tallies| ==> tallies[v].sent <= tallies[v].taken + m
    requires forall v :: 0 <= v < |tallies| ==> tallies[v].got <= tallies[v].taken
    ensures Total(tallies, SentOff) <= Total(tallies, Taken) + |tallies| * m
    ensures Total(tallies, Got) <= Total(tallies, Taken)
  {
    if tallies != [] {
      SumsCompare(tallies[..|tallies| - 1], m);
    }
  }

  /** N files and C workers make at most N + C * MAX * (N + 1) requests, whatever the server answers. */
  lemma RequestsBounded(files: seq<File>, workers: nat, now: nat, steps: seq<Step>)
    requires Ran(Start(files, workers, now), steps).Some?
    ensures var last := Ran(Start(files, workers, now), steps).value;
            Total(last.tallies, SentOff) <= |files| + workers * (MAX_CONSECUTIVE * (|files| + 1))
  {
    hide Ran, InHand, Reported, IsStopped, Total, PausesFit, WorkersFit;
    RunShares(files, workers, now, steps);
    RunKeeps(files, workers, now, steps);
    var last := Ran(Start(files, workers, now), steps).value;
    PausesCounted(last);
    TotalsCompare(last, |last.pauses|);
    assert |last.pauses| <= MAX_CONSECUTIVE * (|files| + 1);
    Times(workers, |last.pauses|, MAX_CONSECUTIVE * (|files| + 1));
  }

  lemma PausesCounted(run: Run)
    requires PausesFit(run)
    ensures |run.pauses| == run.gate.total
  {}

  lemma Times(k: nat, a: nat, b: nat)
    requires a <= b
    ensures k * a <= k * b
  {}
}
