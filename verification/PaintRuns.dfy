/** What holds however the decode workers take turns. */
module PaintRuns {
  import opened Common
  import opened Multisets
  import opened PaintBudget

  // ---------- Bytes ----------

  function CostOf(picture: Picture): nat {
    |picture.painted| * picture.job.cost
  }

  /** The bytes a worker has painted or holds room for. */
  function SpentBy(worker: Worker): nat {
    match worker.phase
    case Between => 0
    case Ready(picture, _) => CostOf(picture)
    case Holding(picture, _) => CostOf(picture) + picture.job.cost
  }

  function Spent(workers: seq<Worker>): nat {
    if workers == [] then 0 else Spent(workers[..|workers| - 1]) + SpentBy(workers[|workers| - 1])
  }

  function Kept(sent: seq<Picture>): nat {
    if sent == [] then 0 else Kept(sent[..|sent| - 1]) + CostOf(sent[|sent| - 1])
  }

  lemma {:induction false} SpentOfUpdate(workers: seq<Worker>, w: nat, worker: Worker)
    requires w < |workers|
    ensures Spent(workers[w := worker]) == Spent(workers) - SpentBy(workers[w]) + SpentBy(worker)
  {
    var init, after := workers[..|workers| - 1], workers[w := worker];
    if w == |workers| - 1 {
      assert after[..|after| - 1] == init;
    } else {
      assert after[..|after| - 1] == init[w := worker];
      SpentOfUpdate(init, w, worker);
    }
  }

  lemma KeptOfLonger(sent: seq<Picture>, picture: Picture)
    ensures Kept(sent + [picture]) == Kept(sent) + CostOf(picture)
  {
    assert (sent + [picture])[..|sent|] == sent;
  }

  ghost predicate Balanced(pool: Pool, room: nat) {
    pool.room + Spent(pool.workers) + Kept(pool.sent) == room
  }

  lemma CostOfOneMore(picture: Picture, look: Look)
    ensures CostOf(picture.(painted := picture.painted + [look])) == CostOf(picture) + picture.job.cost
  {
    var n, c := |picture.painted|, picture.job.cost;
    assert (n + 1) * c == n * c + c;
  }

  lemma StepBalances(pool: Pool, step: Step, room: nat)
    requires Balanced(pool, room) && Enabled(pool, step)
    ensures Balanced(After(pool, step), room)
  {
    hide Spent, Kept, CostOf, ToPaint;
    match step
    case Abandon =>
    case Begin(w) => BeginBalances(pool, w, room);
    case Reserve(w) =>
      var after := Reserved(pool, w);
      SpentOfUpdate(pool.workers, w, after.workers[w]);
    case Paint(w, painted) =>
      var after := Painted(pool, w, painted);
      SpentOfUpdate(pool.workers, w, after.workers[w]);
      CostOfOneMore(pool.workers[w].phase.picture, pool.workers[w].phase.left[0]);
    case Finish(w) =>
      SpentOfUpdate(pool.workers, w, pool.workers[w].(phase := Between));
      KeptOfLonger(pool.sent, pool.workers[w].phase.picture);
  }

  lemma BeginBalances(pool: Pool, w: nat, room: nat)
    requires Balanced(pool, room) && Enabled(pool, Begin(w))
    ensures Balanced(Begun(pool, w), room)
  {
    hide Spent, Kept, ToPaint;
    var after := Begun(pool, w);
    SpentOfUpdate(pool.workers, w, after.workers[w]);
  }

  lemma {:induction false} NothingSpent(chunks: seq<seq<Job>>, k: nat)
    requires k <= |chunks|
    ensures Spent(Opened(0, chunks).workers[..k]) == 0
  {
    if k > 0 {
      NothingSpent(chunks, k - 1);
      assert Opened(0, chunks).workers[..k][..k - 1] == Opened(0, chunks).workers[..k - 1];
    }
  }

  // ---------- Looks ----------

  ghost predicate NoneAhead(looks: seq<Look>, job: Job) {
    forall i :: 0 <= i < |looks| ==> looks[i] in job.looks && (job.ahead.Some? ==> looks[i] !in job.ahead.value)
  }

  lemma {:induction false} ToPaintIsNotAhead(job: Job, k: nat)
    requires k <= |job.looks|
    ensures NoneAhead(ToPaint(job.looks[..k], job.ahead), job)
  {
    if k > 0 {
      assert job.looks[..k][..k - 1] == job.looks[..k - 1];
      ToPaintIsNotAhead(job, k - 1);
    }
  }

  ghost predicate PaintsRightly(worker: Worker) {
    worker.phase.Between?
    || (NoneAhead(worker.phase.picture.painted, worker.phase.picture.job)
        && NoneAhead(worker.phase.left, worker.phase.picture.job))
  }

  ghost predicate LooksRight(pool: Pool) {
    && (forall w :: 0 <= w < |pool.workers| ==> PaintsRightly(pool.workers[w]))
    && (forall i :: 0 <= i < |pool.sent| ==> NoneAhead(pool.sent[i].painted, pool.sent[i].job))
  }

  lemma StepPaintsRightly(pool: Pool, step: Step)
    requires LooksRight(pool) && Enabled(pool, step)
    ensures LooksRight(After(pool, step))
  {
    hide NoneAhead, ToPaint;
    if !step.Abandon? {
      var worker := pool.workers[step.w];
      assert PaintsRightly(worker);
      NoLooks(if worker.phase.Between? then worker.todo[0] else worker.phase.picture.job);
      match step
      case Begin(w) =>
        var job := worker.todo[0];
        ToPaintIsNotAhead(job, |job.looks|);
        assert job.looks[..|job.looks|] == job.looks;
      case Paint(w, painted) => OneLookMoved(worker.phase.picture.painted, worker.phase.left, worker.phase.picture.job);
      case _ =>
    }
  }

  lemma NoLooks(job: Job)
    ensures NoneAhead([], job)
  {}

  lemma OneLookMoved(painted: seq<Look>, left: seq<Look>, job: Job)
    requires NoneAhead(painted, job) && NoneAhead(left, job) && left != []
    ensures NoneAhead(painted + [left[0]], job) && NoneAhead(left[1..], job)
  {}

  // ---------- Jobs ----------

  /** The job a worker is at and the ones it has not begun. */
  function GivenTo(worker: Worker): multiset<Job> {
    multiset(worker.todo) + (if worker.phase.Between? then multiset{} else multiset{worker.phase.picture.job})
  }

  function Given(workers: seq<Worker>): multiset<Job> {
    if workers == [] then multiset{} else Given(workers[..|workers| - 1]) + GivenTo(workers[|workers| - 1])
  }

  lemma {:induction false} GivenOfUpdate(workers: seq<Worker>, w: nat, worker: Worker)
    requires w < |workers|
    ensures Given(workers[w := worker]) + GivenTo(workers[w]) == Given(workers) + GivenTo(worker)
  {
    hide GivenTo;
    var init, after := workers[..|workers| - 1], workers[w := worker];
    if w == |workers| - 1 {
      assert after[..|after| - 1] == init;
      Swap(Given(init), GivenTo(worker), GivenTo(workers[w]));
    } else {
      var last := GivenTo(workers[|workers| - 1]);
      assert after[..|after| - 1] == init[w := worker];
      GivenOfUpdate(init, w, worker);
      Swap(Given(init[w := worker]), last, GivenTo(workers[w]));
      Swap(Given(init), last, GivenTo(worker));
    }
  }

  function Decoded(tried: seq<Job>): seq<Job> {
    if tried == [] then []
    else Decoded(tried[..|tried| - 1]) + (if tried[|tried| - 1].decodes then [tried[|tried| - 1]] else [])
  }

  function JobsOf(sent: seq<Picture>): seq<Job> {
    if sent == [] then [] else JobsOf(sent[..|sent| - 1]) + [sent[|sent| - 1].job]
  }

  /** Each job has been tried or is with a worker, until the run is cancelled, and no job is tried that was
      not given; what was sent is what decoded, in the same order. */
  ghost predicate JobsRight(pool: Pool, jobs: multiset<Job>) {
    && (if pool.cancelled then multiset(pool.tried) + Given(pool.workers) <= jobs
       else multiset(pool.tried) + Given(pool.workers) == jobs)
    && pool.progress == |pool.tried|
    && JobsOf(pool.sent) == Decoded(pool.tried)
    && (forall w ::
          0 <= w < |pool.workers| && !pool.workers[w].phase.Between? ==> pool.workers[w].phase.picture.job.decodes)
  }

  lemma TriedLonger(tried: seq<Job>, job: Job)
    ensures Decoded(tried + [job]) == if job.decodes then Decoded(tried) + [job] else Decoded(tried)
    ensures multiset(tried + [job]) == multiset(tried) + multiset{job}
  {
    assert (tried + [job])[..|tried|] == tried;
  }

  lemma JobsOfLonger(sent: seq<Picture>, picture: Picture)
    ensures JobsOf(sent + [picture]) == JobsOf(sent) + [picture.job]
  {
    assert (sent + [picture])[..|sent|] == sent;
  }

  lemma SameGiven(workers: seq<Worker>, w: nat, worker: Worker)
    requires w < |workers| && GivenTo(worker) == GivenTo(workers[w])
    ensures Given(workers[w := worker]) == Given(workers)
  {
    hide Given, GivenTo;
    GivenOfUpdate(workers, w, worker);
    Cancel(Given(workers[w := worker]), Given(workers), GivenTo(worker));
  }

  lemma OneGivenLess(workers: seq<Worker>, w: nat, worker: Worker, job: Job)
    requires w < |workers| && GivenTo(workers[w]) == GivenTo(worker) + multiset{job}
    ensures Given(workers) == Given(workers[w := worker]) + multiset{job}
  {
    hide Given, GivenTo;
    GivenOfUpdate(workers, w, worker);
    var after := Given(workers[w := worker]);
    assert after + (GivenTo(worker) + multiset{job}) == (after + multiset{job}) + GivenTo(worker);
    Cancel(after + multiset{job}, Given(workers), GivenTo(worker));
  }

  lemma LessGiven(workers: seq<Worker>, w: nat, worker: Worker)
    requires w < |workers| && GivenTo(worker) <= GivenTo(workers[w])
    ensures Given(workers[w := worker]) <= Given(workers)
  {
    hide Given, GivenTo;
    GivenOfUpdate(workers, w, worker);
    var after, before, less, more := Given(workers[w := worker]), Given(workers), GivenTo(worker), GivenTo(workers[w]);
    forall x ensures after[x] <= before[x] {
      assert (after + more)[x] == (before + less)[x];
      assert less[x] <= more[x];
    }
  }

  lemma MovesOnRightly(pool: Pool, w: nat, phase: Phase, jobs: multiset<Job>, room: nat)
    requires JobsRight(pool, jobs) && w < |pool.workers|
    requires !pool.workers[w].phase.Between? && !phase.Between?
             && phase.picture.job == pool.workers[w].phase.picture.job
    ensures JobsRight(Put(pool, w, pool.workers[w].(phase := phase)).(room := room), jobs)
  {
    hide Given, Decoded, JobsOf;
    SameGiven(pool.workers, w, pool.workers[w].(phase := phase));
  }

  lemma FinishesRightly(pool: Pool, w: nat, jobs: multiset<Job>)
    requires JobsRight(pool, jobs) && w < |pool.workers| && pool.workers[w].phase.Ready?
    ensures JobsRight(Finished(pool, w), jobs)
  {
    hide Given, Decoded, JobsOf;
    var picture := pool.workers[w].phase.picture;
    OneGivenLess(pool.workers, w, pool.workers[w].(phase := Between), picture.job);
    TriedLonger(pool.tried, picture.job);
    JobsOfLonger(pool.sent, picture);
    Regroup(multiset(pool.tried), multiset{picture.job}, Given(pool.workers[w := pool.workers[w].(phase := Between)]));
  }

  lemma Regroup(a: multiset<Job>, b: multiset<Job>, c: multiset<Job>)
    ensures (a + b) + c == a + (c + b)
  {}

  lemma BeginsRightly(pool: Pool, w: nat, jobs: multiset<Job>)
    requires JobsRight(pool, jobs) && w < |pool.workers| && pool.workers[w].phase.Between? && pool.workers[w].todo != []
    ensures JobsRight(Begun(pool, w), jobs)
  {
    hide Given, Decoded, JobsOf, ToPaint;
    var job, rest := pool.workers[w].todo[0], pool.workers[w].todo[1..];
    assert pool.workers[w].todo == [job] + rest;
    if pool.cancelled {
      LessGiven(pool.workers, w, Worker([], Between));
    } else if !job.decodes {
      OneGivenLess(pool.workers, w, Worker(rest, Between), job);
      TriedLonger(pool.tried, job);
      Regroup(multiset(pool.tried), multiset{job}, Given(pool.workers[w := Worker(rest, Between)]));
    } else {
      SameGiven(pool.workers, w, Worker(rest, Ready(Picture(job, []), ToPaint(job.looks, job.ahead))));
    }
  }

  lemma StepKeepsJobs(pool: Pool, step: Step, jobs: multiset<Job>)
    requires JobsRight(pool, jobs) && Enabled(pool, step)
    ensures JobsRight(After(pool, step), jobs)
  {
    hide JobsRight;
    match step
    case Abandon => CancelKeepsJobs(pool, jobs);
    case Begin(w) => BeginsRightly(pool, w, jobs);
    case Reserve(w) => MovesOnRightly(pool, w, Reserved(pool, w).workers[w].phase, jobs, Reserved(pool, w).room);
    case Paint(w, painted) =>
      MovesOnRightly(pool, w, Painted(pool, w, painted).workers[w].phase, jobs, Painted(pool, w, painted).room);
    case Finish(w) => FinishesRightly(pool, w, jobs);
  }

  lemma CancelKeepsJobs(pool: Pool, jobs: multiset<Job>)
    requires JobsRight(pool, jobs)
    ensures JobsRight(pool.(cancelled := true), jobs)
  {
    hide Given, Decoded, JobsOf;
  }

  lemma {:induction false} AllGiven(chunks: seq<seq<Job>>, k: nat)
    requires k <= |chunks|
    ensures Given(Opened(0, chunks).workers[..k]) == multiset(Flat(chunks[..k]))
  {
    if k > 0 {
      AllGiven(chunks, k - 1);
      assert Opened(0, chunks).workers[..k][..k - 1] == Opened(0, chunks).workers[..k - 1];
      assert chunks[..k][..k - 1] == chunks[..k - 1];
    }
  }

  // ---------- Every run ----------

  ghost predicate Sound(pool: Pool, room: nat, chunks: seq<seq<Job>>) {
    Balanced(pool, room) && LooksRight(pool) && JobsRight(pool, multiset(Flat(chunks)))
  }

  lemma OpenedIsSound(room: nat, chunks: seq<seq<Job>>)
    ensures Sound(Opened(room, chunks), room, chunks)
  {
    hide Spent, Given;
    var workers := Opened(0, chunks).workers;
    assert Opened(room, chunks).workers == workers && workers[..|chunks|] == workers && chunks[..|chunks|] == chunks;
    NothingSpent(chunks, |chunks|);
    AllGiven(chunks, |chunks|);
  }

  lemma {:induction false} RunIsSound(room: nat, chunks: seq<seq<Job>>, steps: seq<Step>)
    ensures var last := Ran(room, chunks, steps);
            last.Some? ==> Sound(last.value, room, chunks)
  {
    hide Balanced, LooksRight, JobsRight, After, Enabled, Flat;
    if steps == [] {
      OpenedIsSound(room, chunks);
    } else {
      RunIsSound(room, chunks, steps[..|steps| - 1]);
      var before := Ran(room, chunks, steps[..|steps| - 1]);
      if before.Some? && Enabled(before.value, steps[|steps| - 1]) {
        StepBalances(before.value, steps[|steps| - 1], room);
        StepPaintsRightly(before.value, steps[|steps| - 1]);
        StepKeepsJobs(before.value, steps[|steps| - 1], multiset(Flat(chunks)));
      }
    }
  }

  // ---------- Main results ----------

  /** At every moment of every run, the room left and the bytes reserved and painted come to the room there
      was, so painting never goes over it. */
  lemma RoomIsKept(room: nat, chunks: seq<seq<Job>>, steps: seq<Step>)
    requires Ran(room, chunks, steps).Some?
    ensures var pool := Ran(room, chunks, steps).value;
            pool.room + Spent(pool.workers) + Kept(pool.sent) == room && Kept(pool.sent) <= room
  {
    hide Ran, Spent, Kept, LooksRight, JobsRight;
    RunIsSound(room, chunks, steps);
  }

  /** No look uploaded ahead of play is painted, and only looks the picture is shown in are. */
  lemma NoLookIsHeldTwice(room: nat, chunks: seq<seq<Job>>, steps: seq<Step>, i: nat, look: Look)
    requires Ran(room, chunks, steps).Some? && i < |Ran(room, chunks, steps).value.sent|
    ensures var picture := Ran(room, chunks, steps).value.sent[i];
            look in picture.painted ==>
              look in picture.job.looks && (picture.job.ahead.Some? ==> look !in picture.job.ahead.value)
  {
    hide Ran, Balanced, JobsRight;
    RunIsSound(room, chunks, steps);
    assert NoneAhead(Ran(room, chunks, steps).value.sent[i].painted, Ran(room, chunks, steps).value.sent[i].job);
  }

  lemma {:induction false} JobOf(sent: seq<Picture>, i: nat)
    requires i < |sent|
    ensures |JobsOf(sent)| == |sent| && JobsOf(sent)[i] == sent[i].job
  {
    if i < |sent| - 1 {
      JobOf(sent[..|sent| - 1], i);
    } else if |sent| > 1 {
      JobOf(sent[..|sent| - 1], 0);
    }
  }

  lemma {:induction false} DecodedWereTried(tried: seq<Job>, job: Job)
    requires job in Decoded(tried)
    ensures job in multiset(tried)
  {
    var init := tried[..|tried| - 1];
    assert tried == init + [tried[|tried| - 1]];
    if job in Decoded(init) {
      DecodedWereTried(init, job);
    }
  }

  /** A picture is sent for a job that was given. */
  lemma SentWasGiven(pool: Pool, jobs: seq<Job>, i: nat)
    requires JobsRight(pool, multiset(jobs)) && i < |pool.sent|
    ensures pool.sent[i].job in jobs
  {
    hide Decoded, JobsOf, Given;
    JobOf(pool.sent, i);
    DecodedWereTried(pool.tried, pool.sent[i].job);
    assert pool.sent[i].job in multiset(jobs);
  }

  /** What the plan is for: with one job for each number, no look the upload ahead holds is painted too, the
      looks it holds stay within its allowance, and those painted within theirs. */
  lemma TheAllowancesAreApart(
    jobs: seq<Job>, sizes: seq<Option<nat>>, shown: seq<(int, Look)>, allowance: nat,
    room: nat, chunks: seq<seq<Job>>, steps: seq<Step>, i: nat, look: Look)
    requires |sizes| == |jobs| && forall i, j :: 0 <= i < j < |jobs| ==> jobs[i].number != jobs[j].number
    requires var held := UploadedAhead(Costs(jobs, sizes, shown), allowance);
             Flat(chunks) == Planned(jobs, shown, held)
    requires Ran(room, chunks, steps).Some? && i < |Ran(room, chunks, steps).value.sent|
    ensures var costs := Costs(jobs, sizes, shown);
            var held, sent := UploadedAhead(costs, allowance), Ran(room, chunks, steps).value.sent;
            && (look in sent[i].painted ==>
                  look in sent[i].job.looks && !HeldAmong(shown, held, (sent[i].job.number, look)))
            && HeldBytes(costs, held) <= allowance
            && Kept(sent) <= room
  {
    hide Ran, UploadedAhead, HeldBytes, HeldLooks, HeldAmong, Kept, Spent, Balanced, LooksRight, Flat, Costs;
    OneCostEach(jobs, sizes, shown);
    var costs := Costs(jobs, sizes, shown);
    var held, sent := UploadedAhead(costs, allowance), Ran(room, chunks, steps).value.sent;
    HeldAsFarAsTheyFit(costs, allowance, 0);
    RoomIsKept(room, chunks, steps);
    RunIsSound(room, chunks, steps);
    SentWasGiven(Ran(room, chunks, steps).value, Flat(chunks), i);
    var at: nat :| at < |jobs| && Planned(jobs, shown, held)[at] == sent[i].job;
    PlannedExactly(jobs, shown, held, at, look);
    NoLookIsHeldTwice(room, chunks, steps, i, look);
  }

  /** Once the workers of a run that was not cancelled are done, every job has been tried once, the counter
      has reached their number, and every picture that decodes has been sent. */
  lemma EveryJobIsRunOnce(room: nat, chunks: seq<seq<Job>>, steps: seq<Step>)
    requires Ran(room, chunks, steps).Some?
    requires var pool := Ran(room, chunks, steps).value;
             !pool.cancelled && forall w :: 0 <= w < |pool.workers| ==> pool.workers[w] == Worker([], Between)
    ensures var pool := Ran(room, chunks, steps).value;
            && multiset(pool.tried) == multiset(Flat(chunks))
            && pool.progress == |Flat(chunks)|
            && JobsOf(pool.sent) == Decoded(pool.tried)
  {
    hide Ran, Balanced, LooksRight, Given, Flat, Decoded, JobsOf;
    RunIsSound(room, chunks, steps);
    var pool := Ran(room, chunks, steps).value;
    NothingGiven(pool.workers);
    assert multiset(pool.tried) == multiset(Flat(chunks));
    assert |multiset(pool.tried)| == |pool.tried| && |multiset(Flat(chunks))| == |Flat(chunks)|;
  }

  lemma {:induction false} NothingGiven(workers: seq<Worker>)
    requires forall w :: 0 <= w < |workers| ==> workers[w] == Worker([], Between)
    ensures Given(workers) == multiset{}
  {
    if workers != [] {
      NothingGiven(workers[..|workers| - 1]);
    }
  }

  // ---------- Getting there ----------

  /** The most steps a job takes: it is begun, each of its looks is reserved room for and painted, and it is
      finished. */
  function JobEffort(job: Job): nat {
    2 + 2 * |job.looks|
  }

  function TodoEffort(todo: seq<Job>): nat {
    if todo == [] then 0 else JobEffort(todo[0]) + TodoEffort(todo[1..])
  }

  function EffortOf(worker: Worker): nat {
    TodoEffort(worker.todo)
    + match worker.phase
      case Between => 0
      case Ready(_, left) => 1 + 2 * |left|
      case Holding(_, left) => 2 * |left|
  }

  predicate OfWorker(step: Step, w: nat) {
    !step.Abandon? && step.w == w
  }

  /** The steps of one worker in a run. */
  function StepsOf(steps: seq<Step>, w: nat): nat {
    if steps == [] then 0
    else StepsOf(steps[..|steps| - 1], w) + (if OfWorker(steps[|steps| - 1], w) then 1 else 0)
  }

  lemma {:induction false} ToPaintIsNoLonger(looks: seq<Look>, ahead: Option<seq<Look>>)
    ensures |ToPaint(looks, ahead)| <= |looks|
  {
    if looks != [] {
      ToPaintIsNoLonger(looks[..|looks| - 1], ahead);
    }
  }

  /** A worker's step brings it nearer to being done, and leaves the others where they are. */
  lemma StepIsProgress(pool: Pool, step: Step, w: nat)
    requires Enabled(pool, step) && w < |pool.workers|
    ensures var after := After(pool, step).workers;
            && |after| == |pool.workers|
            && EffortOf(after[w]) + (if OfWorker(step, w) then 1 else 0) <= EffortOf(pool.workers[w])
  {
    hide ToPaint;
    if step.Begin? {
      ToPaintIsNoLonger(pool.workers[step.w].todo[0].looks, pool.workers[step.w].todo[0].ahead);
    }
  }

  /** In every run a worker takes no more steps than its jobs and their looks allow. */
  lemma {:induction false} StepsAreBounded(room: nat, chunks: seq<seq<Job>>, steps: seq<Step>, w: nat)
    requires Ran(room, chunks, steps).Some? && w < |chunks|
    ensures var workers := Ran(room, chunks, steps).value.workers;
            |workers| == |chunks| && StepsOf(steps, w) + EffortOf(workers[w]) <= TodoEffort(chunks[w])
  {
    hide Enabled, After, EffortOf, TodoEffort;
    if steps == [] {
      assert EffortOf(Worker(chunks[w], Between)) == TodoEffort(chunks[w]) by { NothingBegun(chunks[w]); }
    } else {
      StepsAreBounded(room, chunks, steps[..|steps| - 1], w);
      StepIsProgress(Ran(room, chunks, steps[..|steps| - 1]).value, steps[|steps| - 1], w);
    }
  }

  lemma NothingBegun(todo: seq<Job>)
    ensures EffortOf(Worker(todo, Between)) == TodoEffort(todo)
  {}

  ghost predicate RoomIsForALook(pool: Pool) {
    forall w :: 0 <= w < |pool.workers| && pool.workers[w].phase.Holding? ==> pool.workers[w].phase.left != []
  }

  lemma StepHoldsForALook(pool: Pool, step: Step)
    requires RoomIsForALook(pool) && Enabled(pool, step)
    ensures RoomIsForALook(After(pool, step))
  {
    hide ToPaint;
  }

  lemma {:induction false} RunHoldsForALook(room: nat, chunks: seq<seq<Job>>, steps: seq<Step>)
    requires Ran(room, chunks, steps).Some?
    ensures RoomIsForALook(Ran(room, chunks, steps).value)
  {
    hide Enabled, After;
    if steps != [] {
      RunHoldsForALook(room, chunks, steps[..|steps| - 1]);
      StepHoldsForALook(Ran(room, chunks, steps[..|steps| - 1]).value, steps[|steps| - 1]);
    }
  }

  /** What a worker that is not done does next. */
  function NextOf(worker: Worker, w: nat, painted: bool): Step {
    match worker.phase
    case Between => Begin(w)
    case Ready(_, left) => if left == [] then Finish(w) else Reserve(w)
    case Holding(_, _) => Paint(w, painted)
  }

  /** In every run a worker that is not done can take its next step, whatever the others do and however the
      painting turns out. */
  lemma NoWorkerIsStuck(room: nat, chunks: seq<seq<Job>>, steps: seq<Step>, w: nat, painted: bool)
    requires Ran(room, chunks, steps).Some? && w < |Ran(room, chunks, steps).value.workers|
    requires Ran(room, chunks, steps).value.workers[w] != Worker([], Between)
    ensures var pool := Ran(room, chunks, steps).value;
            var step := NextOf(pool.workers[w], w, painted);
            OfWorker(step, w) && Enabled(pool, step)
  {
    hide Ran;
    RunHoldsForALook(room, chunks, steps);
  }

  /** So a run in which no worker can go on any more, which each can only so often, is one whose workers are all
      done. */
  lemma WorkersGetDone(room: nat, chunks: seq<seq<Job>>, steps: seq<Step>)
    requires Ran(room, chunks, steps).Some?
    requires forall step :: Enabled(Ran(room, chunks, steps).value, step) ==> step.Abandon?
    ensures var workers := Ran(room, chunks, steps).value.workers;
            forall w :: 0 <= w < |workers| ==> workers[w] == Worker([], Between)
  {
    hide Ran, Enabled;
    var workers := Ran(room, chunks, steps).value.workers;
    forall w | 0 <= w < |workers| ensures workers[w] == Worker([], Between) {
      if workers[w] != Worker([], Between) {
        NoWorkerIsStuck(room, chunks, steps, w, true);
        assert false;
      }
    }
  }
}
