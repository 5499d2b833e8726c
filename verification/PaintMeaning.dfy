/** What the decode workers come to: how the jobs are split, what the looks cost, and that with room enough every look
    the upload ahead does not hold is painted. */
module PaintMeaning {
  import opened Common
  import opened PaintBudget
  import opened PaintRuns

  // ---------- Splitting and costing ----------

  /** The chunks are as short as the workers allow. */
  lemma ChunksAreAsShortAsTheyCan(total: nat, threads: nat, length: nat)
    requires threads > 0 && length > 0
    ensures length * threads >= total <==> length >= ChunkLength(total, threads)
  {
    var up := (total + threads - 1) / threads;
    assert up * threads >= total && (up > 0 ==> (up - 1) * threads < total);
    if length >= up {
      Times(up, length, threads);
    } else {
      Times(length, up - 1, threads);
    }
  }

  /** With one job for each number, a look costs what the file of its picture gives, if its picture is shown at all,
      and a look of no job costs nothing that is known. */
  lemma CostsAreTheFiles(jobs: seq<Job>, sizes: seq<Option<nat>>, shown: seq<(int, Look)>, k: nat, at: nat)
    requires |sizes| == |jobs| && k < |shown| && forall i, j :: 0 <= i < j < |jobs| ==> jobs[i].number != jobs[j].number
    ensures |Costs(jobs, sizes, shown)| == |shown|
    ensures at < |jobs| && jobs[at].number == shown[k].0 ==>
              Costs(jobs, sizes, shown)[k] == if jobs[at].looks == [] then None else sizes[at]
    ensures (forall i :: 0 <= i < |jobs| ==> jobs[i].number != shown[k].0) ==> Costs(jobs, sizes, shown)[k].None?
  {
    hide IndexOf;
    IndexIsOf(jobs, shown[k].0);
  }

  /** What some looks hold together, one after another. */
  function Together(costs: seq<Option<nat>>, held: seq<bool>): nat
    requires |held| == |costs|
  {
    if costs == [] then 0
    else
      (match costs[0] case Some(bytes) => if held[0] then bytes else 0 case None => 0) + Together(costs[1..], held[1..])
  }

  lemma {:induction false} TogetherOfLonger(costs: seq<Option<nat>>, held: seq<bool>)
    requires |held| == |costs| > 0
    ensures var n := |costs| - 1;
            Together(costs, held)
            == Together(costs[..n], held[..n])
               + (match costs[n] case Some(bytes) => if held[n] then bytes else 0 case None => 0)
  {
    var n := |costs| - 1;
    if n > 0 {
      TogetherOfLonger(costs[1..], held[1..]);
      assert costs[1..][..n - 1] == costs[..n][1..] && held[1..][..n - 1] == held[..n][1..];
    }
  }

  lemma {:induction false} HeldIsTogether(costs: seq<Option<nat>>, held: seq<bool>)
    requires |held| == |costs|
    ensures HeldBytes(costs, held) == Together(costs, held)
  {
    if costs != [] {
      HeldIsTogether(costs[..|costs| - 1], held[..|costs| - 1]);
      TogetherOfLonger(costs, held);
    }
  }

  /** A look whose bytes are known is held exactly when it fits in the allowance with the ones held before it. */
  lemma LooksAreHeldInOrder(costs: seq<Option<nat>>, allowance: nat, k: nat)
    requires k < |costs|
    ensures var held := UploadedAhead(costs, allowance);
            && Together(costs, held) <= allowance
            && (held[k] <==> costs[k].Some? && Together(costs[..k], held[..k]) + costs[k].value <= allowance)
  {
    var held := UploadedAhead(costs, allowance);
    HeldAsFarAsTheyFit(costs, allowance, k);
    HeldIsTogether(costs, held);
    HeldIsTogether(costs[..k], held[..k]);
  }

  // ---------- Room enough ----------

  /** The bytes a job takes if all its looks are painted. */
  function WholeCost(job: Job): nat {
    |job.looks| * job.cost
  }

  function WholeCosts(jobs: seq<Job>): nat {
    if jobs == [] then 0 else WholeCost(jobs[0]) + WholeCosts(jobs[1..])
  }

  /** The bytes a worker may still ask for. */
  function Needed(worker: Worker): nat {
    WholeCosts(worker.todo)
    + match worker.phase
      case Between => 0
      case Ready(picture, left) => |left| * picture.job.cost
      case Holding(picture, left) => if left == [] then 0 else (|left| - 1) * picture.job.cost
  }

  function AllNeeded(workers: seq<Worker>): nat {
    if workers == [] then 0 else AllNeeded(workers[..|workers| - 1]) + Needed(workers[|workers| - 1])
  }

  lemma {:induction false} NeededOfUpdate(workers: seq<Worker>, w: nat, worker: Worker)
    requires w < |workers|
    ensures AllNeeded(workers[w := worker]) + Needed(workers[w]) == AllNeeded(workers) + Needed(worker)
  {
    hide Needed;
    var init, after := workers[..|workers| - 1], workers[w := worker];
    if w == |workers| - 1 {
      assert after[..|after| - 1] == init;
    } else {
      assert after[..|after| - 1] == init[w := worker];
      NeededOfUpdate(init, w, worker);
    }
  }

  lemma {:induction false} NeededIsPart(workers: seq<Worker>, w: nat)
    requires w < |workers|
    ensures Needed(workers[w]) <= AllNeeded(workers)
  {
    if w < |workers| - 1 {
      NeededIsPart(workers[..|workers| - 1], w);
    }
  }

  /** What is painted and what is left of a picture is what is to be painted of it. */
  ghost predicate PaintsAll(worker: Worker) {
    match worker.phase
    case Between => true
    case Ready(picture, left) => picture.painted + left == ToPaint(picture.job.looks, picture.job.ahead)
    case Holding(picture, left) =>
      left != [] && picture.painted + left == ToPaint(picture.job.looks, picture.job.ahead)
  }

  ghost predicate Plenty(pool: Pool) {
    && AllNeeded(pool.workers) <= pool.room
    && (forall w :: 0 <= w < |pool.workers| ==> PaintsAll(pool.workers[w]))
    && (forall i :: 0 <= i < |pool.sent| ==>
          pool.sent[i].painted == ToPaint(pool.sent[i].job.looks, pool.sent[i].job.ahead))
  }

  lemma LessTimes(a: nat, b: nat, c: nat)
    requires a <= b
    ensures a * c <= b * c
  {}

  lemma OneLess(n: nat, c: nat)
    requires n > 0
    ensures (n - 1) * c + c == n * c
  {}

  lemma BeginLeavesPlenty(pool: Pool, w: nat)
    requires Plenty(pool) && Enabled(pool, Begin(w))
    ensures Plenty(Begun(pool, w))
  {
    hide ToPaint, AllNeeded;
    var worker, job := pool.workers[w], pool.workers[w].todo[0];
    var after := Begun(pool, w).workers[w];
    ToPaintIsNoLonger(job.looks, job.ahead);
    LessTimes(|ToPaint(job.looks, job.ahead)|, |job.looks|, job.cost);
    assert [] + ToPaint(job.looks, job.ahead) == ToPaint(job.looks, job.ahead);
    NeededOfUpdate(pool.workers, w, after);
    assert Needed(after) <= Needed(worker);
  }

  lemma ReserveLeavesPlenty(pool: Pool, w: nat)
    requires Plenty(pool) && Enabled(pool, Reserve(w))
    ensures Plenty(Reserved(pool, w))
  {
    hide ToPaint, AllNeeded, WholeCosts;
    var phase := pool.workers[w].phase;
    NeededIsPart(pool.workers, w);
    OneLess(|phase.left|, phase.picture.job.cost);
    NeededOfUpdate(pool.workers, w, Reserved(pool, w).workers[w]);
  }

  lemma PaintLeavesPlenty(pool: Pool, w: nat)
    requires Plenty(pool) && Enabled(pool, Paint(w, true))
    ensures Plenty(Painted(pool, w, true))
  {
    hide ToPaint, AllNeeded, WholeCosts;
    var phase := pool.workers[w].phase;
    assert phase.left == [phase.left[0]] + phase.left[1..];
    assert (phase.picture.painted + [phase.left[0]]) + phase.left[1..] == phase.picture.painted + phase.left;
    NeededOfUpdate(pool.workers, w, Painted(pool, w, true).workers[w]);
  }

  lemma FinishLeavesPlenty(pool: Pool, w: nat)
    requires Plenty(pool) && Enabled(pool, Finish(w))
    ensures Plenty(Finished(pool, w))
  {
    hide ToPaint, AllNeeded, WholeCosts;
    var picture := pool.workers[w].phase.picture;
    assert PaintsAll(pool.workers[w]);
    assert picture.painted + [] == picture.painted;
    NeededOfUpdate(pool.workers, w, Finished(pool, w).workers[w]);
  }

  lemma {:induction false} OpenedNeeds(chunks: seq<seq<Job>>, k: nat)
    requires k <= |chunks|
    ensures AllNeeded(Opened(0, chunks).workers[..k]) == WholeCosts(Flat(chunks[..k]))
  {
    if k > 0 {
      OpenedNeeds(chunks, k - 1);
      assert Opened(0, chunks).workers[..k][..k - 1] == Opened(0, chunks).workers[..k - 1];
      assert chunks[..k][..k - 1] == chunks[..k - 1];
      WholeCostsOfTwo(Flat(chunks[..k - 1]), chunks[k - 1]);
    }
  }

  lemma {:induction false} WholeCostsOfTwo(a: seq<Job>, b: seq<Job>)
    ensures WholeCosts(a + b) == WholeCosts(a) + WholeCosts(b)
  {
    if a == [] {
      assert a + b == b;
    } else {
      assert (a + b)[1..] == a[1..] + b;
      WholeCostsOfTwo(a[1..], b);
    }
  }

  ghost predicate EveryPaintingPaints(steps: seq<Step>) {
    forall i :: 0 <= i < |steps| && steps[i].Paint? ==> steps[i].painted
  }

  lemma {:induction false} RunLeavesPlenty(room: nat, chunks: seq<seq<Job>>, steps: seq<Step>)
    requires Ran(room, chunks, steps).Some? && EveryPaintingPaints(steps) && WholeCosts(Flat(chunks)) <= room
    ensures Plenty(Ran(room, chunks, steps).value)
  {
    hide Plenty, Enabled, After, Flat, WholeCosts;
    if steps == [] {
      OpenedHasPlenty(room, chunks);
    } else {
      var init, step := steps[..|steps| - 1], steps[|steps| - 1];
      RunLeavesPlenty(room, chunks, init);
      StepLeavesPlenty(Ran(room, chunks, init).value, step);
    }
  }

  lemma OpenedHasPlenty(room: nat, chunks: seq<seq<Job>>)
    requires WholeCosts(Flat(chunks)) <= room
    ensures Plenty(Opened(room, chunks))
  {
    hide AllNeeded, Flat, WholeCosts;
    OpenedNeeds(chunks, |chunks|);
    assert Opened(0, chunks).workers[..|chunks|] == Opened(room, chunks).workers && chunks[..|chunks|] == chunks;
  }

  lemma StepLeavesPlenty(pool: Pool, step: Step)
    requires Plenty(pool) && Enabled(pool, step) && (step.Paint? ==> step.painted)
    ensures Plenty(After(pool, step))
  {
    match step
    case Abandon =>
    case Begin(w) => BeginLeavesPlenty(pool, w);
    case Reserve(w) => ReserveLeavesPlenty(pool, w);
    case Paint(w, _) => PaintLeavesPlenty(pool, w);
    case Finish(w) => FinishLeavesPlenty(pool, w);
  }

  lemma {:induction false} ToPaintExactly(looks: seq<Look>, ahead: Option<seq<Look>>, look: Look)
    ensures look in ToPaint(looks, ahead) <==> look in looks && (ahead.None? || look !in ahead.value)
  {
    if looks != [] {
      ToPaintExactly(looks[..|looks| - 1], ahead, look);
      assert looks == looks[..|looks| - 1] + [looks[|looks| - 1]];
    }
  }

  /** In every run with room for all the looks, in which none turns out to need no painting, a picture is sent with
      every look it is shown in painted that is not planned ahead. */
  lemma EveryLookIsPainted(room: nat, chunks: seq<seq<Job>>, steps: seq<Step>, i: nat, look: Look)
    requires Ran(room, chunks, steps).Some? && i < |Ran(room, chunks, steps).value.sent|
    requires EveryPaintingPaints(steps) && WholeCosts(Flat(chunks)) <= room
    ensures var picture := Ran(room, chunks, steps).value.sent[i];
            look in picture.painted
            <==> look in picture.job.looks && (picture.job.ahead.None? || look !in picture.job.ahead.value)
  {
    hide Ran, ToPaint, AllNeeded, Flat, WholeCosts;
    RunLeavesPlenty(room, chunks, steps);
    var picture := Ran(room, chunks, steps).value.sent[i];
    ToPaintExactly(picture.job.looks, picture.job.ahead, look);
  }

  // ---------- Giving up ----------

  /** In every run, once it is cancelled no worker begins another picture. */
  lemma {:induction false} NothingIsBegunOnceCancelled(
    room: nat, chunks: seq<seq<Job>>, steps: seq<Step>, k: nat, w: nat)
    requires k <= |steps| && Ran(room, chunks, steps[..k]).Some? && Ran(room, chunks, steps[..k]).value.cancelled
    requires Ran(room, chunks, steps).Some? && w < |Ran(room, chunks, steps[..k]).value.workers|
    ensures var before, after := Ran(room, chunks, steps[..k]).value, Ran(room, chunks, steps).value;
            && after.cancelled && |after.workers| == |before.workers|
            && AtMostGoesOn(before.workers[w], after.workers[w])
    decreases |steps|
  {
    hide Enabled, After;
    if k == |steps| {
      assert steps[..k] == steps;
    } else {
      var init := steps[..|steps| - 1];
      assert init[..k] == steps[..k];
      NothingIsBegunOnceCancelled(room, chunks, init, k, w);
      CancelledStep(Ran(room, chunks, init).value, steps[|steps| - 1], w);
    }
  }

  lemma CancelledStep(pool: Pool, step: Step, w: nat)
    requires pool.cancelled && Enabled(pool, step) && w < |pool.workers|
    ensures var after := After(pool, step);
            after.cancelled && |after.workers| == |pool.workers| && AtMostGoesOn(pool.workers[w], after.workers[w])
  {
    hide ToPaint;
  }

  /** A worker that goes on with the picture it is at, or is at none. */
  predicate AtMostGoesOn(worker: Worker, after: Worker) {
    after.phase.Between? || (!worker.phase.Between? && after.phase.picture.job == worker.phase.picture.job)
  }
}
