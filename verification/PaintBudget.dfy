/** Decoding a chart's background pictures across workers that paint from one allowance
    (`fan_out`, `plan_uploads_ahead` and `decode_bga_job` in assets.rs). */
module PaintBudget {
  import opened Common

  datatype Look = Plain | Keyed

  /** A picture to decode: how many bytes one painted look of it takes, the looks it is shown in, and the
      looks its plan uploads ahead of play, if there is a plan. `decodes` says whether its file is one. */
  datatype Job = Job(number: int, cost: nat, looks: seq<Look>, ahead: Option<seq<Look>>, decodes: bool)

  // ---------- Splitting the jobs ----------

  /** The smallest whole number of chunks' length that needs no more than `threads` chunks. */
  function ChunkLength(total: nat, threads: nat): (length: nat)
    requires threads > 0
    ensures length > 0
  {
    var up := (total + threads - 1) / threads;
    if up > 0 then up else 1
  }

  function Flat<T>(chunks: seq<seq<T>>): seq<T> {
    if chunks == [] then [] else Flat(chunks[..|chunks| - 1]) + chunks[|chunks| - 1]
  }

  lemma FlatOfLonger<T>(chunks: seq<seq<T>>, chunk: seq<T>)
    ensures Flat(chunks + [chunk]) == Flat(chunks) + chunk
  {
    assert (chunks + [chunk])[..|chunks|] == chunks;
  }

  /** Every chunk but the last is full. */
  ghost predicate FullBut<T>(chunks: seq<seq<T>>, length: nat) {
    && (forall i :: 0 <= i < |chunks| ==> 0 < |chunks[i]| <= length)
    && (forall i :: 0 <= i < |chunks| - 1 ==> |chunks[i]| == length)
  }

  lemma {:induction false} FlatLength<T>(chunks: seq<seq<T>>, length: nat)
    requires forall i :: 0 <= i < |chunks| ==> |chunks[i]| == length
    ensures |Flat(chunks)| == |chunks| * length
  {
    if chunks != [] {
      FlatLength(chunks[..|chunks| - 1], length);
      OneMore(|chunks| - 1, length);
    }
  }

  lemma OneMore(n: nat, length: nat)
    ensures (n + 1) * length == n * length + length
  {}

  lemma ChunksFit(count: nat, total: nat, threads: nat)
    requires threads > 0 && count > 0 && (count - 1) * ChunkLength(total, threads) < total
    ensures count <= threads
  {
    var length := ChunkLength(total, threads);
    assert threads * length >= total;
    if count - 1 >= threads {
      Times(threads, count - 1, length);
      assert false;
    }
  }

  lemma Times(a: nat, b: nat, c: nat)
    requires a <= b
    ensures a * c <= b * c
  {}

  /** The jobs in their order, in at most as many chunks as there are workers. */
  method Chunks<T>(jobs: seq<T>, threads: nat) returns (chunks: seq<seq<T>>)
    requires threads > 0
    ensures Flat(chunks) == jobs
    ensures |chunks| <= threads
    ensures FullBut(chunks, ChunkLength(|jobs|, threads))
  {
    hide Flat, ChunkLength;
    chunks := [];
    FlatOfNone<T>();
    var chunk := ChunkLength(|jobs|, threads);
    for i := 0 to |jobs|
      invariant Flat(chunks) == jobs[..i]
      invariant FullBut(chunks, chunk)
    {
      if chunks != [] && |chunks[|chunks| - 1]| < chunk {
        ghost var init, last := chunks[..|chunks| - 1], chunks[|chunks| - 1];
        assert chunks == init + [last];
        FlatOfLonger(init, last);
        FlatOfLonger(init, last + [jobs[i]]);
        chunks := chunks[|chunks| - 1 := chunks[|chunks| - 1] + [jobs[i]]];
        assert chunks == init + [last + [jobs[i]]];
        assert Flat(init) + (last + [jobs[i]]) == jobs[..i] + [jobs[i]];
      } else {
        FlatOfLonger(chunks, [jobs[i]]);
        chunks := chunks + [[jobs[i]]];
      }
      assert jobs[..i + 1] == jobs[..i] + [jobs[i]];
    }
    assert jobs[..|jobs|] == jobs;
    if chunks != [] {
      ghost var init := chunks[..|chunks| - 1];
      assert chunks == init + [chunks[|chunks| - 1]];
      FlatOfLonger(init, chunks[|chunks| - 1]);
      FlatLength(init, chunk);
      ChunksFit(|chunks|, |jobs|, threads);
    }
  }

  lemma FlatOfNone<T>()
    ensures Flat<T>([]) == []
  {}

  // ---------- The plan ----------

  /** Where the picture `number` is among the jobs, as the last of them that has it. */
  function IndexOf(jobs: seq<Job>, number: int): Option<nat> {
    if jobs == [] then None
    else if jobs[|jobs| - 1].number == number then Some(|jobs| - 1)
    else IndexOf(jobs[..|jobs| - 1], number)
  }

  lemma {:induction false} IndexIsOf(jobs: seq<Job>, number: int)
    ensures match IndexOf(jobs, number)
            case Some(at) => at < |jobs| && jobs[at].number == number
            case None => forall i :: 0 <= i < |jobs| ==> jobs[i].number != number
  {
    if jobs != [] {
      IndexIsOf(jobs[..|jobs| - 1], number);
    }
  }

  /** The looks of one picture among those held ahead of play. */
  function HeldLooks(jobs: seq<Job>, shown: seq<(int, Look)>, held: seq<bool>, at: nat): seq<Look>
    requires |held| == |shown|
  {
    if shown == [] then []
    else
      HeldLooks(jobs, shown[..|shown| - 1], held[..|held| - 1], at)
      + (if held[|held| - 1] && IndexOf(jobs, shown[|shown| - 1].0) == Some(at) then [shown[|shown| - 1].1] else [])
  }

  /** Every job told which of its looks are uploaded ahead. */
  function Planned(jobs: seq<Job>, shown: seq<(int, Look)>, held: seq<bool>): seq<Job>
    requires |held| == |shown|
  {
    seq(|jobs|, at requires 0 <= at < |jobs| => jobs[at].(ahead := Some(HeldLooks(jobs, shown, held, at))))
  }

  /** What each look shown costs: nothing is known of a picture that is no job, that is shown in no look, or
      whose file does not give its size. */
  function Costs(jobs: seq<Job>, sizes: seq<Option<nat>>, shown: seq<(int, Look)>): seq<Option<nat>>
    requires |sizes| == |jobs|
  {
    seq(|shown|, k requires 0 <= k < |shown| =>
      match IndexOf(jobs, shown[k].0)
      case Some(at) => if at < |jobs| && jobs[at].looks != [] then sizes[at] else None
      case None => None)
  }

  /** The bytes of the looks held. */
  function HeldBytes(costs: seq<Option<nat>>, held: seq<bool>): nat
    requires |held| == |costs|
  {
    if costs == [] then 0
    else
      var n := |costs| - 1;
      HeldBytes(costs[..n], held[..n]) + (if held[n] && costs[n].Some? then costs[n].value else 0)
  }

  /** Which looks the upload ahead holds. */
  function UploadedAhead(costs: seq<Option<nat>>, allowance: nat): (held: seq<bool>)
    ensures |held| == |costs|
  {
    if costs == [] then []
    else
      var n := |costs| - 1;
      var before := UploadedAhead(costs[..n], allowance);
      before + [costs[n].Some? && HeldBytes(costs[..n], before) + costs[n].value <= allowance]
  }

  /** The looks held stay within the allowance, and a look whose cost is known is left out exactly when it
      would go over it on top of those held before it. */
  lemma {:induction false} HeldAsFarAsTheyFit(costs: seq<Option<nat>>, allowance: nat, k: nat)
    ensures HeldBytes(costs, UploadedAhead(costs, allowance)) <= allowance
    ensures k < |costs| && costs[k].Some? ==>
              var held := UploadedAhead(costs, allowance);
              !held[k] <==> HeldBytes(costs[..k], held[..k]) + costs[k].value > allowance
    ensures k < |costs| && costs[k].None? ==> !UploadedAhead(costs, allowance)[k]
  {
    if costs != [] {
      var n := |costs| - 1;
      var held, before := UploadedAhead(costs, allowance), UploadedAhead(costs[..n], allowance);
      assert held[..n] == before;
      HeldAsFarAsTheyFit(costs[..n], allowance, k);
      if k < n {
        assert costs[..n][..k] == costs[..k] && before[..k] == held[..k];
      }
    }
  }

  method UploadAhead(costs: seq<Option<nat>>, allowance: nat) returns (held: seq<bool>)
    ensures held == UploadedAhead(costs, allowance)
  {
    held := [];
    var bytes: nat := 0;
    for k := 0 to |costs|
      invariant held == UploadedAhead(costs[..k], allowance)
      invariant bytes == HeldBytes(costs[..k], held)
    {
      assert costs[..k + 1][..k] == costs[..k];
      assert (held + [true])[..k] == held && (held + [false])[..k] == held;
      var fits := costs[k].Some? && bytes + costs[k].value <= allowance;
      if fits {
        bytes := bytes + costs[k].value;
      }
      held := held + [fits];
    }
    assert costs[..|costs|] == costs;
  }

  /** `sizes` is what the files give. */
  method PlanUploadsAhead(jobs: seq<Job>, sizes: seq<Option<nat>>, shown: seq<(int, Look)>, allowance: nat)
    returns (planned: seq<Job>)
    requires |sizes| == |jobs|
    ensures planned == Planned(jobs, shown, UploadedAhead(Costs(jobs, sizes, shown), allowance))
  {
    hide UploadedAhead, Costs;
    var held := UploadAhead(Costs(jobs, sizes, shown), allowance);
    assert |held| == |shown| by { OneCostEach(jobs, sizes, shown); }
    var ahead := new seq<Look>[|jobs|](_ => []);
    for k := 0 to |shown|
      invariant forall at :: 0 <= at < |jobs| ==> ahead[at] == HeldLooks(jobs, shown[..k], held[..k], at)
    {
      assert shown[..k + 1][..k] == shown[..k] && held[..k + 1][..k] == held[..k];
      IndexIsOf(jobs, shown[k].0);
      var index := IndexOf(jobs, shown[k].0);
      if index.Some? && held[k] {
        ahead[index.value] := ahead[index.value] + [shown[k].1];
      }
    }
    assert shown[..|shown|] == shown && held[..|held|] == held;
    planned := [];
    for at := 0 to |jobs|
      invariant planned == Planned(jobs, shown, held)[..at]
      invariant forall i :: 0 <= i < |jobs| ==> ahead[i] == HeldLooks(jobs, shown, held, i)
    {
      planned := planned + [jobs[at].(ahead := Some(ahead[at]))];
    }
  }

  lemma OneCostEach(jobs: seq<Job>, sizes: seq<Option<nat>>, shown: seq<(int, Look)>)
    requires |sizes| == |jobs|
    ensures |Costs(jobs, sizes, shown)| == |shown|
  {}

  ghost predicate HeldAmong(shown: seq<(int, Look)>, held: seq<bool>, entry: (int, Look))
    requires |held| == |shown|
  {
    exists k :: 0 <= k < |shown| && shown[k] == entry && held[k]
  }

  lemma HeldAmongLonger(shown: seq<(int, Look)>, held: seq<bool>, entry: (int, Look))
    requires |held| == |shown| > 0
    ensures var n := |shown| - 1;
            HeldAmong(shown, held, entry) <==> HeldAmong(shown[..n], held[..n], entry) || (shown[n] == entry && held[n])
  {
    var n := |shown| - 1;
    if HeldAmong(shown[..n], held[..n], entry) {
      var k :| 0 <= k < n && shown[..n][k] == entry && held[..n][k];
      assert shown[k] == entry && held[k];
    }
    if HeldAmong(shown, held, entry) {
      var k :| 0 <= k < |shown| && shown[k] == entry && held[k];
      assert k < n ==> shown[..n][k] == entry && held[..n][k];
    }
  }

  /** With one job for each number, a look of a job is planned as uploaded ahead exactly when it is one of
      the held ones. */
  lemma {:induction false} PlannedExactly(jobs: seq<Job>, shown: seq<(int, Look)>, held: seq<bool>, at: nat, look: Look)
    requires |held| == |shown| && at < |jobs| && forall i, j :: 0 <= i < j < |jobs| ==> jobs[i].number != jobs[j].number
    ensures look in HeldLooks(jobs, shown, held, at) <==> HeldAmong(shown, held, (jobs[at].number, look))
  {
    hide HeldAmong, IndexOf;
    if shown == [] {
      NothingHeld(shown, held, (jobs[at].number, look));
    } else {
      var n := |shown| - 1;
      PlannedExactly(jobs, shown[..n], held[..n], at, look);
      HeldAmongLonger(shown, held, (jobs[at].number, look));
      IndexIsOf(jobs, shown[n].0);
    }
  }

  lemma NothingHeld(shown: seq<(int, Look)>, held: seq<bool>, entry: (int, Look))
    requires |held| == |shown| == 0
    ensures !HeldAmong(shown, held, entry)
  {}

  // ---------- Painting ----------

  /** The looks a worker paints: those of the picture that are not uploaded ahead. */
  function ToPaint(looks: seq<Look>, ahead: Option<seq<Look>>): seq<Look> {
    if looks == [] then []
    else
      ToPaint(looks[..|looks| - 1], ahead)
      + (if ahead.Some? && looks[|looks| - 1] in ahead.value then [] else [looks[|looks| - 1]])
  }

  /** A decoded picture with the looks painted for it. */
  datatype Picture = Picture(job: Job, painted: seq<Look>)

  /** A worker is between two jobs, is about to paint the next of `left`, or holds room for it. */
  datatype Phase = Between | Ready(picture: Picture, left: seq<Look>) | Holding(picture: Picture, left: seq<Look>)

  datatype Worker = Worker(todo: seq<Job>, phase: Phase)

  /** `tried` are the jobs counted as attempted, in the order they were. */
  datatype Pool = Pool(
    room: nat, cancelled: bool, progress: nat, workers: seq<Worker>, tried: seq<Job>, sent: seq<Picture>)

  datatype Step = Abandon | Begin(w: nat) | Reserve(w: nat) | Paint(w: nat, painted: bool) | Finish(w: nat)

  predicate Enabled(pool: Pool, step: Step) {
    match step
    case Abandon => true
    case Begin(w) => w < |pool.workers| && pool.workers[w].phase.Between? && pool.workers[w].todo != []
    case Reserve(w) => w < |pool.workers| && pool.workers[w].phase.Ready? && pool.workers[w].phase.left != []
    case Paint(w, _) => w < |pool.workers| && pool.workers[w].phase.Holding? && pool.workers[w].phase.left != []
    case Finish(w) => w < |pool.workers| && pool.workers[w].phase.Ready? && pool.workers[w].phase.left == []
  }

  function Put(pool: Pool, w: nat, worker: Worker): Pool
    requires w < |pool.workers|
  {
    pool.(workers := pool.workers[w := worker])
  }

  function Begun(pool: Pool, w: nat): Pool
    requires w < |pool.workers| && pool.workers[w].todo != []
  {
    var job, rest := pool.workers[w].todo[0], pool.workers[w].todo[1..];
    if pool.cancelled then Put(pool, w, Worker([], Between))
    else if !job.decodes then
      Put(pool, w, Worker(rest, Between)).(progress := pool.progress + 1, tried := pool.tried + [job])
    else Put(pool, w, Worker(rest, Ready(Picture(job, []), ToPaint(job.looks, job.ahead))))
  }

  /** Room is taken if there is enough; otherwise no more of this picture is painted. */
  function Reserved(pool: Pool, w: nat): Pool
    requires w < |pool.workers| && pool.workers[w].phase.Ready?
  {
    var worker, phase := pool.workers[w], pool.workers[w].phase;
    if pool.room < phase.picture.job.cost then Put(pool, w, worker.(phase := Ready(phase.picture, [])))
    else Put(pool, w, worker.(phase := Holding(phase.picture, phase.left))).(room := pool.room - phase.picture.job.cost)
  }

  /** A look that turns out to need no painting gives its room back. */
  function Painted(pool: Pool, w: nat, painted: bool): Pool
    requires w < |pool.workers| && pool.workers[w].phase.Holding? && pool.workers[w].phase.left != []
  {
    var worker, phase := pool.workers[w], pool.workers[w].phase;
    var was := phase.picture;
    var picture := if painted then was.(painted := was.painted + [phase.left[0]]) else was;
    Put(pool, w, worker.(phase := Ready(picture, phase.left[1..])))
    .(room := if painted then pool.room else pool.room + was.job.cost)
  }

  function Finished(pool: Pool, w: nat): Pool
    requires w < |pool.workers| && pool.workers[w].phase.Ready?
  {
    var picture := pool.workers[w].phase.picture;
    Put(pool, w, pool.workers[w].(phase := Between))
    .(sent := pool.sent + [picture], progress := pool.progress + 1, tried := pool.tried + [picture.job])
  }

  function After(pool: Pool, step: Step): Pool
    requires Enabled(pool, step)
  {
    match step
    case Abandon => pool.(cancelled := true)
    case Begin(w) => Begun(pool, w)
    case Reserve(w) => Reserved(pool, w)
    case Paint(w, painted) => Painted(pool, w, painted)
    case Finish(w) => Finished(pool, w)
  }

  function Opened(room: nat, chunks: seq<seq<Job>>): Pool {
    Pool(room, false, 0, seq(|chunks|, i requires 0 <= i < |chunks| => Worker(chunks[i], Between)), [], [])
  }

  function Ran(room: nat, chunks: seq<seq<Job>>, steps: seq<Step>): Option<Pool> {
    if steps == [] then Some(Opened(room, chunks))
    else
      match Ran(room, chunks, steps[..|steps| - 1])
      case None => None
      case Some(pool) => if Enabled(pool, steps[|steps| - 1]) then Some(After(pool, steps[|steps| - 1])) else None
  }
}
