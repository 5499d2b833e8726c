/** Reading a batch of charts across workers that share a cursor (`read_batch` in chart_pattern.rs). */
module ChartReading {
  import opened Common
  import opened Multisets
  import opened StableSort

  /** What reading a chart comes to. */
  datatype Outcome = Unreadable(reason: string) | OtherMode(md5: string) | Pattern(md5: string, document: seq<int>)

  /** A worker takes the next index, or reads the chart it took, or is done. */
  datatype Phase = Free | Took(index: nat) | Over

  datatype Worker = Worker(phase: Phase, read: seq<Keyed<Outcome>>)

  datatype Pool = Pool(cursor: nat, workers: seq<Worker>)

  datatype Step = FetchAdd(w: nat) | ReadChart(w: nat)

  function Opened(workers: nat): Pool {
    Pool(0, seq(workers, _ => Worker(Free, [])))
  }

  predicate Enabled(pool: Pool, step: Step) {
    step.w < |pool.workers|
      && (if step.FetchAdd? then pool.workers[step.w].phase.Free? else pool.workers[step.w].phase.Took?)
  }

  function Put(pool: Pool, w: nat, worker: Worker): Pool
    requires w < |pool.workers|
  {
    pool.(workers := pool.workers[w := worker])
  }

  function Stepped(paths: seq<string>, outcome: string -> Outcome, pool: Pool, step: Step): Pool
    requires Enabled(pool, step)
  {
    var w, worker := step.w, pool.workers[step.w];
    match step
    case FetchAdd(_) =>
      Put(pool, w, worker.(phase := if pool.cursor < |paths| then Took(pool.cursor) else Over))
      .(cursor := pool.cursor + 1)
    case ReadChart(_) =>
      var index := worker.phase.index;
      if index < |paths| then Put(pool, w, Worker(Free, worker.read + [Keyed(index, outcome(paths[index]))])) else pool
  }

  function Ran(paths: seq<string>, outcome: string -> Outcome, workers: nat, steps: seq<Step>): Option<Pool> {
    if steps == [] then Some(Opened(workers))
    else
      match Ran(paths, outcome, workers, steps[..|steps| - 1])
      case None => None
      case Some(pool) =>
        if Enabled(pool, steps[|steps| - 1]) then Some(Stepped(paths, outcome, pool, steps[|steps| - 1])) else None
  }

  /** What the workers have read, one worker's after another's. */
  function Joined(workers: seq<Worker>): seq<Keyed<Outcome>> {
    if workers == [] then [] else Joined(workers[..|workers| - 1]) + workers[|workers| - 1].read
  }

  function Items(entries: seq<Keyed<Outcome>>): seq<Outcome> {
    seq(|entries|, i requires 0 <= i < |entries| => entries[i].item)
  }

  /** What the batch gives once every worker is done. */
  function BatchOf(pool: Pool): seq<Outcome> {
    Items(SortByKey(Joined(pool.workers)))
  }

  /** One reader going through the paths in order. */
  function InOrder(paths: seq<string>, outcome: string -> Outcome): seq<Outcome> {
    seq(|paths|, i requires 0 <= i < |paths| => outcome(paths[i]))
  }

  // ---------- Every chart is read once ----------

  function EntryAt(paths: seq<string>, outcome: string -> Outcome, index: nat): Keyed<Outcome>
    requires index < |paths|
  {
    Keyed(index, outcome(paths[index]))
  }

  /** The entries of the first `k` paths. */
  function Entries(paths: seq<string>, outcome: string -> Outcome, k: nat): seq<Keyed<Outcome>>
    requires k <= |paths|
  {
    if k == 0 then [] else Entries(paths, outcome, k - 1) + [EntryAt(paths, outcome, k - 1)]
  }

  function PendingOf(paths: seq<string>, outcome: string -> Outcome, worker: Worker): multiset<Keyed<Outcome>> {
    if worker.phase.Took? && worker.phase.index < |paths| then multiset{EntryAt(paths, outcome, worker.phase.index)}
    else multiset{}
  }

  /** What a worker has read or is to read. */
  function ShareOf(paths: seq<string>, outcome: string -> Outcome, worker: Worker): multiset<Keyed<Outcome>> {
    multiset(worker.read) + PendingOf(paths, outcome, worker)
  }

  function Shares(paths: seq<string>, outcome: string -> Outcome, workers: seq<Worker>): multiset<Keyed<Outcome>> {
    if workers == [] then multiset{}
    else Shares(paths, outcome, workers[..|workers| - 1]) + ShareOf(paths, outcome, workers[|workers| - 1])
  }

  function Started(pool: Pool, paths: seq<string>): nat {
    if pool.cursor < |paths| then pool.cursor else |paths|
  }

  /** The workers' shares are together the entries the cursor has passed. */
  ghost predicate Shared(paths: seq<string>, outcome: string -> Outcome, pool: Pool) {
    && Shares(paths, outcome, pool.workers) == multiset(Entries(paths, outcome, Started(pool, paths)))
    && (forall w :: 0 <= w < |pool.workers| && pool.workers[w].phase.Took? ==> pool.workers[w].phase.index < |paths|)
    && (forall w :: 0 <= w < |pool.workers| && pool.workers[w].phase.Over? ==> pool.cursor >= |paths|)
  }

  lemma {:induction false} SharesOfUpdate(
    paths: seq<string>, outcome: string -> Outcome, workers: seq<Worker>, w: nat, worker: Worker)
    requires w < |workers|
    ensures Shares(paths, outcome, workers[w := worker]) + ShareOf(paths, outcome, workers[w])
            == Shares(paths, outcome, workers) + ShareOf(paths, outcome, worker)
  {
    hide ShareOf;
    var init, after := workers[..|workers| - 1], workers[w := worker];
    if w == |workers| - 1 {
      assert after[..|after| - 1] == init;
      Swap(Shares(paths, outcome, init), ShareOf(paths, outcome, worker), ShareOf(paths, outcome, workers[w]));
    } else {
      var last := ShareOf(paths, outcome, workers[|workers| - 1]);
      assert after[..|after| - 1] == init[w := worker];
      SharesOfUpdate(paths, outcome, init, w, worker);
      Swap(Shares(paths, outcome, init[w := worker]), last, ShareOf(paths, outcome, workers[w]));
      Swap(Shares(paths, outcome, init), last, ShareOf(paths, outcome, worker));
    }
  }

  lemma OneEntryMore(paths: seq<string>, outcome: string -> Outcome, k: nat)
    requires k < |paths|
    ensures multiset(Entries(paths, outcome, k + 1))
            == multiset(Entries(paths, outcome, k)) + multiset{EntryAt(paths, outcome, k)}
  {
    hide EntryAt;
  }

  lemma ShareTaken(paths: seq<string>, outcome: string -> Outcome, worker: Worker, k: nat)
    requires worker.phase.Free? && k < |paths|
    ensures ShareOf(paths, outcome, worker.(phase := Took(k)))
            == ShareOf(paths, outcome, worker) + multiset{EntryAt(paths, outcome, k)}
  {
    hide EntryAt;
  }

  lemma FetchIsShared(paths: seq<string>, outcome: string -> Outcome, pool: Pool, w: nat)
    requires Shared(paths, outcome, pool) && Enabled(pool, FetchAdd(w))
    ensures Shared(paths, outcome, Stepped(paths, outcome, pool, FetchAdd(w)))
  {
    hide Shares, ShareOf, Entries, EntryAt;
    var worker, k := pool.workers[w], pool.cursor;
    var all, share := Shares(paths, outcome, pool.workers), ShareOf(paths, outcome, worker);
    if k < |paths| {
      var added := multiset{EntryAt(paths, outcome, k)};
      var after := Shares(paths, outcome, pool.workers[w := worker.(phase := Took(k))]);
      SharesOfUpdate(paths, outcome, pool.workers, w, worker.(phase := Took(k)));
      ShareTaken(paths, outcome, worker, k);
      OneEntryMore(paths, outcome, k);
      assert all + (share + added) == (all + added) + share;
      Cancel(after, all + added, share);
    } else {
      SharesOfUpdate(paths, outcome, pool.workers, w, worker.(phase := Over));
      assert ShareOf(paths, outcome, worker.(phase := Over)) == share by { ShareOver(paths, outcome, worker); }
      Cancel(Shares(paths, outcome, pool.workers[w := worker.(phase := Over)]), all, share);
    }
  }

  lemma ShareOver(paths: seq<string>, outcome: string -> Outcome, worker: Worker)
    requires worker.phase.Free?
    ensures ShareOf(paths, outcome, worker.(phase := Over)) == ShareOf(paths, outcome, worker)
  {}

  lemma ReadIsShared(paths: seq<string>, outcome: string -> Outcome, pool: Pool, w: nat)
    requires Shared(paths, outcome, pool) && Enabled(pool, ReadChart(w))
    ensures Shared(paths, outcome, Stepped(paths, outcome, pool, ReadChart(w)))
  {
    hide Shares, Entries;
    var index := pool.workers[w].phase.index;
    var worker := Worker(Free, pool.workers[w].read + [Keyed(index, outcome(paths[index]))]);
    SharesOfUpdate(paths, outcome, pool.workers, w, worker);
    assert ShareOf(paths, outcome, worker) == ShareOf(paths, outcome, pool.workers[w]);
    Cancel(Shares(paths, outcome, pool.workers[w := worker]), Shares(paths, outcome, pool.workers),
      ShareOf(paths, outcome, pool.workers[w]));
  }

  lemma {:induction false} NothingShared(paths: seq<string>, outcome: string -> Outcome, workers: nat)
    ensures Shares(paths, outcome, seq(workers, _ => Worker(Free, []))) == multiset{}
  {
    if workers > 0 {
      NothingShared(paths, outcome, workers - 1);
      assert seq(workers, _ => Worker(Free, []))[..workers - 1] == seq(workers - 1, _ => Worker(Free, []));
    }
  }

  lemma {:induction false} RunIsShared(paths: seq<string>, outcome: string -> Outcome, workers: nat, steps: seq<Step>)
    ensures var last := Ran(paths, outcome, workers, steps);
            last.Some? ==> Shared(paths, outcome, last.value) && |last.value.workers| == workers
  {
    hide Shares, Entries;
    if steps == [] {
      NothingShared(paths, outcome, workers);
      assert Entries(paths, outcome, 0) == [] by { NoEntries(paths, outcome); }
    } else {
      RunIsShared(paths, outcome, workers, steps[..|steps| - 1]);
      var before := Ran(paths, outcome, workers, steps[..|steps| - 1]);
      if before.Some? && Enabled(before.value, steps[|steps| - 1]) {
        var step := steps[|steps| - 1];
        if step.FetchAdd? {
          FetchIsShared(paths, outcome, before.value, step.w);
        } else {
          ReadIsShared(paths, outcome, before.value, step.w);
        }
      }
    }
  }

  lemma NoEntries(paths: seq<string>, outcome: string -> Outcome)
    ensures Entries(paths, outcome, 0) == []
  {}

  // ---------- Sorted, they are the batch in order ----------

  lemma {:induction false} EntriesAt(paths: seq<string>, outcome: string -> Outcome, k: nat)
    requires k <= |paths|
    ensures |Entries(paths, outcome, k)| == k
    ensures forall i :: 0 <= i < k ==> Entries(paths, outcome, k)[i] == EntryAt(paths, outcome, i)
  {
    if k > 0 {
      EntriesAt(paths, outcome, k - 1);
    }
  }

  ghost predicate Rising<T>(s: seq<Keyed<T>>) {
    forall i, j :: 0 <= i < j < |s| ==> s[i].key < s[j].key
  }

  /** Entries with keys of their own are in one order only when sorted. */
  lemma {:induction false} SortedOnce<T>(s: seq<Keyed<T>>, t: seq<Keyed<T>>)
    requires Sorted(s) && Rising(t) && multiset(s) == multiset(t)
    ensures s == t
  {
    if t == [] {
      assert |s| == |multiset(s)| == |multiset(t)|;
    } else {
      var x := t[|t| - 1];
      assert t == t[..|t| - 1] + [x];
      assert x in multiset(s);
      var i :| 0 <= i < |s| && s[i] == x;
      var y := s[|s| - 1];
      assert y in multiset(t);
      var j :| 0 <= j < |t| && t[j] == y;
      assert y == x;
      assert s == s[..|s| - 1] + [y];
      Cancel(multiset(s[..|s| - 1]), multiset(t[..|t| - 1]), multiset{x});
      SortedOnce(s[..|s| - 1], t[..|t| - 1]);
    }
  }

  lemma {:induction false} AllJoined(paths: seq<string>, outcome: string -> Outcome, workers: seq<Worker>)
    requires forall w :: 0 <= w < |workers| ==> workers[w].phase.Over?
    ensures multiset(Joined(workers)) == Shares(paths, outcome, workers)
  {
    if workers != [] {
      AllJoined(paths, outcome, workers[..|workers| - 1]);
    }
  }

  /** However the workers take turns, once all are done the batch is what one reader would have read going
      through the paths in order. */
  lemma BatchIsInOrder(paths: seq<string>, outcome: string -> Outcome, workers: nat, steps: seq<Step>)
    requires workers > 0 && Ran(paths, outcome, workers, steps).Some?
    requires var last := Ran(paths, outcome, workers, steps).value;
             forall w :: 0 <= w < |last.workers| ==> last.workers[w].phase.Over?
    ensures BatchOf(Ran(paths, outcome, workers, steps).value) == InOrder(paths, outcome)
  {
    hide Ran, Shares, Entries, Joined, SortByKey;
    RunIsShared(paths, outcome, workers, steps);
    var last := Ran(paths, outcome, workers, steps).value;
    assert last.workers[0].phase.Over?;
    AllJoined(paths, outcome, last.workers);
    var joined, entries := Joined(last.workers), Entries(paths, outcome, |paths|);
    SortIsStable(joined, 0);
    EntriesAt(paths, outcome, |paths|);
    SortedOnce(SortByKey(joined), entries);
  }

  // ---------- The pool at work ----------

  const MAX_WORKERS: nat := 8

  /** One worker a core, capped, and never more than there is work for. */
  function WorkerCount(cores: nat, jobs: nat): (count: nat)
    ensures 1 <= count <= MAX_WORKERS
    ensures count <= jobs || count == 1
  {
    var capped := if cores < 1 then 1 else if cores > MAX_WORKERS then MAX_WORKERS else cores;
    var most := if jobs > 1 then jobs else 1;
    if capped < most then capped else most
  }

  /** What a worker still has to do besides the paths nobody has taken. */
  function EffortOf(worker: Worker): nat {
    match worker.phase
    case Free => 1
    case Took(_) => 2
    case Over => 0
  }

  function Effort(workers: seq<Worker>): nat {
    if workers == [] then 0 else Effort(workers[..|workers| - 1]) + EffortOf(workers[|workers| - 1])
  }

  lemma {:induction false} EffortOfUpdate(workers: seq<Worker>, w: nat, worker: Worker)
    requires w < |workers|
    ensures Effort(workers[w := worker]) == Effort(workers) - EffortOf(workers[w]) + EffortOf(worker)
  {
    var init, after := workers[..|workers| - 1], workers[w := worker];
    if w == |workers| - 1 {
      assert after[..|after| - 1] == init;
    } else {
      assert after[..|after| - 1] == init[w := worker];
      EffortOfUpdate(init, w, worker);
    }
  }

  function LeftToDo(paths: seq<string>, pool: Pool): nat {
    3 * (|paths| - Started(pool, paths)) + Effort(pool.workers)
  }

  lemma LessToDo(paths: seq<string>, outcome: string -> Outcome, pool: Pool, step: Step)
    requires Enabled(pool, step) && Shared(paths, outcome, pool)
    ensures LeftToDo(paths, Stepped(paths, outcome, pool, step)) < LeftToDo(paths, pool)
  {
    hide Effort, Shares, Entries;
    EffortOfUpdate(pool.workers, step.w, Stepped(paths, outcome, pool, step).workers[step.w]);
  }

  lemma OneMoreStep(paths: seq<string>, outcome: string -> Outcome, workers: nat, steps: seq<Step>, step: Step)
    requires Ran(paths, outcome, workers, steps).Some? && Enabled(Ran(paths, outcome, workers, steps).value, step)
    ensures Ran(paths, outcome, workers, steps + [step])
            == Some(Stepped(paths, outcome, Ran(paths, outcome, workers, steps).value, step))
  {
    assert (steps + [step])[..|steps|] == steps;
  }

  lemma NoStep(paths: seq<string>, outcome: string -> Outcome, workers: nat)
    ensures Ran(paths, outcome, workers, []) == Some(Opened(workers))
  {}

  /** The pool run until every worker is done, any worker that is not going next each time. */
  method ReadBatch(paths: seq<string>, outcome: string -> Outcome, cores: nat) returns (batch: seq<Outcome>)
    ensures batch == InOrder(paths, outcome)
  {
    hide Ran, Stepped, Opened, BatchOf, InOrder, LeftToDo, Shared;
    var workers := WorkerCount(cores, |paths|);
    var pool := Opened(workers);
    ghost var steps: seq<Step> := [];
    NoStep(paths, outcome, workers);
    while exists w :: 0 <= w < |pool.workers| && !pool.workers[w].phase.Over?
      invariant Ran(paths, outcome, workers, steps) == Some(pool)
      decreases LeftToDo(paths, pool)
    {
      var w: nat :| w < |pool.workers| && !pool.workers[w].phase.Over?;
      var step := if pool.workers[w].phase.Free? then FetchAdd(w) else ReadChart(w);
      RunIsShared(paths, outcome, workers, steps);
      OneMoreStep(paths, outcome, workers, steps, step);
      LessToDo(paths, outcome, pool, step);
      pool := Stepped(paths, outcome, pool, step);
      steps := steps + [step];
    }
    BatchIsInOrder(paths, outcome, workers, steps);
    return BatchOf(pool);
  }
}
