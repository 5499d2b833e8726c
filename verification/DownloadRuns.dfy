/** What holds over every run of the downloads: starts, looks for what the workers came back with, and
    whatever else changes the library, the tables or the settings between them. */
module DownloadRuns {
  import opened Common
  import opened Downloads

  /** A desk and what has happened to it. A folder is in `toQueue` from when it is queued until a scan of
      the queue begins and in `toScan` from then on, until a scan whose roots cover it is taken in or a
      scan fails. `libraryChanges` and `tableChanges` count without wrapping; `begunAt`, `begunTables`
      and `begunSources` are what they and the sources were when the running scan began. */
  datatype Record = Record(
    desk: Desk,
    toQueue: set<Path>,
    toScan: set<Path>,
    started: seq<Wanted>,
    awaitedFolder: Path,
    libraryChanges: nat,
    tableChanges: nat,
    begunAt: nat,
    begunTables: nat,
    begunSources: Sources)

  datatype Op =
    | Start(link: Link, chart: Wanted)
    | Apply(jobEnd: Option<JobEnd>, scanEnd: Option<ScanEnd>)
    | FullScan(library: Library)
    | TableArrives
    | SetSources(sources: Sources)
    | SetFolder(folder: Option<Path>)

  function Fresh(folder: Option<Path>, sources: Sources, library: Library): Record {
    Record(Desk(None, None, [], None, [], folder, folder, sources, library, 0, 0), {}, {}, [], [], 0, 0, 0, 0, [])
  }

  // ---------- What each step does to the record ----------

  function JobRecorded(r: Record, ended: Option<JobEnd>): Record {
    var after := r.(desk := JobTaken(r.desk, ended));
    if r.desk.job.Some? && ended.Some? && ended.value.Settled? then
      after.(toQueue := r.toQueue + {ended.value.folder}, awaitedFolder := ended.value.folder)
    else after
  }

  function FolderRecorded(r: Record): Record {
    var after := r.(desk := FolderLookedAt(r.desk));
    if r.desk.folder != r.desk.folderSeen && r.desk.folder.Some? then
      after.(toQueue := r.toQueue + {r.desk.folder.value})
    else after
  }

  /** A scan begins: what was queued is to be scanned by it. */
  function Begun(r: Record, desk: Desk): Record {
    r.(desk := desk, toScan := r.toScan + r.toQueue, toQueue := {},
       begunAt := r.libraryChanges, begunTables := r.tableChanges, begunSources := r.desk.sources)
  }

  function RefreshRecorded(r: Record, ended: Option<ScanEnd>): Record {
    var desk := RefreshTaken(r.desk, ended);
    if r.desk.refresh.None? || ended.None? then r
    else if ended.value.Unread? then r.(desk := desk, toScan := {})
    else if !IsCurrent(r.desk, r.desk.refresh.value) then Begun(r, desk)
    else
      r.(desk := desk,
         toScan := (set p | p in r.toScan && !Covered(p, r.desk.refresh.value.roots)),
         libraryChanges := r.libraryChanges + 1,
         tableChanges := r.tableChanges + 1)
  }

  function QueueRecorded(r: Record): Record {
    if QueueScanned(r.desk) == r.desk then r else Begun(r, QueueScanned(r.desk))
  }

  function Recorded(r: Record, op: Op): Record {
    match op
    case Start(link, chart) =>
      r.(desk := Started(r.desk, link, chart),
         started := if Refused(r.desk, link).Some? then r.started else r.started + [chart])
    case Apply(jobEnd, scanEnd) => QueueRecorded(RefreshRecorded(FolderRecorded(JobRecorded(r, jobEnd)), scanEnd))
    case FullScan(library) =>
      r.(desk := FullyScanned(r.desk, library),
         libraryChanges := r.libraryChanges + 1, tableChanges := r.tableChanges + 1)
    case TableArrives =>
      r.(desk := r.desk.(tableGeneration := NextGeneration(r.desk.tableGeneration)), tableChanges := r.tableChanges + 1)
    case SetSources(sources) => r.(desk := r.desk.(sources := sources))
    case SetFolder(folder) => r.(desk := r.desk.(folder := folder))
  }

  function After(r: Record, ops: seq<Op>): Record {
    if ops == [] then r else Recorded(After(r, ops[..|ops| - 1]), ops[|ops| - 1])
  }

  lemma RecordFollowsTheDesk(r: Record, jobEnd: Option<JobEnd>, scanEnd: Option<ScanEnd>)
    ensures Recorded(r, Apply(jobEnd, scanEnd)).desk == Applied(r.desk, jobEnd, scanEnd)
  {
    hide JobTaken, FolderLookedAt, RefreshTaken, IsCurrent;
    var a := JobRecorded(r, jobEnd);
    var b := FolderRecorded(a);
    var c := RefreshRecorded(b, scanEnd);
    assert c.desk == RefreshTaken(b.desk, scanEnd) by { RefreshOfNone(b.desk, scanEnd); }
  }

  lemma RefreshOfNone(desk: Desk, ended: Option<ScanEnd>)
    ensures desk.refresh.None? || ended.None? ==> RefreshTaken(desk, ended) == desk
  {}

  // ---------- The invariant ----------

  predicate Holding(desk: Desk) {
    desk.refresh.Some? && desk.refresh.value.awaited.Some?
  }

  /** At most one of the three places holds a chart. */
  predicate OneChart(desk: Desk) {
    && !(desk.job.Some? && desk.awaited.Some?)
    && !(desk.job.Some? && Holding(desk))
    && !(desk.awaited.Some? && Holding(desk))
  }

  /** The charts of the endings said, in order. */
  function ChartsOf(said: seq<Ending>): seq<Wanted> {
    if said == [] then [] else ChartsOf(said[..|said| - 1]) + [said[|said| - 1].chart]
  }

  /** The chart a job is getting, if one is. */
  function UnderWay(desk: Desk): seq<Wanted> {
    if desk.job.Some? then [desk.job.value]
    else if desk.awaited.Some? then [desk.awaited.value.chart]
    else if Holding(desk) then [desk.refresh.value.awaited.value.chart]
    else []
  }

  lemma ChartsLonger(said: seq<Ending>, ending: Ending)
    ensures ChartsOf(said + [ending]) == ChartsOf(said) + [ending.chart]
  {
    assert (said + [ending])[..|said|] == said;
  }

  ghost predicate FoldersKept(r: Record) {
    && (forall p :: p in r.toQueue ==> p in r.desk.queued)
    && (forall p :: p in r.toScan ==> r.desk.refresh.Some? && Covered(p, r.desk.refresh.value.roots))
    && (r.desk.awaited.Some? ==> r.awaitedFolder in r.toQueue)
    && (Holding(r.desk) ==> r.awaitedFolder in r.toScan)
  }

  predicate Counted(r: Record) {
    && r.desk.generation == r.libraryChanges % GENERATIONS
    && r.desk.tableGeneration == r.tableChanges % GENERATIONS
    && r.begunAt <= r.libraryChanges && r.begunTables <= r.tableChanges
    && (r.desk.refresh.Some? ==>
          r.desk.refresh.value.generation == r.begunAt % GENERATIONS
            && r.desk.refresh.value.tableGeneration == r.begunTables % GENERATIONS
            && r.desk.refresh.value.sources == r.begunSources)
  }

  ghost predicate Sound(r: Record) {
    && OneChart(r.desk)
    && r.started == ChartsOf(r.desk.said) + UnderWay(r.desk)
    && FoldersKept(r)
    && Counted(r)
  }

  lemma JobIsSound(r: Record, ended: Option<JobEnd>)
    requires Sound(r)
    ensures Sound(JobRecorded(r, ended))
  {
    hide Covered, Counted, ChartsOf;
    if r.desk.job.Some? {
      ChartsLonger(r.desk.said, Ending(r.desk.job.value, Cancelled));
      if ended.Some? && ended.value.Broken? {
        ChartsLonger(r.desk.said, Ending(r.desk.job.value, Failed(ended.value.reason)));
      }
    }
    assert Counted(JobRecorded(r, ended)) by { CountedOf(r, JobRecorded(r, ended)); }
  }

  lemma CountedOf(r: Record, after: Record)
    requires Counted(r)
    requires after.desk.generation == r.desk.generation && after.desk.tableGeneration == r.desk.tableGeneration
    requires after.libraryChanges == r.libraryChanges && after.tableChanges == r.tableChanges
    requires after.begunAt == r.begunAt && after.begunTables == r.begunTables && after.begunSources == r.begunSources
    requires after.desk.refresh == r.desk.refresh || after.desk.refresh == None
    ensures Counted(after)
  {}

  lemma FolderIsSound(r: Record)
    requires Sound(r)
    ensures Sound(FolderRecorded(r))
  {
    hide Covered, Counted;
    assert Counted(FolderRecorded(r)) by { CountedOf(r, FolderRecorded(r)); }
  }

  lemma CountedBegun(r: Record, desk: Desk)
    requires Counted(r)
    requires desk.generation == r.desk.generation && desk.tableGeneration == r.desk.tableGeneration
    requires desk.refresh.Some? && desk.refresh.value.generation == desk.generation
             && desk.refresh.value.tableGeneration == desk.tableGeneration
    requires desk.refresh.value.sources == r.desk.sources
    ensures Counted(Begun(r, desk))
  {}

  lemma CountedTaken(r: Record, after: Record)
    requires Counted(r)
    requires after.desk.generation == NextGeneration(r.desk.generation)
             && after.desk.tableGeneration == NextGeneration(r.desk.tableGeneration)
    requires after.libraryChanges == r.libraryChanges + 1 && after.tableChanges == r.tableChanges + 1
    requires after.begunAt == r.begunAt && after.begunTables == r.begunTables && after.begunSources == r.begunSources
    requires after.desk.refresh == r.desk.refresh || after.desk.refresh == None
    ensures Counted(after)
  {
    NextWraps(r.libraryChanges);
    NextWraps(r.tableChanges);
  }

  lemma NextWraps(count: nat)
    ensures NextGeneration(count % GENERATIONS) == (count + 1) % GENERATIONS
  {}

  /** A scan of what was to be scanned and what was queued covers all of it. */
  lemma BegunKeepsFolders(r: Record, desk: Desk, all: seq<Path>)
    requires desk.refresh.Some? && desk.refresh.value.roots == Outermost(all, all)
    requires forall p :: p in r.toScan + r.toQueue ==> Covered(p, all)
    requires desk.awaited.None?
    requires Holding(desk) ==> r.awaitedFolder in r.toScan + r.toQueue
    ensures FoldersKept(Begun(r, desk))
  {
    hide Covered, Outermost;
    forall p | p in r.toScan + r.toQueue ensures Covered(p, Outermost(all, all)) {
      StillCovered(p, all);
    }
  }

  lemma InQueue(p: Path, roots: seq<Path>)
    requires p in roots
    ensures Covered(p, roots)
  {
    CoveredBy(p, roots, p);
  }

  lemma QueueIsSound(r: Record)
    requires Sound(r)
    ensures Sound(QueueRecorded(r))
  {
    hide Covered, Outermost, Counted, FoldersKept;
    var desk := QueueScanned(r.desk);
    if desk != r.desk {
      CountedBegun(r, desk);
      assert FoldersKept(Begun(r, desk)) by { QueueKeepsFolders(r); }
    }
  }

  lemma QueueKeepsFolders(r: Record)
    requires Sound(r) && QueueScanned(r.desk) != r.desk
    ensures FoldersKept(Begun(r, QueueScanned(r.desk)))
  {
    hide Covered, Outermost, Counted;
    forall p | p in r.toScan + r.toQueue ensures Covered(p, r.desk.queued) {
      InQueue(p, r.desk.queued);
    }
    BegunKeepsFolders(r, QueueScanned(r.desk), r.desk.queued);
  }

  lemma RefreshIsSound(r: Record, ended: Option<ScanEnd>)
    requires Sound(r)
    ensures Sound(RefreshRecorded(r, ended))
  {
    hide Covered, Outermost, Merged, Counted, ChartsOf;
    if r.desk.refresh.Some? && ended.Some? {
      var desk := RefreshTaken(r.desk, ended);
      if Holding(r.desk) {
        var awaited := r.desk.refresh.value.awaited.value;
        match ended.value
        case Unread(reason) => ChartsLonger(r.desk.said, Ending(awaited.chart, Failed(reason)));
        case Read(library) =>
          ChartsLonger(r.desk.said, Ending(awaited.chart, Done(awaited.chart.md5 in library, awaited.charts)));
      }
      if ended.value.Unread? {
        CountedOf(r, RefreshRecorded(r, ended));
      } else if !IsCurrent(r.desk, r.desk.refresh.value) {
        CountedBegun(r, desk);
        RerunKeepsFolders(r, desk);
      } else {
        CountedTaken(r, RefreshRecorded(r, ended));
      }
    }
  }

  lemma RerunKeepsFolders(r: Record, desk: Desk)
    requires Sound(r) && r.desk.refresh.Some? && desk.refresh.Some? && desk.awaited.None?
    requires var all := Merged(r.desk.refresh.value.roots, r.desk.queued);
             desk.refresh.value.roots == Outermost(all, all)
    requires Holding(desk) ==> Holding(r.desk) || r.desk.awaited.Some?
    ensures FoldersKept(Begun(r, desk))
  {
    hide Covered, Outermost, Merged, Counted;
    var was := r.desk.refresh.value.roots;
    forall p | p in r.toScan + r.toQueue ensures Covered(p, Merged(was, r.desk.queued)) {
      if p in r.toQueue {
        InQueue(p, r.desk.queued);
      }
      MergedCovers(p, was, r.desk.queued);
    }
    BegunKeepsFolders(r, desk, Merged(was, r.desk.queued));
  }

  lemma OtherIsSound(r: Record, op: Op)
    requires Sound(r) && !op.Apply?
    ensures Sound(Recorded(r, op))
  {
    hide Covered, Counted;
    var after := Recorded(r, op);
    match op
    case FullScan(_) => CountedTaken(r, after);
    case TableArrives => TableCounted(r);
    case _ => CountedOf(r, after);
  }

  lemma TableCounted(r: Record)
    requires Counted(r)
    ensures Counted(Recorded(r, TableArrives))
  {
    NextWraps(r.tableChanges);
  }

  lemma {:induction false} RunIsSound(folder: Option<Path>, sources: Sources, library: Library, ops: seq<Op>)
    ensures Sound(After(Fresh(folder, sources, library), ops))
  {
    hide Sound, JobRecorded, FolderRecorded, RefreshRecorded, QueueRecorded;
    if ops == [] {
      FreshIsSound(folder, sources, library);
    } else {
      var before, op := After(Fresh(folder, sources, library), ops[..|ops| - 1]), ops[|ops| - 1];
      RunIsSound(folder, sources, library, ops[..|ops| - 1]);
      if op.Apply? {
        JobIsSound(before, op.jobEnd);
        FolderIsSound(JobRecorded(before, op.jobEnd));
        RefreshIsSound(FolderRecorded(JobRecorded(before, op.jobEnd)), op.scanEnd);
        QueueIsSound(RefreshRecorded(FolderRecorded(JobRecorded(before, op.jobEnd)), op.scanEnd));
      } else {
        OtherIsSound(before, op);
      }
    }
  }

  lemma FreshIsSound(folder: Option<Path>, sources: Sources, library: Library)
    ensures Sound(Fresh(folder, sources, library))
  {}

  // ---------- Main results ----------

  /** Every folder queued stays covered by the queue or by the running scan until a scan that began
      after it was queued and covers it is taken in, or a scan fails. */
  lemma NoFolderIsLost(folder: Option<Path>, sources: Sources, library: Library, ops: seq<Op>, p: Path)
    ensures var r := After(Fresh(folder, sources, library), ops);
            && (p in r.toQueue ==> Covered(p, r.desk.queued))
            && (p in r.toScan ==> r.desk.refresh.Some? && Covered(p, r.desk.refresh.value.roots))
  {
    hide After, Fresh, Covered, Counted, OneChart, IsBusy;
    RunIsSound(folder, sources, library, ops);
    var r := After(Fresh(folder, sources, library), ops);
    if p in r.toQueue {
      InQueue(p, r.desk.queued);
    }
  }

  /** The charts started are those of the endings said, in order, and then the one under way, in one place
      only; and a chart waiting for its folder waits for a scan that reads it. */
  lemma OneChartOneEnding(folder: Option<Path>, sources: Sources, library: Library, ops: seq<Op>)
    ensures var r := After(Fresh(folder, sources, library), ops);
            && OneChart(r.desk)
            && r.started == ChartsOf(r.desk.said) + UnderWay(r.desk)
            && (UnderWay(r.desk) != [] <==> IsBusy(r.desk))
            && (r.desk.awaited.Some? ==> Covered(r.awaitedFolder, r.desk.queued))
            && (Holding(r.desk) ==> Covered(r.awaitedFolder, r.desk.refresh.value.roots))
  {
    hide After, Fresh, Covered, Counted, OneChart, ChartsOf;
    RunIsSound(folder, sources, library, ops);
    var r := After(Fresh(folder, sources, library), ops);
    if r.desk.awaited.Some? {
      InQueue(r.awaitedFolder, r.desk.queued);
    }
  }

  /** A chart whose scan is taken in is said to be found exactly when the library then shown holds it. */
  lemma TheEndingTellsTheTruth(
    folder: Option<Path>, sources: Sources, library: Library, ops: seq<Op>, jobEnd: Option<JobEnd>,
    scanEnd: Option<ScanEnd>)
    requires var desk := After(Fresh(folder, sources, library), ops).desk;
             TakesIn(desk, jobEnd, scanEnd) && Holding(desk)
    ensures var r := After(Fresh(folder, sources, library), ops);
            var after := After(Fresh(folder, sources, library), ops + [Apply(jobEnd, scanEnd)]).desk;
            var awaited := r.desk.refresh.value.awaited.value;
            after.said == r.desk.said
              + [Ending(awaited.chart, Done(awaited.chart.md5 in after.library, awaited.charts))]
  {
    hide Fresh, FoldersKept, Counted, Outermost, ChartsOf, Sound;
    var r := After(Fresh(folder, sources, library), ops);
    RunIsSound(folder, sources, library, ops);
    OneMoreOp(Fresh(folder, sources, library), ops, Apply(jobEnd, scanEnd));
    RecordFollowsTheDesk(r, jobEnd, scanEnd);
    SoundHoldsOne(r);
    SaysWhatIsShown(r.desk, jobEnd, scanEnd);
  }

  lemma SoundHoldsOne(r: Record)
    requires Sound(r)
    ensures OneChart(r.desk)
  {}

  lemma OneMoreOp(r: Record, ops: seq<Op>, op: Op)
    ensures After(r, ops + [op]) == Recorded(After(r, ops), op)
  {
    hide Recorded;
    assert (ops + [op])[..|ops|] == ops;
  }

  lemma SaysWhatIsShown(desk: Desk, jobEnd: Option<JobEnd>, scanEnd: Option<ScanEnd>)
    requires OneChart(desk) && TakesIn(desk, jobEnd, scanEnd) && Holding(desk)
    ensures var after := Applied(desk, jobEnd, scanEnd);
            var awaited := desk.refresh.value.awaited.value;
            after.said == desk.said + [Ending(awaited.chart, Done(awaited.chart.md5 in after.library, awaited.charts))]
  {
    hide Outermost;
  }

  /** A scan is taken in exactly if the sources of the tables are those it began with and the library and the
      tables have changed a multiple of 2^64 times since: in any run that could happen, not at all. */
  lemma NoStaleLibrary(
    folder: Option<Path>, sources: Sources, library: Library, ops: seq<Op>, jobEnd: Option<JobEnd>,
    scanEnd: Option<ScanEnd>)
    ensures var r := After(Fresh(folder, sources, library), ops);
            TakesIn(r.desk, jobEnd, scanEnd)
            <==> && r.desk.refresh.Some? && scanEnd.Some? && scanEnd.value.Read?
                 && r.begunSources == r.desk.sources
                 && (r.libraryChanges - r.begunAt) % 0x1_0000_0000_0000_0000 == 0
                 && (r.tableChanges - r.begunTables) % 0x1_0000_0000_0000_0000 == 0
    ensures var r := After(Fresh(folder, sources, library), ops);
            TakesIn(r.desk, jobEnd, scanEnd) ==>
              && (r.libraryChanges - r.begunAt < 0x1_0000_0000_0000_0000 ==> r.libraryChanges == r.begunAt)
              && (r.tableChanges - r.begunTables < 0x1_0000_0000_0000_0000 ==> r.tableChanges == r.begunTables)
  {
    hide After, Fresh, FoldersKept, OneChart, IsBusy;
    RunIsSound(folder, sources, library, ops);
    var r := After(Fresh(folder, sources, library), ops);
    SameGeneration(r.begunAt, r.libraryChanges);
    SameGeneration(r.begunTables, r.tableChanges);
  }

  lemma SameGeneration(before: nat, after: nat)
    requires before <= after
    ensures before % GENERATIONS == after % GENERATIONS <==> (after - before) % GENERATIONS == 0
    ensures (after - before) % GENERATIONS == 0 && after - before < GENERATIONS ==> after == before
  {
    var q, p := after / GENERATIONS, before / GENERATIONS;
    var s, t := after % GENERATIONS, before % GENERATIONS;
    assert after - before == (q - p) * GENERATIONS + (s - t);
    if s == t {
      assert (after - before) % GENERATIONS == 0;
    }
    if (after - before) % GENERATIONS == 0 {
      var k := (after - before) / GENERATIONS;
      assert s - t == (k - (q - p)) * GENERATIONS;
      SmallMultiple(s - t, k - (q - p));
    }
  }

  lemma SmallMultiple(n: int, k: int)
    requires n == k * GENERATIONS && 0 < n + GENERATIONS && n < GENERATIONS
    ensures n == 0
  {}
}
