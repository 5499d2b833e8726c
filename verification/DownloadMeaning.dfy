/** What a look at the workers comes to, told from what they came back with: the library then shown, the ending
    said, the folders scanned; and that whatever is queued does get scanned. */
module DownloadMeaning {
  import opened Common
  import opened Downloads
  import opened DownloadRuns

  // ---------- The library shown ----------

  lemma ScanIsShown(desk: Desk, scanEnd: Option<ScanEnd>)
    ensures RefreshTaken(desk, scanEnd).library
            == if desk.refresh.Some? && IsCurrent(desk, desk.refresh.value) && scanEnd.Some? && scanEnd.value.Read?
               then scanEnd.value.library else desk.library
  {
    hide Outermost, Merged, IsCurrent;
  }

  lemma TheRestKeepsTheLibrary(desk: Desk, jobEnd: Option<JobEnd>)
    ensures FolderLookedAt(JobTaken(desk, jobEnd)).library == desk.library
    ensures FolderLookedAt(JobTaken(desk, jobEnd)).refresh == desk.refresh
    ensures desk.refresh.Some? ==>
              (IsCurrent(FolderLookedAt(JobTaken(desk, jobEnd)), desk.refresh.value)
               <==> IsCurrent(desk, desk.refresh.value))
    ensures QueueScanned(desk).library == desk.library
  {
    hide Outermost;
  }

  /** When a scan is taken in the library shown is the one it read; otherwise a look leaves it alone. */
  lemma TheLibraryIsTheOneRead(desk: Desk, jobEnd: Option<JobEnd>, scanEnd: Option<ScanEnd>)
    ensures Applied(desk, jobEnd, scanEnd).library
            == if TakesIn(desk, jobEnd, scanEnd) then scanEnd.value.library else desk.library
  {
    hide JobTaken, FolderLookedAt, RefreshTaken, QueueScanned, IsCurrent;
    var looked := FolderLookedAt(JobTaken(desk, jobEnd));
    TheRestKeepsTheLibrary(desk, jobEnd);
    ScanIsShown(looked, scanEnd);
    TheRestKeepsTheLibrary(RefreshTaken(looked, scanEnd), None);
  }

  /** The library last taken in or fully scanned, or the first. */
  function LastLibrary(start: Record, ops: seq<Op>): Library {
    if ops == [] then start.desk.library
    else
      var init := ops[..|ops| - 1];
      match ops[|ops| - 1]
      case FullScan(library) => library
      case Apply(jobEnd, Some(Read(library))) =>
        if TakesIn(After(start, init).desk, jobEnd, Some(Read(library))) then library else LastLibrary(start, init)
      case _ => LastLibrary(start, init)
  }

  /** In every run the library shown is the last one taken in or fully scanned, or the first. */
  lemma {:induction false} TheLibraryShown(start: Record, ops: seq<Op>)
    ensures After(start, ops).desk.library == LastLibrary(start, ops)
  {
    hide TakesIn, JobRecorded, FolderRecorded, RefreshRecorded, QueueRecorded;
    if ops != [] {
      var init, op := ops[..|ops| - 1], ops[|ops| - 1];
      TheLibraryShown(start, init);
      if op.Apply? {
        var before := After(start, init);
        RecordFollowsTheDesk(before, op.jobEnd, op.scanEnd);
        TheLibraryIsTheOneRead(before.desk, op.jobEnd, op.scanEnd);
        if TakesIn(before.desk, op.jobEnd, op.scanEnd) {
          TakenInWasRead(before.desk, op.jobEnd, op.scanEnd);
        }
      }
    }
  }

  lemma TakenInWasRead(desk: Desk, jobEnd: Option<JobEnd>, scanEnd: Option<ScanEnd>)
    requires TakesIn(desk, jobEnd, scanEnd)
    ensures scanEnd.Some? && scanEnd.value.Read?
  {}

  // ---------- What is said ----------

  /** The ending of the job, from what its worker came back with. */
  function JobSays(desk: Desk, ended: Option<JobEnd>): seq<Ending> {
    match (desk.job, ended)
    case (Some(chart), Some(Stopped)) => [Ending(chart, Cancelled)]
    case (Some(chart), Some(Broken(reason))) => [Ending(chart, Failed(reason))]
    case _ => []
  }

  /** The ending of the chart whose scan this is: whether it is among the charts the scan read, if it is taken in. */
  function ScanSays(desk: Desk, ended: Option<ScanEnd>, takenIn: bool): seq<Ending> {
    match (desk.refresh, ended)
    case (Some(Refresh(_, Some(Awaited(chart, _)), _, _, _)), Some(Unread(reason))) =>
      [Ending(chart, Failed(reason))]
    case (Some(Refresh(_, Some(Awaited(chart, charts)), _, _, _)), Some(Read(library))) =>
      if takenIn then [Ending(chart, Done(chart.md5 in library, charts))] else []
    case _ => []
  }

  lemma JobIsSaid(desk: Desk, jobEnd: Option<JobEnd>)
    ensures var after := FolderLookedAt(JobTaken(desk, jobEnd));
            && after.said == desk.said + JobSays(desk, jobEnd)
            && after.refresh == desk.refresh
            && (desk.refresh.Some? ==> (IsCurrent(after, desk.refresh.value) <==> IsCurrent(desk, desk.refresh.value)))
  {}

  lemma ScanIsSaid(desk: Desk, scanEnd: Option<ScanEnd>)
    ensures QueueScanned(RefreshTaken(desk, scanEnd)).said
            == desk.said + ScanSays(desk, scanEnd, desk.refresh.Some? && IsCurrent(desk, desk.refresh.value))
  {
    hide Outermost, Merged, IsCurrent;
  }

  /** A look says what the workers came back with, and nothing else. */
  lemma WhatIsSaid(desk: Desk, jobEnd: Option<JobEnd>, scanEnd: Option<ScanEnd>)
    ensures Applied(desk, jobEnd, scanEnd).said
            == desk.said + JobSays(desk, jobEnd) + ScanSays(desk, scanEnd, TakesIn(desk, jobEnd, scanEnd))
  {
    hide JobTaken, FolderLookedAt, RefreshTaken, QueueScanned, IsCurrent, JobSays;
    JobIsSaid(desk, jobEnd);
    ScanIsSaid(FolderLookedAt(JobTaken(desk, jobEnd)), scanEnd);
  }

  /** How many charts the archive held that was last unpacked. */
  function LastUnpacked(start: Record, ops: seq<Op>): nat {
    if ops == [] then 0
    else
      var init := ops[..|ops| - 1];
      match ops[|ops| - 1]
      case Apply(Some(Settled(_, charts)), _) =>
        if After(start, init).desk.job.Some? then charts else LastUnpacked(start, init)
      case _ => LastUnpacked(start, init)
  }

  predicate CountsRight(desk: Desk, charts: nat) {
    && (desk.awaited.Some? ==> desk.awaited.value.charts == charts)
    && (Holding(desk) ==> desk.refresh.value.awaited.value.charts == charts)
  }

  function Unpacked(desk: Desk, jobEnd: Option<JobEnd>, charts: nat): nat {
    match jobEnd
    case Some(Settled(_, n)) => if desk.job.Some? then n else charts
    case _ => charts
  }

  lemma JobCountsRight(desk: Desk, jobEnd: Option<JobEnd>, charts: nat)
    requires CountsRight(desk, charts) && OneChart(desk)
    ensures CountsRight(FolderLookedAt(JobTaken(desk, jobEnd)), Unpacked(desk, jobEnd, charts))
  {}

  lemma ScanCountsRight(desk: Desk, scanEnd: Option<ScanEnd>, charts: nat)
    requires CountsRight(desk, charts)
    ensures CountsRight(RefreshTaken(desk, scanEnd), charts)
    ensures CountsRight(QueueScanned(desk), charts)
  {
    hide Outermost, Merged, IsCurrent;
  }

  lemma LookCountsRight(desk: Desk, jobEnd: Option<JobEnd>, scanEnd: Option<ScanEnd>, charts: nat)
    requires CountsRight(desk, charts) && OneChart(desk)
    ensures CountsRight(Applied(desk, jobEnd, scanEnd), Unpacked(desk, jobEnd, charts))
  {
    hide JobTaken, FolderLookedAt, RefreshTaken, QueueScanned, CountsRight, OneChart, Unpacked;
    var looked := FolderLookedAt(JobTaken(desk, jobEnd));
    JobCountsRight(desk, jobEnd, charts);
    ScanCountsRight(looked, scanEnd, Unpacked(desk, jobEnd, charts));
    ScanCountsRight(RefreshTaken(looked, scanEnd), None, Unpacked(desk, jobEnd, charts));
  }

  /** In every run a chart waiting for its folder, queued or being scanned, waits with the number of charts its
      archive held. */
  lemma {:induction false} TheCountIsTheArchives(folder: Option<Path>, sources: Sources, library: Library, ops: seq<Op>)
    ensures var start := Fresh(folder, sources, library);
            CountsRight(After(start, ops).desk, LastUnpacked(start, ops))
  {
    hide JobRecorded, FolderRecorded, RefreshRecorded, QueueRecorded, Sound, Applied;
    if ops != [] {
      var start, init, op := Fresh(folder, sources, library), ops[..|ops| - 1], ops[|ops| - 1];
      var before := After(start, init);
      TheCountIsTheArchives(folder, sources, library, init);
      if op.Apply? {
        RunIsSound(folder, sources, library, init);
        SoundHoldsOne(before);
        RecordFollowsTheDesk(before, op.jobEnd, op.scanEnd);
        LookCountsRight(before.desk, op.jobEnd, op.scanEnd, LastUnpacked(start, init));
      }
    }
  }

  // ---------- Starting ----------

  /** In every run a download is refused because a chart is under way, or else because its link is no archive, or
      else for want of a folder; and otherwise it is the job. */
  lemma RefusedExactly(
    folder: Option<Path>, sources: Sources, library: Library, ops: seq<Op>, link: Link, chart: Wanted)
    ensures var desk := After(Fresh(folder, sources, library), ops).desk;
            var busy := UnderWay(desk) != [];
            && (Refused(desk, link) == Some(AnotherIsRunning) <==> busy)
            && (Refused(desk, link) == Some(LinkIsNoZip) <==> !busy && link != DirectZip)
            && (Refused(desk, link) == Some(NoFolder) <==> !busy && link == DirectZip && desk.folder.None?)
            && (Refused(desk, link).None? ==> Started(desk, link, chart) == desk.(job := Some(chart)))
            && (Refused(desk, link).Some? ==> Started(desk, link, chart) == desk)
  {
    hide After, Fresh, OneChart, ChartsOf;
    OneChartOneEnding(folder, sources, library, ops);
  }

  // ---------- Folders ----------

  /** The folders scanned are the ones asked for that are inside no other of them. */
  lemma {:induction false} OutermostExactly(roots: seq<Path>, all: seq<Path>, p: Path)
    ensures p in Outermost(roots, all)
            <==> p in roots && forall other :: other in all && other != p ==> !(other <= p)
  {
    if roots != [] {
      OutermostExactly(roots[..|roots| - 1], all, p);
      assert roots == roots[..|roots| - 1] + [roots[|roots| - 1]];
      if HeldByAnother(p, all) {
        var i :| 0 <= i < |all| && all[i] != p && Inside(p, all[i]);
        assert all[i] in all && all[i] <= p;
      }
      if other :| other in all && other != p && other <= p {
        var i :| 0 <= i < |all| && all[i] == other;
        assert Inside(p, all[i]);
      }
    }
  }

  lemma {:induction false} MergedExactly(roots: seq<Path>, more: seq<Path>, p: Path)
    ensures p in Merged(roots, more) <==> p in roots || p in more
  {
    if more != [] {
      MergedExactly(roots, more[..|more| - 1], p);
      assert more == more[..|more| - 1] + [more[|more| - 1]];
    }
  }

  /** After a look nothing is left queued with nobody to scan it: the scan of the queue has begun, unless a scan is
      still running or a job still unpacking. */
  lemma TheQueueIsScanned(desk: Desk, jobEnd: Option<JobEnd>, scanEnd: Option<ScanEnd>)
    ensures var after := Applied(desk, jobEnd, scanEnd);
            after.queued != [] ==> after.refresh.Some? || after.job.Some?
  {
    hide Outermost, Merged, IsCurrent;
  }

  /** A scan begun or begun again takes all that is queued, and the chart that waits for its folder. */
  lemma AScanTakesTheQueue(desk: Desk, scanEnd: Option<ScanEnd>)
    ensures QueueScanned(desk) != desk ==> QueueScanned(desk).queued == [] && QueueScanned(desk).awaited.None?
    ensures desk.refresh.Some? && scanEnd.Some? && scanEnd.value.Read? && !IsCurrent(desk, desk.refresh.value) ==>
              var after := RefreshTaken(desk, scanEnd);
              && after.refresh.Some? && after.queued == []
              && (forall p ::
                    p in desk.refresh.value.roots || p in desk.queued ==> Covered(p, after.refresh.value.roots))
  {
    hide Outermost, Merged, IsCurrent, Covered;
    if desk.refresh.Some? {
      var roots, queued := desk.refresh.value.roots, desk.queued;
      forall p | p in roots || p in queued
        ensures Covered(p, Outermost(Merged(roots, queued), Merged(roots, queued)))
      {
        MergedExactly(roots, queued, p);
        InQueue(p, Merged(roots, queued));
        StillCovered(p, Merged(roots, queued));
      }
    }
  }

  /** A folder is queued for being chosen once: a look that finds the one it has seen, and nothing come back, changes
      nothing. */
  lemma AQuietLookChangesNothing(desk: Desk, jobEnd: Option<JobEnd>, scanEnd: Option<ScanEnd>)
    ensures Applied(desk, jobEnd, scanEnd).folderSeen == desk.folder
    ensures desk.folder == desk.folderSeen && jobEnd.None? && scanEnd.None? && desk.queued == []
            ==> Applied(desk, jobEnd, scanEnd) == desk
    ensures forall l :: FullyScanned(desk, l).folderSeen == desk.folder
  {
    hide Outermost, Merged, IsCurrent;
  }
}
