/** Getting a chart and bringing its folder into the library (download.rs): one job at a time, then a
    scan of part of the library, which something else may overtake. What the workers come back with is
    a parameter of the methods. */
module Downloads {
  import opened Common

  // ---------- Folders ----------

  /** A normalised path, as its components. */
  type Path = seq<string>

  /** `path` is `folder` or inside it. */
  predicate Inside(path: Path, folder: Path) {
    folder <= path
  }

  predicate Covered(path: Path, roots: seq<Path>) {
    exists i :: 0 <= i < |roots| && Inside(path, roots[i])
  }

  /** Another of the folders holds `root`. */
  predicate HeldByAnother(root: Path, all: seq<Path>) {
    exists i :: 0 <= i < |all| && all[i] != root && Inside(root, all[i])
  }

  /** The folders of `roots` that are inside no other of `all`. */
  function Outermost(roots: seq<Path>, all: seq<Path>): seq<Path> {
    if roots == [] then []
    else
      Outermost(roots[..|roots| - 1], all)
      + (if HeldByAnother(roots[|roots| - 1], all) then [] else [roots[|roots| - 1]])
  }

  /** `roots` with each folder of `more` it does not list yet. */
  function Merged(roots: seq<Path>, more: seq<Path>): seq<Path> {
    if more == [] then roots else Listed(Merged(roots, more[..|more| - 1]), more[|more| - 1])
  }

  function Listed(roots: seq<Path>, root: Path): seq<Path> {
    if root in roots then roots else roots + [root]
  }

  lemma {:induction false} OutermostKeeps(roots: seq<Path>, all: seq<Path>, root: Path)
    requires root in roots && !HeldByAnother(root, all)
    ensures root in Outermost(roots, all)
  {
    hide HeldByAnother;
    if root != roots[|roots| - 1] {
      assert root in roots[..|roots| - 1];
      OutermostKeeps(roots[..|roots| - 1], all, root);
    }
  }

  lemma CoveredBy(path: Path, roots: seq<Path>, root: Path)
    requires root in roots && Inside(path, root)
    ensures Covered(path, roots)
  {
    var i :| 0 <= i < |roots| && roots[i] == root;
  }

  /** Leaving out the folders inside others leaves no folder out. */
  lemma {:induction false} OutermostCovers(roots: seq<Path>, path: Path, root: Path)
    requires root in roots && Inside(path, root)
    ensures Covered(path, Outermost(roots, roots))
    decreases |root|
  {
    if HeldByAnother(root, roots) {
      var i :| 0 <= i < |roots| && roots[i] != root && Inside(root, roots[i]);
      OutermostCovers(roots, path, roots[i]);
    } else {
      OutermostKeeps(roots, roots, root);
      CoveredBy(path, Outermost(roots, roots), root);
    }
  }

  lemma StillCovered(path: Path, roots: seq<Path>)
    requires Covered(path, roots)
    ensures Covered(path, Outermost(roots, roots))
  {
    var i :| 0 <= i < |roots| && Inside(path, roots[i]);
    OutermostCovers(roots, path, roots[i]);
  }

  lemma ListedCovers(path: Path, roots: seq<Path>, root: Path)
    ensures Covered(path, roots) ==> Covered(path, Listed(roots, root))
    ensures Covered(root, Listed(roots, root))
    ensures root in Listed(roots, root)
  {
    if Covered(path, roots) {
      var i :| 0 <= i < |roots| && Inside(path, roots[i]);
      assert Listed(roots, root)[i] == roots[i];
    }
    CoveredBy(root, Listed(roots, root), root);
  }

  lemma CoveredSplits(path: Path, roots: seq<Path>, root: Path)
    requires Covered(path, roots + [root])
    ensures Covered(path, roots) || Inside(path, root)
  {
    var i :| 0 <= i < |roots + [root]| && Inside(path, (roots + [root])[i]);
    if i < |roots| {
      assert Inside(path, roots[i]);
    }
  }

  lemma {:induction false} MergedCovers(path: Path, roots: seq<Path>, more: seq<Path>)
    ensures Covered(path, roots) || Covered(path, more) ==> Covered(path, Merged(roots, more))
  {
    hide Listed, Covered;
    if more == [] {
      assert !Covered(path, []) by { NothingCovers(path); }
    } else {
      var init, last := more[..|more| - 1], more[|more| - 1];
      MergedCovers(path, roots, init);
      ListedCovers(path, Merged(roots, init), last);
      assert more == init + [last];
      if Covered(path, more) {
        CoveredSplits(path, init, last);
      }
      if Inside(path, last) {
        CoveredBy(path, Listed(Merged(roots, init), last), last);
      }
    }
  }

  lemma NothingCovers(path: Path)
    ensures !Covered(path, [])
  {}

  // ---------- The state ----------

  /** A chart's digest and title. */
  datatype Wanted = Wanted(md5: string, title: string)

  /** A chart whose archive is unpacked and whose folder waits to be scanned. */
  datatype Awaited = Awaited(chart: Wanted, charts: nat)

  datatype Phase = Done(found: bool, charts: nat) | Failed(reason: string) | Cancelled

  datatype Ending = Ending(chart: Wanted, phase: Phase)

  /** The addresses the tables come from, and the charts a library holds. */
  type Sources = seq<string>
  type Library = set<string>

  const GENERATIONS: nat := 0x1_0000_0000_0000_0000

  /** What `wrapping_add(1)` makes of a generation. */
  function NextGeneration(generation: nat): nat {
    (generation + 1) % GENERATIONS
  }

  datatype Refresh = Refresh(
    roots: seq<Path>, awaited: Option<Awaited>, generation: nat, sources: Sources, tableGeneration: nat)

  /** The downloads and what they share with the rest of the player. `said` is what the player has been
      told of the jobs that ended. */
  datatype Desk = Desk(
    job: Option<Wanted>,
    refresh: Option<Refresh>,
    queued: seq<Path>,
    awaited: Option<Awaited>,
    said: seq<Ending>,
    folderSeen: Option<Path>,
    folder: Option<Path>,
    sources: Sources,
    library: Library,
    generation: nat,
    tableGeneration: nat)

  /** What the job's worker came back with, and what the scan's did. */
  datatype JobEnd = Settled(folder: Path, charts: nat) | Stopped | Broken(reason: string)

  datatype ScanEnd = Read(library: Library) | Unread(reason: string)

  datatype Link = DirectZip | Browser | Unusable

  datatype Refusal = AnotherIsRunning | LinkIsNoZip | NoFolder

  predicate IsBusy(desk: Desk) {
    desk.job.Some? || desk.awaited.Some? || (desk.refresh.Some? && desk.refresh.value.awaited.Some?)
  }

  function Refused(desk: Desk, link: Link): Option<Refusal> {
    if IsBusy(desk) then Some(AnotherIsRunning)
    else if !link.DirectZip? then Some(LinkIsNoZip)
    else if desk.folder.None? then Some(NoFolder)
    else None
  }

  function Started(desk: Desk, link: Link, chart: Wanted): Desk {
    if Refused(desk, link).Some? then desk else desk.(job := Some(chart))
  }

  function Queue(desk: Desk, root: Path): Desk {
    desk.(queued := Listed(desk.queued, root))
  }

  function EndJob(desk: Desk, chart: Wanted, phase: Phase): Desk {
    desk.(said := desk.said + [Ending(chart, phase)])
  }

  function JobTaken(desk: Desk, ended: Option<JobEnd>): Desk {
    if desk.job.None? || ended.None? then desk
    else
      var chart, free := desk.job.value, desk.(job := None);
      match ended.value
      case Settled(folder, charts) => Queue(free, folder).(awaited := Some(Awaited(chart, charts)))
      case Stopped => EndJob(free, chart, Cancelled)
      case Broken(reason) => EndJob(free, chart, Failed(reason))
  }

  function FolderLookedAt(desk: Desk): Desk {
    if desk.folder == desk.folderSeen then desk
    else if desk.folder.None? then desk.(folderSeen := desk.folder)
    else Queue(desk.(folderSeen := desk.folder), desk.folder.value)
  }

  function RefreshStarted(desk: Desk, roots: seq<Path>, awaited: Option<Awaited>): Desk {
    var refresh := Refresh(Outermost(roots, roots), awaited, desk.generation, desk.sources, desk.tableGeneration);
    desk.(refresh := Some(refresh))
  }

  predicate IsCurrent(desk: Desk, refresh: Refresh) {
    refresh.generation == desk.generation && refresh.sources == desk.sources
      && refresh.tableGeneration == desk.tableGeneration
  }

  function LibraryTaken(desk: Desk, library: Library): Desk {
    desk.(library := library,
          generation := NextGeneration(desk.generation),
          tableGeneration := NextGeneration(desk.tableGeneration))
  }

  function RefreshTaken(desk: Desk, ended: Option<ScanEnd>): Desk {
    if desk.refresh.None? || ended.None? then desk
    else
      var refresh, free := desk.refresh.value, desk.(refresh := None);
      match ended.value
      case Unread(reason) =>
        (match refresh.awaited
         case None => free
         case Some(awaited) => EndJob(free, awaited.chart, Failed(reason)))
      case Read(library) =>
        if !IsCurrent(desk, refresh) then
          RefreshStarted(
            free.(queued := [], awaited := if refresh.awaited.Some? then free.awaited else None),
            Merged(refresh.roots, desk.queued),
            if refresh.awaited.Some? then refresh.awaited else desk.awaited)
        else
          var taken := LibraryTaken(free, library);
          match refresh.awaited
          case None => taken
          case Some(awaited) => EndJob(taken, awaited.chart, Done(awaited.chart.md5 in library, awaited.charts))
  }

  function QueueScanned(desk: Desk): Desk {
    if desk.refresh.None? && desk.job.None? && desk.queued != [] then
      RefreshStarted(desk.(queued := [], awaited := None), desk.queued, desk.awaited)
    else desk
  }

  function Applied(desk: Desk, jobEnd: Option<JobEnd>, scanEnd: Option<ScanEnd>): Desk {
    QueueScanned(RefreshTaken(FolderLookedAt(JobTaken(desk, jobEnd)), scanEnd))
  }

  predicate TakesIn(desk: Desk, jobEnd: Option<JobEnd>, scanEnd: Option<ScanEnd>) {
    desk.refresh.Some? && scanEnd.Some? && scanEnd.value.Read? && IsCurrent(desk, desk.refresh.value)
  }

  function FullyScanned(desk: Desk, library: Library): Desk {
    LibraryTaken(desk, library).(folderSeen := desk.folder)
  }

  // ---------- As the program keeps it ----------

  /** The fields the frame loop works on. */
  class Shared {
    var job: Option<Wanted>
    var refresh: Option<Refresh>
    var queued: seq<Path>
    var awaited: Option<Awaited>
    var said: seq<Ending>
    var folderSeen: Option<Path>
    var folder: Option<Path>
    var sources: Sources
    var library: Library
    var generation: nat
    var tableGeneration: nat

    ghost function State(): Desk
      reads this
    {
      Desk(job, refresh, queued, awaited, said, folderSeen, folder, sources, library, generation, tableGeneration)
    }

    constructor (folder: Option<Path>, sources: Sources, library: Library)
      ensures State() == Desk(None, None, [], None, [], folder, folder, sources, library, 0, 0)
    {
      job, refresh, queued, awaited, said := None, None, [], None, [];
      folderSeen, this.folder, this.sources, this.library, generation, tableGeneration :=
        folder, folder, sources, library, 0, 0;
    }

    method StartDownload(link: Link, chart: Wanted) returns (refusal: Option<Refusal>)
      modifies this`job
      ensures refusal == Refused(old(State()), link)
      ensures State() == Started(old(State()), link, chart)
    {
      if job.Some? || awaited.Some? || (refresh.Some? && refresh.value.awaited.Some?) {
        return Some(AnotherIsRunning);
      }
      if !link.DirectZip? {
        return Some(LinkIsNoZip);
      }
      if folder.None? {
        return Some(NoFolder);
      }
      job := Some(chart);
      return None;
    }

    method QueueRoot(root: Path)
      modifies this`queued
      ensures State() == Queue(old(State()), root)
    {
      if root !in queued {
        queued := queued + [root];
      }
    }

    method TakeFinishedJob(ended: Option<JobEnd>)
      modifies this`job, this`queued, this`awaited, this`said
      ensures State() == JobTaken(old(State()), ended)
    {
      if job.None? || ended.None? {
        return;
      }
      var chart := job.value;
      job := None;
      match ended.value {
        case Settled(settled, charts) =>
          QueueRoot(settled);
          awaited := Some(Awaited(chart, charts));
        case Stopped =>
          said := said + [Ending(chart, Cancelled)];
        case Broken(reason) =>
          said := said + [Ending(chart, Failed(reason))];
      }
    }

    method StartRefresh(roots: seq<Path>, of: Option<Awaited>)
      modifies this`refresh
      ensures State() == RefreshStarted(old(State()), roots, of)
    {
      var kept: seq<Path> := [];
      for i := 0 to |roots|
        invariant kept == Outermost(roots[..i], roots)
      {
        var held := false;
        for j := 0 to |roots|
          invariant held <==> exists k :: 0 <= k < j && roots[k] != roots[i] && Inside(roots[i], roots[k])
        {
          if roots[j] != roots[i] && roots[j] <= roots[i] {
            held := true;
          }
        }
        if !held {
          kept := kept + [roots[i]];
        }
        assert roots[..i + 1][..i] == roots[..i];
        assert held <==> HeldByAnother(roots[i], roots);
        assert Outermost(roots[..i], roots) + [] == Outermost(roots[..i], roots);
      }
      assert roots[..|roots|] == roots;
      refresh := Some(Refresh(kept, of, generation, sources, tableGeneration));
    }

    /** Whether the library changed. */
    method TakeFinishedRefresh(ended: Option<ScanEnd>) returns (changed: bool)
      modifies this
      ensures State() == RefreshTaken(old(State()), ended)
      ensures changed <==> old(refresh.Some? && ended.Some? && ended.value.Read? && IsCurrent(State(), refresh.value))
      ensures library == if changed then ended.value.library else old(library)
    {
      if refresh.None? || ended.None? {
        return false;
      }
      var was := refresh.value;
      refresh := None;
      if ended.value.Unread? {
        if was.awaited.Some? {
          said := said + [Ending(was.awaited.value.chart, Failed(ended.value.reason))];
        }
        return false;
      }
      if was.generation != generation || was.sources != sources || was.tableGeneration != tableGeneration {
        Rerun(was);
        return false;
      }
      library := ended.value.library;
      generation := (generation + 1) % GENERATIONS;
      tableGeneration := (tableGeneration + 1) % GENERATIONS;
      if was.awaited.Some? {
        var found := was.awaited.value.chart.md5 in library;
        said := said + [Ending(was.awaited.value.chart, Done(found, was.awaited.value.charts))];
      }
      return true;
    }

    /** The same folders again, and what was queued meanwhile. */
    method Rerun(was: Refresh)
      modifies this
      ensures State() == RefreshStarted(
                           old(State()).(queued := [], awaited := if was.awaited.Some? then old(awaited) else None),
                           Merged(was.roots, old(queued)),
                           if was.awaited.Some? then was.awaited else old(awaited))
    {
      var roots, taken := was.roots, queued;
      queued := [];
      for i := 0 to |taken|
        invariant roots == Merged(was.roots, taken[..i])
      {
        assert taken[..i + 1][..i] == taken[..i];
        if taken[i] !in roots {
          roots := roots + [taken[i]];
        }
      }
      assert taken[..|taken|] == taken;
      var of := was.awaited;
      if of.None? {
        of := awaited;
        awaited := None;
      }
      StartRefresh(roots, of);
    }

    method LookAtFolder()
      modifies this`folderSeen, this`queued
      ensures State() == FolderLookedAt(old(State()))
    {
      if folder != folderSeen {
        folderSeen := folder;
        if folder.Some? {
          QueueRoot(folder.value);
        }
      }
    }

    method ScanQueued()
      modifies this`queued, this`awaited, this`refresh
      ensures State() == QueueScanned(old(State()))
    {
      if refresh.None? && job.None? && queued != [] {
        var roots, of := queued, awaited;
        queued, awaited := [], None;
        StartRefresh(roots, of);
      }
    }

    /** Whether the library changed. */
    method ApplyFinished(jobEnd: Option<JobEnd>, scanEnd: Option<ScanEnd>) returns (changed: bool)
      modifies this
      ensures State() == Applied(old(State()), jobEnd, scanEnd)
      ensures changed <==> TakesIn(old(State()), jobEnd, scanEnd)
      ensures library == if changed then scanEnd.value.library else old(library)
    {
      hide RefreshTaken, RefreshStarted, QueueScanned;
      TakeFinishedJob(jobEnd);
      LookAtFolder();
      changed := TakeFinishedRefresh(scanEnd);
      ScanQueued();
    }
  }
}
