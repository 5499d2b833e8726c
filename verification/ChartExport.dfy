/** Writing the patterns of a library's charts (`export` and `store` in chart_pattern.rs). */
module ChartExport {
  import opened Common
  import opened ChartReading

  const BATCH_SIZE: nat := 64

  type Bytes = seq<int>

  /** The folder written to, as the content of each file by name. */
  type Files = map<string, Bytes>

  datatype Failure = Failure(path: string, reason: string)

  datatype Progress = Progress(
    files: Files,
    patterned: set<string>,
    elsewhere: set<string>,
    written: nat,
    alreadyThere: nat,
    duplicates: nat,
    otherMode: nat,
    failures: seq<Failure>)

  function Target(md5: string): string {
    md5 + ".json"
  }

  function Temporary(md5: string): string {
    md5 + ".json.tmp"
  }

  function Opening(files: Files, failures: seq<Failure>): Progress {
    Progress(files, {}, {}, 0, 0, 0, 0, failures)
  }

  predicate IsThere(files: Files, md5: string, document: Bytes) {
    Target(md5) in files && files[Target(md5)] == document
  }

  /** The folder once a document is under its chart's name: the temporary file it was written to has been
      renamed. */
  function Stored(files: Files, md5: string, document: Bytes): Files {
    (files - {Temporary(md5)})[Target(md5) := document]
  }

  /** What one chart adds; nothing when its pattern cannot be written. */
  function Added(p: Progress, path: string, outcome: Outcome, writable: string -> bool): Option<Progress> {
    match outcome
    case Unreadable(reason) => Some(p.(failures := p.failures + [Failure(path, reason)]))
    case OtherMode(md5) => Some(p.(elsewhere := p.elsewhere + {md5}, otherMode := p.otherMode + 1))
    case Pattern(md5, document) =>
      if md5 in p.patterned then Some(p.(duplicates := p.duplicates + 1))
      else
        var known := p.(patterned := p.patterned + {md5});
        if IsThere(p.files, md5, document) then Some(known.(alreadyThere := p.alreadyThere + 1))
        else if !writable(md5) then None
        else Some(known.(files := Stored(p.files, md5, document), written := p.written + 1))
  }

  function Exported(
    p: Progress, paths: seq<string>, outcome: string -> Outcome, writable: string -> bool): Option<Progress> {
    if paths == [] then Some(p)
    else
      match Exported(p, paths[..|paths| - 1], outcome, writable)
      case None => None
      case Some(before) => Added(before, paths[|paths| - 1], outcome(paths[|paths| - 1]), writable)
  }

  lemma NoneAfterNone(p: Progress, paths: seq<string>, outcome: string -> Outcome, writable: string -> bool, k: nat)
    requires k <= |paths| && Exported(p, paths[..k], outcome, writable).None?
    ensures Exported(p, paths, outcome, writable).None?
    decreases |paths|
  {
    if k < |paths| {
      assert paths[..|paths| - 1][..k] == paths[..k];
      NoneAfterNone(p, paths[..|paths| - 1], outcome, writable, k);
    } else {
      assert paths[..k] == paths;
    }
  }

  /** The program's loops: batch after batch, each batch in the order of its paths. */
  method Export(
    files: Files, failures: seq<Failure>, paths: seq<string>, outcome: string -> Outcome, writable: string -> bool,
    cores: nat)
    returns (report: Option<Progress>)
    ensures report == Exported(Opening(files, failures), paths, outcome, writable)
  {
    hide Added, Exported;
    NothingExported(Opening(files, failures), paths, outcome, writable);
    var p := Opening(files, failures);
    var start: nat := 0;
    while start < |paths|
      invariant start <= |paths|
      invariant Exported(Opening(files, failures), paths[..start], outcome, writable) == Some(p)
    {
      var end := if start + BATCH_SIZE < |paths| then start + BATCH_SIZE else |paths|;
      var batch := paths[start..end];
      var read := ReadBatch(batch, outcome, cores);
      for i := 0 to |batch|
        invariant Exported(Opening(files, failures), paths[..start + i], outcome, writable) == Some(p)
      {
        ExportedLonger(Opening(files, failures), paths, outcome, writable, start + i);
        var next := AddOne(p, batch[i], read[i], writable);
        if next.None? {
          NoneAfterNone(Opening(files, failures), paths, outcome, writable, start + i + 1);
          return None;
        }
        p := next.value;
      }
      start := end;
    }
    assert paths[..|paths|] == paths;
    return Some(p);
  }

  method AddOne(before: Progress, path: string, outcome: Outcome, writable: string -> bool)
    returns (after: Option<Progress>)
    ensures after == Added(before, path, outcome, writable)
  {
    var p := before;
    match outcome {
      case Unreadable(reason) =>
        p := p.(failures := p.failures + [Failure(path, reason)]);
      case OtherMode(md5) =>
        p := p.(elsewhere := p.elsewhere + {md5});
        p := p.(otherMode := p.otherMode + 1);
      case Pattern(md5, document) =>
        if md5 in p.patterned {
          return Some(p.(duplicates := p.duplicates + 1));
        }
        p := p.(patterned := p.patterned + {md5});
        if Target(md5) in p.files && p.files[Target(md5)] == document {
          p := p.(alreadyThere := p.alreadyThere + 1);
        } else if !writable(md5) {
          return None;
        } else {
          p := p.(files := Stored(p.files, md5, document), written := p.written + 1);
        }
    }
    return Some(p);
  }

  // ---------- What a run comes to ----------

  /** Every chart found is counted once. */
  lemma {:induction false} CountsAddUp(
    files: Files, failures: seq<Failure>, paths: seq<string>, outcome: string -> Outcome, writable: string -> bool)
    requires Exported(Opening(files, failures), paths, outcome, writable).Some?
    ensures var p := Exported(Opening(files, failures), paths, outcome, writable).value;
            |paths| == p.written + p.alreadyThere + p.duplicates + p.otherMode + (|p.failures| - |failures|)
  {
    if paths != [] {
      CountsAddUp(files, failures, paths[..|paths| - 1], outcome, writable);
    }
  }

  /** The document of the first chart of `md5`. */
  function FirstDocument(paths: seq<string>, outcome: string -> Outcome, md5: string): Option<Bytes> {
    if paths == [] then None
    else
      var earlier := FirstDocument(paths[..|paths| - 1], outcome, md5);
      var last := outcome(paths[|paths| - 1]);
      if earlier.None? && last.Pattern? && last.md5 == md5 then Some(last.document) else earlier
  }

  lemma TargetsAreApart(md5: string, other: string)
    ensures Target(md5) == Target(other) ==> md5 == other
    ensures Temporary(md5) == Temporary(other) ==> md5 == other
    ensures Target(md5) != Temporary(other)
  {
    if Target(md5) == Target(other) {
      assert Target(md5)[..|Target(md5)| - 5] == md5;
      assert Target(other)[..|Target(other)| - 5] == other;
    }
    if Temporary(md5) == Temporary(other) {
      assert Temporary(md5)[..|Temporary(md5)| - 9] == md5;
      assert Temporary(other)[..|Temporary(other)| - 9] == other;
    }
    assert Target(md5)[|Target(md5)| - 1] == 'n';
    assert Temporary(other)[|Temporary(other)| - 1] == 'p';
  }

  function Lookup(files: Files, name: string): Option<Bytes> {
    if name in files then Some(files[name]) else None
  }

  /** Whether a run over `paths` writes a document for `md5`: the first there is, unless it is there already. */
  predicate Writes(files: Files, paths: seq<string>, outcome: string -> Outcome, md5: string) {
    var first := FirstDocument(paths, outcome, md5);
    first.Some? && !IsThere(files, md5, first.value)
  }

  lemma StoredUnder(files: Files, md5: string, document: Bytes, name: string)
    ensures Lookup(Stored(files, md5, document), name)
            == if name == Target(md5) then Some(document)
               else if name == Temporary(md5) then None
               else Lookup(files, name)
  {}

  lemma AddedUnder(p: Progress, path: string, outcome: Outcome, writable: string -> bool, name: string)
    requires Added(p, path, outcome, writable).Some?
    ensures var files := Added(p, path, outcome, writable).value.files;
            if outcome.Pattern? && outcome.md5 !in p.patterned && !IsThere(p.files, outcome.md5, outcome.document)
            then files == Stored(p.files, outcome.md5, outcome.document)
            else files == p.files
    ensures Added(p, path, outcome, writable).value.patterned
            == if outcome.Pattern? then p.patterned + {outcome.md5} else p.patterned
  {
    hide IsThere, Stored;
  }

  /** The file of each chart of the mode holds its first document; where that had to be written no temporary
      file of it is left; and the files of any other md5 are as they were. */
  lemma {:induction false} FilesHoldTheFirst(
    files: Files, failures: seq<Failure>, paths: seq<string>, outcome: string -> Outcome, writable: string -> bool,
    md5: string)
    requires Exported(Opening(files, failures), paths, outcome, writable).Some?
    ensures var p := Exported(Opening(files, failures), paths, outcome, writable).value;
            var first := FirstDocument(paths, outcome, md5);
            && (md5 in p.patterned <==> first.Some?)
            && Lookup(p.files, Target(md5)) == (if first.Some? then first else Lookup(files, Target(md5)))
            && Lookup(p.files, Temporary(md5))
               == (if Writes(files, paths, outcome, md5) then None else Lookup(files, Temporary(md5)))
  {
    hide Target, Temporary, Stored, Added;
    if paths != [] {
      FilesHoldTheFirst(files, failures, paths[..|paths| - 1], outcome, writable, md5);
      var last := outcome(paths[|paths| - 1]);
      var before := Exported(Opening(files, failures), paths[..|paths| - 1], outcome, writable).value;
      AddedUnder(before, paths[|paths| - 1], last, writable, Target(md5));
      if last.Pattern? {
        TargetsAreApart(md5, last.md5);
        TargetsAreApart(last.md5, md5);
        StoredUnder(before.files, last.md5, last.document, Target(md5));
        StoredUnder(before.files, last.md5, last.document, Temporary(md5));
      }
    }
  }

  /** And every other file is as it was. */
  lemma {:induction false} OtherFilesStand(
    files: Files, failures: seq<Failure>, paths: seq<string>, outcome: string -> Outcome, writable: string -> bool,
    name: string)
    requires Exported(Opening(files, failures), paths, outcome, writable).Some?
    requires forall md5 :: name != Target(md5) && name != Temporary(md5)
    ensures Lookup(Exported(Opening(files, failures), paths, outcome, writable).value.files, name)
            == Lookup(files, name)
  {
    hide Target, Temporary, Stored, Added;
    if paths != [] {
      OtherFilesStand(files, failures, paths[..|paths| - 1], outcome, writable, name);
      var last := outcome(paths[|paths| - 1]);
      var before := Exported(Opening(files, failures), paths[..|paths| - 1], outcome, writable).value;
      AddedUnder(before, paths[|paths| - 1], last, writable, name);
      if last.Pattern? {
        StoredUnder(before.files, last.md5, last.document, name);
      }
    }
  }

  /** A chart whose pattern is there already, in the first run and in the second. */
  lemma SameAdded(
    p: Progress, q: Progress, path: string, outcome: Outcome, writable: string -> bool, later: string -> bool)
    requires Added(p, path, outcome, writable).Some? && p.patterned == q.patterned
    requires outcome.Pattern? && outcome.md5 !in q.patterned ==> IsThere(q.files, outcome.md5, outcome.document)
    ensures var first, again := Added(p, path, outcome, writable).value, Added(q, path, outcome, later);
            && again.Some?
            && again.value.written == q.written && again.value.files == q.files
            && again.value.alreadyThere - q.alreadyThere
               == first.written + first.alreadyThere - (p.written + p.alreadyThere)
            && again.value.patterned == first.patterned
  {
    hide IsThere;
  }

  ghost predicate WritesNothing(first: Progress, again: Progress, files: Files) {
    && again.written == 0
    && again.files == files
    && again.alreadyThere == first.written + first.alreadyThere
    && again.patterned == first.patterned
  }

  lemma ExportedLonger(p: Progress, paths: seq<string>, outcome: string -> Outcome, writable: string -> bool, k: nat)
    requires k < |paths|
    ensures Exported(p, paths[..k + 1], outcome, writable)
            == match Exported(p, paths[..k], outcome, writable)
               case None => None
               case Some(before) => Added(before, paths[k], outcome(paths[k]), writable)
  {
    hide Added;
    assert paths[..k + 1][..k] == paths[..k];
  }

  lemma NothingExported(p: Progress, paths: seq<string>, outcome: string -> Outcome, writable: string -> bool)
    ensures Exported(p, paths[..0], outcome, writable) == Some(p)
  {}

  lemma {:induction false} SecondRun(
    files: Files, failures: seq<Failure>, paths: seq<string>, outcome: string -> Outcome, writable: string -> bool,
    later: string -> bool, k: nat)
    requires k <= |paths| && Exported(Opening(files, failures), paths, outcome, writable).Some?
    ensures var done := Exported(Opening(files, failures), paths, outcome, writable).value;
            var first, again :=
              Exported(Opening(files, failures), paths[..k], outcome, writable),
              Exported(Opening(done.files, failures), paths[..k], outcome, later);
            first.Some? && again.Some? && WritesNothing(first.value, again.value, done.files)
    decreases k
  {
    hide Added, FirstDocument, Exported;
    var done := Exported(Opening(files, failures), paths, outcome, writable).value;
    if k == 0 {
      NothingExported(Opening(files, failures), paths, outcome, writable);
      NothingExported(Opening(done.files, failures), paths, outcome, later);
    } else {
      SecondRun(files, failures, paths, outcome, writable, later, k - 1);
      if Exported(Opening(files, failures), paths[..k], outcome, writable).None? {
        NoneAfterNone(Opening(files, failures), paths, outcome, writable, k);
        assert false;
      }
      ExportedLonger(Opening(files, failures), paths, outcome, writable, k - 1);
      ExportedLonger(Opening(done.files, failures), paths, outcome, later, k - 1);
      PatternIsThere(files, failures, paths, outcome, writable, k - 1);
      SameAdded(Exported(Opening(files, failures), paths[..k - 1], outcome, writable).value,
                Exported(Opening(done.files, failures), paths[..k - 1], outcome, later).value,
                paths[k - 1], outcome(paths[k - 1]), writable, later);
    }
  }

  /** What the first run leaves under the name of a chart is the document that chart has. */
  lemma PatternIsThere(
    files: Files, failures: seq<Failure>, paths: seq<string>, outcome: string -> Outcome, writable: string -> bool,
    k: nat)
    requires k < |paths| && Exported(Opening(files, failures), paths, outcome, writable).Some?
    requires Exported(Opening(files, failures), paths[..k], outcome, writable).Some?
    ensures var done := Exported(Opening(files, failures), paths, outcome, writable).value;
            var last := outcome(paths[k]);
            last.Pattern?
              && last.md5 !in Exported(Opening(files, failures), paths[..k], outcome, writable).value.patterned
            ==> IsThere(done.files, last.md5, last.document)
  {
    hide Exported, FirstDocument, Target;
    var last := outcome(paths[k]);
    if last.Pattern? && last.md5 !in Exported(Opening(files, failures), paths[..k], outcome, writable).value.patterned {
      FilesHoldTheFirst(files, failures, paths[..k], outcome, writable, last.md5);
      FilesHoldTheFirst(files, failures, paths, outcome, writable, last.md5);
      FirstStaysFirst(paths, outcome, last.md5, k);
    }
  }

  /** Exporting the same library again writes nothing, whether or not the folder can still be written to:
      every pattern is there already. */
  lemma SecondRunWritesNothing(
    files: Files, failures: seq<Failure>, paths: seq<string>, outcome: string -> Outcome, writable: string -> bool,
    later: string -> bool)
    requires Exported(Opening(files, failures), paths, outcome, writable).Some?
    ensures var first := Exported(Opening(files, failures), paths, outcome, writable).value;
            var again := Exported(Opening(first.files, failures), paths, outcome, later);
            && again.Some?
            && again.value.written == 0
            && again.value.files == first.files
            && again.value.alreadyThere == first.written + first.alreadyThere
  {
    hide Exported;
    assert paths[..|paths|] == paths;
    SecondRun(files, failures, paths, outcome, writable, later, |paths|);
  }

  lemma {:induction false} FirstStaysFirst(paths: seq<string>, outcome: string -> Outcome, md5: string, k: nat)
    requires k < |paths|
    requires outcome(paths[k]).Pattern? && outcome(paths[k]).md5 == md5 && FirstDocument(paths[..k], outcome, md5).None?
    ensures FirstDocument(paths, outcome, md5) == Some(outcome(paths[k]).document)
    decreases |paths|
  {
    if k == |paths| - 1 {
      assert paths[..k] == paths[..|paths| - 1];
    } else {
      assert paths[..|paths| - 1][..k] == paths[..k];
      FirstStaysFirst(paths[..|paths| - 1], outcome, md5, k);
    }
  }

  // ---------- A crash ----------

  /** How far writing one pattern has come: nothing yet, the first bytes of the temporary file, or the
      temporary file renamed. */
  datatype Stage = Untouched | Partly(bytes: nat) | Renamed

  function OnDisk(files: Files, md5: string, document: Bytes, stage: Stage): Files {
    match stage
    case Untouched => files
    case Partly(k) => files[Temporary(md5) := if k <= |document| then document[..k] else document]
    case Renamed => Stored(files, md5, document)
  }

  /** A run stopped at any moment, in the middle of writing a pattern included, leaves under every chart's
      name the file that was there before or the whole document of that chart. */
  lemma CrashLeavesWholeFiles(
    files: Files, failures: seq<Failure>, paths: seq<string>, outcome: string -> Outcome, writable: string -> bool,
    k: nat, stage: Stage, md5: string)
    requires k < |paths| && outcome(paths[k]).Pattern?
    requires Exported(Opening(files, failures), paths[..k], outcome, writable).Some?
    requires outcome(paths[k]).md5 !in Exported(Opening(files, failures), paths[..k], outcome, writable).value.patterned
    ensures var p := Exported(Opening(files, failures), paths[..k], outcome, writable).value;
            var disk := OnDisk(p.files, outcome(paths[k]).md5, outcome(paths[k]).document, stage);
            || (Target(md5) !in disk && Target(md5) !in files)
            || (Target(md5) in disk && Target(md5) in files && disk[Target(md5)] == files[Target(md5)])
            || (Target(md5) in disk && FirstDocument(paths[..k + 1], outcome, md5) == Some(disk[Target(md5)]))
  {
    hide Added, Target, Temporary, Exported;
    var writing := outcome(paths[k]).md5;
    assert paths[..k + 1][..k] == paths[..k];
    FilesHoldTheFirst(files, failures, paths[..k], outcome, writable, md5);
    FilesHoldTheFirst(files, failures, paths[..k], outcome, writable, writing);
    TargetsAreApart(md5, writing);
    TargetsAreApart(writing, writing);
  }

  lemma {:induction false} FirstIsLasting(paths: seq<string>, outcome: string -> Outcome, md5: string, k: nat)
    requires k <= |paths| && FirstDocument(paths[..k], outcome, md5).Some?
    ensures FirstDocument(paths, outcome, md5) == FirstDocument(paths[..k], outcome, md5)
    decreases |paths|
  {
    if k == |paths| {
      assert paths[..k] == paths;
    } else {
      assert paths[..|paths| - 1][..k] == paths[..k];
      FirstIsLasting(paths[..|paths| - 1], outcome, md5, k);
    }
  }

  /** The folder a run leaves when it stops while writing the chart at `k`, which it writes only if it is
      not there. */
  ghost predicate StopsAt(
    files: Files, failures: seq<Failure>, paths: seq<string>, outcome: string -> Outcome, writable: string -> bool,
    k: nat, stage: Stage, disk: Files)
  {
    && k < |paths| && outcome(paths[k]).Pattern?
    && var before := Exported(Opening(files, failures), paths[..k], outcome, writable);
    && before.Some?
    && outcome(paths[k]).md5 !in before.value.patterned
    && !IsThere(before.value.files, outcome(paths[k]).md5, outcome(paths[k]).document)
    && disk == OnDisk(before.value.files, outcome(paths[k]).md5, outcome(paths[k]).document, stage)
  }

  lemma DiskUnder(files: Files, md5: string, document: Bytes, stage: Stage, name: string)
    ensures name != Target(md5) && name != Temporary(md5)
            ==> Lookup(OnDisk(files, md5, document, stage), name) == Lookup(files, name)
    ensures !stage.Renamed? ==> Lookup(OnDisk(files, md5, document, stage), Target(md5)) == Lookup(files, Target(md5))
    ensures stage.Renamed? ==>
              && Lookup(OnDisk(files, md5, document, stage), Target(md5)) == Some(document)
              && Lookup(OnDisk(files, md5, document, stage), Temporary(md5)) == None
  {
    TargetsAreApart(md5, md5);
  }

  /** What a run over the stopped run's folder makes of one md5 is what it would have made of the folder there
      was. */
  lemma SameOfChart(
    files: Files, failures: seq<Failure>, paths: seq<string>, outcome: string -> Outcome, writable: string -> bool,
    k: nat, stage: Stage, disk: Files, md5: string)
    requires StopsAt(files, failures, paths, outcome, writable, k, stage, disk)
    ensures FirstDocument(paths, outcome, md5).None? ==> Lookup(disk, Target(md5)) == Lookup(files, Target(md5))
    ensures (if Writes(disk, paths, outcome, md5) then None else Lookup(disk, Temporary(md5)))
            == (if Writes(files, paths, outcome, md5) then None else Lookup(files, Temporary(md5)))
  {
    hide Exported, Target, Temporary, OnDisk, FirstDocument;
    var writing, document := outcome(paths[k]).md5, outcome(paths[k]).document;
    var before := Exported(Opening(files, failures), paths[..k], outcome, writable).value;
    FilesHoldTheFirst(files, failures, paths[..k], outcome, writable, md5);
    FilesHoldTheFirst(files, failures, paths[..k], outcome, writable, writing);
    TargetsAreApart(md5, writing);
    TargetsAreApart(writing, md5);
    DiskUnder(before.files, writing, document, stage, Target(md5));
    DiskUnder(before.files, writing, document, stage, Temporary(md5));
    FirstStaysFirst(paths, outcome, writing, k);
    if FirstDocument(paths[..k], outcome, md5).Some? {
      FirstIsLasting(paths, outcome, md5, k);
    }
  }

  /** Exporting again after a run was stopped leaves the very files an uninterrupted run would have left, a
      half-written temporary file included. */
  lemma RunAfterACrash(
    files: Files, failures: seq<Failure>, paths: seq<string>, outcome: string -> Outcome, writable: string -> bool,
    k: nat, stage: Stage, disk: Files, later: string -> bool, whole: string -> bool)
    requires StopsAt(files, failures, paths, outcome, writable, k, stage, disk)
    requires Exported(Opening(disk, failures), paths, outcome, later).Some?
    requires Exported(Opening(files, failures), paths, outcome, whole).Some?
    ensures Exported(Opening(disk, failures), paths, outcome, later).value.files
            == Exported(Opening(files, failures), paths, outcome, whole).value.files
  {
    hide StopsAt, Exported, FirstDocument, Writes, Target, Temporary;
    var again := Exported(Opening(disk, failures), paths, outcome, later).value.files;
    var once := Exported(Opening(files, failures), paths, outcome, whole).value.files;
    forall name: string
      ensures Lookup(again, name) == Lookup(once, name)
    {
      if md5 :| name == Target(md5) || name == Temporary(md5) {
        FilesHoldTheFirst(files, failures, paths, outcome, whole, md5);
        FilesHoldTheFirst(disk, failures, paths, outcome, later, md5);
        SameOfChart(files, failures, paths, outcome, writable, k, stage, disk, md5);
      } else {
        OtherFilesStand(files, failures, paths, outcome, whole, name);
        OtherFilesStand(disk, failures, paths, outcome, later, name);
        OtherOnDisk(files, failures, paths, outcome, writable, k, stage, disk, name);
      }
    }
    SameFiles(again, once);
  }

  lemma OtherOnDisk(
    files: Files, failures: seq<Failure>, paths: seq<string>, outcome: string -> Outcome, writable: string -> bool,
    k: nat, stage: Stage, disk: Files, name: string)
    requires StopsAt(files, failures, paths, outcome, writable, k, stage, disk)
    requires forall md5 :: name != Target(md5) && name != Temporary(md5)
    ensures Lookup(disk, name) == Lookup(files, name)
  {
    hide Exported, Target, Temporary, OnDisk;
    OtherFilesStand(files, failures, paths[..k], outcome, writable, name);
    DiskUnder(Exported(Opening(files, failures), paths[..k], outcome, writable).value.files,
              outcome(paths[k]).md5, outcome(paths[k]).document, stage, name);
  }

  lemma SameFiles(a: Files, b: Files)
    requires forall name: string :: Lookup(a, name) == Lookup(b, name)
    ensures a == b
  {
    forall name: string
      ensures name in a <==> name in b
      ensures name in a && name in b ==> a[name] == b[name]
    {
      assert Lookup(a, name) == Lookup(b, name);
    }
  }
}
