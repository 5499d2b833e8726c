/** What the report of an export says: which charts each number counts, and when the run fails. */
module ExportReport {
  import opened Common
  import opened ChartReading
  import opened ChartExport

  /** The charts that could not be read, in the order of their paths. */
  function Unread(paths: seq<string>, outcome: string -> Outcome): seq<Failure> {
    if paths == [] then []
    else
      var path := paths[|paths| - 1];
      Unread(paths[..|paths| - 1], outcome)
      + (match outcome(path) case Unreadable(reason) => [Failure(path, reason)] case _ => [])
  }

  function OfOtherModes(paths: seq<string>, outcome: string -> Outcome): nat {
    if paths == [] then 0
    else OfOtherModes(paths[..|paths| - 1], outcome) + (if outcome(paths[|paths| - 1]).OtherMode? then 1 else 0)
  }

  function OfTheMode(paths: seq<string>, outcome: string -> Outcome): nat {
    if paths == [] then 0
    else OfTheMode(paths[..|paths| - 1], outcome) + (if outcome(paths[|paths| - 1]).Pattern? then 1 else 0)
  }

  /** The md5s whose document a run writes. */
  function WrittenOf(
    files: Files, paths: seq<string>, outcome: string -> Outcome, patterned: set<string>): set<string> {
    set md5 | md5 in patterned && Writes(files, paths, outcome, md5)
  }

  lemma FirstOfLonger(paths: seq<string>, outcome: string -> Outcome, md5: string)
    requires paths != []
    ensures var init, last := paths[..|paths| - 1], outcome(paths[|paths| - 1]);
            FirstDocument(paths, outcome, md5)
            == if FirstDocument(init, outcome, md5).Some? then FirstDocument(init, outcome, md5)
               else if last.Pattern? && last.md5 == md5 then Some(last.document)
               else None
  {}

  /** Each count is of what it is named after: unreadable charts are failures, in order; a chart of the mode is a
      duplicate unless it is the first of its md5; and of the first ones, the written are those whose document was not
      there already. */
  lemma {:induction false} CountsAre(
    files: Files, failures: seq<Failure>, paths: seq<string>, outcome: string -> Outcome, writable: string -> bool)
    requires Exported(Opening(files, failures), paths, outcome, writable).Some?
    ensures var p := Exported(Opening(files, failures), paths, outcome, writable).value;
            && p.failures == failures + Unread(paths, outcome)
            && p.otherMode == OfOtherModes(paths, outcome)
            && p.duplicates + |p.patterned| == OfTheMode(paths, outcome)
            && p.written == |WrittenOf(files, paths, outcome, p.patterned)|
            && p.written + p.alreadyThere == |p.patterned|
  {
    hide Writes, FirstDocument, IsThere, Stored, Added, WrittenOf;
    if paths == [] {
      NothingCounted(files, failures, paths, outcome, writable);
    } else {
      var init, path := paths[..|paths| - 1], paths[|paths| - 1];
      CountsAre(files, failures, init, outcome, writable);
      AddedCounts(Exported(Opening(files, failures), init, outcome, writable).value, path, outcome(path), writable);
      OneMoreCounted(files, failures, paths, outcome, writable);
    }
  }

  lemma NothingCounted(
    files: Files, failures: seq<Failure>, paths: seq<string>, outcome: string -> Outcome, writable: string -> bool)
    requires paths == []
    ensures var p := Exported(Opening(files, failures), paths, outcome, writable).value;
            && p == Opening(files, failures)
            && WrittenOf(files, paths, outcome, p.patterned) == {}
  {}

  /** One chart more adds its own md5 to those written, or none. */
  lemma WrittenLonger(
    files: Files, failures: seq<Failure>, paths: seq<string>, outcome: string -> Outcome, writable: string -> bool,
    patterned: set<string>)
    requires paths != [] && Exported(Opening(files, failures), paths[..|paths| - 1], outcome, writable).Some?
    requires patterned == Exported(Opening(files, failures), paths[..|paths| - 1], outcome, writable).value.patterned
    ensures var init, last := paths[..|paths| - 1], outcome(paths[|paths| - 1]);
            var was := WrittenOf(files, init, outcome, patterned);
            && WrittenOf(files, paths, outcome, patterned) == was
            && (last.Pattern? && last.md5 !in patterned ==>
                  WrittenOf(files, paths, outcome, patterned + {last.md5})
                  == if IsThere(files, last.md5, last.document) then was else was + {last.md5})
  {
    hide Exported, FirstDocument, IsThere;
    var init, last := paths[..|paths| - 1], outcome(paths[|paths| - 1]);
    forall md5 | md5 in patterned
      ensures Writes(files, paths, outcome, md5) <==> Writes(files, init, outcome, md5)
    {
      FilesHoldTheFirst(files, failures, init, outcome, writable, md5);
      FirstOfLonger(paths, outcome, md5);
    }
    if last.Pattern? && last.md5 !in patterned {
      FilesHoldTheFirst(files, failures, init, outcome, writable, last.md5);
      FirstOfLonger(paths, outcome, last.md5);
    }
  }

  /** What one chart adds to each number. */
  lemma AddedCounts(before: Progress, path: string, last: Outcome, writable: string -> bool)
    requires Added(before, path, last, writable).Some?
    ensures var p := Added(before, path, last, writable).value;
            var isNew := last.Pattern? && last.md5 !in before.patterned;
            var there := isNew && IsThere(before.files, last.md5, last.document);
            && p.patterned == (if isNew then before.patterned + {last.md5} else before.patterned)
            && p.duplicates == before.duplicates + (if last.Pattern? && !isNew then 1 else 0)
            && p.written == before.written + (if isNew && !there then 1 else 0)
            && p.alreadyThere == before.alreadyThere + (if there then 1 else 0)
            && p.otherMode == before.otherMode + (if last.OtherMode? then 1 else 0)
            && p.failures == before.failures + (match last
                                                case Unreadable(reason) => [Failure(path, reason)]
                                                case _ => [])
  {
    hide IsThere, Stored;
  }

  lemma OneMoreCounted(
    files: Files, failures: seq<Failure>, paths: seq<string>, outcome: string -> Outcome, writable: string -> bool)
    requires paths != [] && Exported(Opening(files, failures), paths, outcome, writable).Some?
    ensures var init, last := paths[..|paths| - 1], outcome(paths[|paths| - 1]);
            var before := Exported(Opening(files, failures), init, outcome, writable).value;
            var p := Exported(Opening(files, failures), paths, outcome, writable).value;
            |WrittenOf(files, paths, outcome, p.patterned)| - |WrittenOf(files, init, outcome, before.patterned)|
            == p.written - before.written
  {
    hide Writes, FirstDocument, Stored, Target, Added;
    var init, last := paths[..|paths| - 1], outcome(paths[|paths| - 1]);
    var before := Exported(Opening(files, failures), init, outcome, writable).value;
    AddedCounts(before, paths[|paths| - 1], last, writable);
    WrittenLonger(files, failures, paths, outcome, writable, before.patterned);
    if last.Pattern? && last.md5 !in before.patterned {
      FilesHoldTheFirst(files, failures, init, outcome, writable, last.md5);
      ThereAlready(before.files, files, last.md5, last.document);
      assert last.md5 !in WrittenOf(files, init, outcome, before.patterned);
    }
  }

  // ---------- Charts of other modes ----------

  ghost predicate OfAnotherMode(paths: seq<string>, outcome: string -> Outcome, md5: string) {
    exists i :: 0 <= i < |paths| && outcome(paths[i]) == OtherMode(md5)
  }

  lemma OfAnotherModeLonger(paths: seq<string>, outcome: string -> Outcome, md5: string)
    requires paths != []
    ensures OfAnotherMode(paths, outcome, md5)
            <==> OfAnotherMode(paths[..|paths| - 1], outcome, md5) || outcome(paths[|paths| - 1]) == OtherMode(md5)
  {
    var init := paths[..|paths| - 1];
    if OfAnotherMode(init, outcome, md5) {
      var i :| 0 <= i < |init| && outcome(init[i]) == OtherMode(md5);
      assert paths[i] == init[i];
    }
    if OfAnotherMode(paths, outcome, md5) {
      var i :| 0 <= i < |paths| && outcome(paths[i]) == OtherMode(md5);
      assert i < |init| ==> init[i] == paths[i];
    }
  }

  /** The charts known to be of another mode are those read as one. */
  lemma {:induction false} ElsewhereIs(
    files: Files, failures: seq<Failure>, paths: seq<string>, outcome: string -> Outcome, writable: string -> bool,
    md5: string)
    requires Exported(Opening(files, failures), paths, outcome, writable).Some?
    ensures md5 in Exported(Opening(files, failures), paths, outcome, writable).value.elsewhere
            <==> OfAnotherMode(paths, outcome, md5)
  {
    hide OfAnotherMode, IsThere, Stored;
    if paths == [] {
      NoOtherMode(outcome, md5);
    } else {
      ElsewhereIs(files, failures, paths[..|paths| - 1], outcome, writable, md5);
      OfAnotherModeLonger(paths, outcome, md5);
    }
  }

  lemma NoOtherMode(outcome: string -> Outcome, md5: string)
    ensures !OfAnotherMode([], outcome, md5)
  {}

  // ---------- When a run fails ----------

  lemma WritesLonger(files: Files, paths: seq<string>, outcome: string -> Outcome, md5: string)
    requires paths != []
    ensures var init, last := paths[..|paths| - 1], outcome(paths[|paths| - 1]);
            Writes(files, paths, outcome, md5)
            <==> || Writes(files, init, outcome, md5)
                 || (last.Pattern? && last.md5 == md5 && FirstDocument(init, outcome, md5).None?
                     && !IsThere(files, md5, last.document))
  {
    hide IsThere, FirstDocument;
    FirstOfLonger(paths, outcome, md5);
  }

  lemma NothingWritten(files: Files, outcome: string -> Outcome, md5: string)
    ensures !Writes(files, [], outcome, md5)
  {}

  /** A run fails exactly when a document it has to write cannot be written. */
  lemma {:induction false} FailsExactly(
    files: Files, failures: seq<Failure>, paths: seq<string>, outcome: string -> Outcome, writable: string -> bool)
    ensures Exported(Opening(files, failures), paths, outcome, writable).Some?
            <==> forall md5 :: Writes(files, paths, outcome, md5) ==> writable(md5)
  {
    hide Writes, IsThere, FirstDocument, Stored;
    if paths == [] {
      forall md5 ensures !Writes(files, [], outcome, md5) {
        NothingWritten(files, outcome, md5);
      }
    } else {
      var init, last := paths[..|paths| - 1], outcome(paths[|paths| - 1]);
      FailsExactly(files, failures, init, outcome, writable);
      forall md5
        ensures Writes(files, paths, outcome, md5)
                <==> || Writes(files, init, outcome, md5)
                     || (last.Pattern? && last.md5 == md5 && FirstDocument(init, outcome, md5).None?
                         && !IsThere(files, md5, last.document))
      {
        WritesLonger(files, paths, outcome, md5);
      }
      if last.Pattern? && Exported(Opening(files, failures), init, outcome, writable).Some? {
        FilesHoldTheFirst(files, failures, init, outcome, writable, last.md5);
        ThereAlready(Exported(Opening(files, failures), init, outcome, writable).value.files, files,
                     last.md5, last.document);
      }
    }
  }

  lemma ThereAlready(now: Files, files: Files, md5: string, document: Bytes)
    ensures Lookup(now, Target(md5)) == Lookup(files, Target(md5)) ==>
              (IsThere(now, md5, document) <==> IsThere(files, md5, document))
  {}

  // ---------- Names and workers ----------

  /** The document of a chart is in the file of its md5 with the extension `.json`, and was written to the one with
      `.json.tmp`. */
  lemma FilesByName(
    files: Files, failures: seq<Failure>, paths: seq<string>, outcome: string -> Outcome, writable: string -> bool,
    md5: string)
    requires Exported(Opening(files, failures), paths, outcome, writable).Some?
    requires FirstDocument(paths, outcome, md5).Some?
    ensures var after := Exported(Opening(files, failures), paths, outcome, writable).value.files;
            && Lookup(after, md5 + ".json") == FirstDocument(paths, outcome, md5)
            && (Lookup(files, md5 + ".json") != FirstDocument(paths, outcome, md5) ==>
                  Lookup(after, md5 + ".json.tmp") == None)
  {
    hide Exported, FirstDocument;
    FilesHoldTheFirst(files, failures, paths, outcome, writable, md5);
  }

  /** There are as many workers as cores, but no more than eight and no more than charts, and always one. */
  lemma WorkersAreAsManyAsFit(cores: nat, jobs: nat, n: nat)
    ensures 1 <= n <= WorkerCount(cores, jobs) <==> n == 1 || (1 < n <= 8 && n <= cores && n <= jobs)
  {}
}
