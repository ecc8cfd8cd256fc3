/**
 * Packaging of a partial export: zipFiles walks the seven type directories
 * with filepath.Walk and copies every regular file into the archive under
 * its type's relative directory, named by its base name. A walk error in one
 * root is logged (walkWarn) and the next root is walked anyway.
 *
 * The file system is a parameter: for each root, the calls filepath.Walk
 * would make to its walk function, in walk order, each with the answers the
 * zip writer and the file system give for that file.
 */
module Archive {
  import opened ExportSpecs
  import GoPath

  /** How the zip writer and the file system answer for one file. */
  datatype FileIO = FileIO(createFails: bool, openFails: bool, copyFails: bool)

  /**
   * One call of the walk function: the path, whether it is a directory, and
   * whether the walk hands it an error (a failed lstat or directory read).
   */
  datatype Visit = Visit(path: string, isDir: bool, walkErr: bool, io: FileIO)

  /** An archive entry: its name, the file it was copied from, and whether the copy completed. */
  datatype Entry = Entry(name: string, source: string, complete: bool)

  /** The entries a step adds and whether it returns an error. */
  datatype Outcome = Outcome(entries: seq<Entry>, failed: bool)

  /** What filepath.Walk visits from a root path. */
  type FileSystem = string -> seq<Visit>

  /**
   * The entry name zipFile uses: the file's base name joined to the output
   * directory; ToSlash is the identity where the separator is already '/'.
   */
  function EntryName(outDir: string, fn: string): string
  {
    GoPath.Join(outDir, GoPath.Base(fn))
  }

  /** A file lands directly in its output directory, under its own base name. */
  lemma EntryNameInDir(outDir: string, fn: string)
    requires outDir != [] && GoPath.Base(fn) != [GoPath.Separator]
    ensures EntryName(outDir, fn) == outDir + [GoPath.Separator] + GoPath.Base(fn)
    ensures GoPath.Base(EntryName(outDir, fn)) == GoPath.Base(fn)
  {
    GoPath.BaseOfElement(outDir, GoPath.Base(fn));
  }

  /**
   * zipFile: the entry is created before the file is opened, so a file that
   * fails to open or to copy still leaves an incomplete entry behind.
   */
  function ZipFileOutcome(outDir: string, fn: string, io: FileIO): (o: Outcome)
    ensures o.failed <==> io.createFails || io.openFails || io.copyFails
    ensures io.createFails <==> o.entries == []
    ensures o.entries != [] ==> o.entries == [Entry(EntryName(outDir, fn), fn, !o.failed)]
  {
    if io.createFails then Outcome([], true)
    else
      var complete := !io.openFails && !io.copyFails;
      Outcome([Entry(EntryName(outDir, fn), fn, complete)], !complete)
  }

  /** zipWalkFunc: pass a walk error on, skip directories, zip everything else. */
  function VisitOutcome(outDir: string, v: Visit): (o: Outcome)
    ensures v.walkErr ==> o == Outcome([], true)
    ensures !v.walkErr && v.isDir ==> o == Outcome([], false)
    ensures !v.walkErr && !v.isDir ==> (o.failed <==> v.io.createFails || v.io.openFails || v.io.copyFails)
  {
    if v.walkErr then Outcome([], true)
    else if v.isDir then Outcome([], false)
    else ZipFileOutcome(outDir, v.path, v.io)
  }

  /** filepath.Walk with zipWalkFunc: the walk stops at the first error the function returns. */
  function Walk(outDir: string, visits: seq<Visit>): Outcome
    decreases |visits|
  {
    if visits == [] then Outcome([], false)
    else
      var before := Walk(outDir, visits[..|visits| - 1]);
      if before.failed then before
      else
        var o := VisitOutcome(outDir, visits[|visits| - 1]);
        Outcome(before.entries + o.entries, o.failed)
  }

  /** The entries a walk that meets no error makes: one complete entry per file. */
  function CleanEntries(outDir: string, visits: seq<Visit>): seq<Entry>
    decreases |visits|
  {
    if visits == [] then []
    else
      var v := visits[|visits| - 1];
      CleanEntries(outDir, visits[..|visits| - 1])
        + (if v.isDir then [] else [Entry(EntryName(outDir, v.path), v.path, true)])
  }

  predicate Fails(outDir: string, v: Visit)
  {
    VisitOutcome(outDir, v).failed
  }

  /** A walk fails exactly when one of its visits does. */
  lemma WalkFailsIff(outDir: string, visits: seq<Visit>)
    ensures Walk(outDir, visits).failed <==> exists i :: 0 <= i < |visits| && Fails(outDir, visits[i])
  {
    forall i | 0 <= i < |visits| && Fails(outDir, visits[i])
      ensures Walk(outDir, visits).failed
    {
      WalkStopsAtError(outDir, visits, i);
    }
    if Walk(outDir, visits).failed {
      WalkFailedSomewhere(outDir, visits);
    }
  }

  lemma {:induction false} WalkFailedSomewhere(outDir: string, visits: seq<Visit>)
    requires Walk(outDir, visits).failed
    ensures exists i :: 0 <= i < |visits| && Fails(outDir, visits[i])
    decreases |visits|
  {
    assert visits != [];
    var n := |visits| - 1;
    var init := visits[..n];
    if Walk(outDir, init).failed {
      WalkFailedSomewhere(outDir, init);
      var i :| 0 <= i < |init| && Fails(outDir, init[i]);
      assert visits[i] == init[i];
    } else {
      assert Fails(outDir, visits[n]);
    }
  }

  /** A walk that has not failed yet takes the next visit. */
  lemma WalkNext(outDir: string, visits: seq<Visit>, i: nat)
    requires i < |visits| && !Walk(outDir, visits[..i]).failed
    ensures Walk(outDir, visits[..i + 1])
         == Outcome(Walk(outDir, visits[..i]).entries + VisitOutcome(outDir, visits[i]).entries,
                    VisitOutcome(outDir, visits[i]).failed)
  {
    assert visits[..i + 1][..i] == visits[..i];
  }

  /** Nothing after the first failing visit reaches the archive. */
  lemma {:induction false} WalkStopsAtError(outDir: string, visits: seq<Visit>, i: nat)
    requires i < |visits| && Fails(outDir, visits[i])
    ensures Walk(outDir, visits) == Walk(outDir, visits[..i + 1])
    ensures Walk(outDir, visits).failed
    decreases |visits|
  {
    if |visits| == i + 1 {
      assert visits[..i + 1] == visits;
    } else {
      var init := visits[..|visits| - 1];
      assert init[i] == visits[i];
      WalkStopsAtError(outDir, init, i);
      assert init[..i + 1] == visits[..i + 1];
      WalkKeepsFailure(outDir, visits);
    }
  }

  /** Once a walk has failed, the visits after that change nothing. */
  lemma WalkKeepsFailure(outDir: string, visits: seq<Visit>)
    requires visits != [] && Walk(outDir, visits[..|visits| - 1]).failed
    ensures Walk(outDir, visits) == Walk(outDir, visits[..|visits| - 1])
  {
  }

  /** Without errors, every file gets one complete entry, in walk order, and directories none. */
  lemma {:induction false} WalkClean(outDir: string, visits: seq<Visit>)
    requires forall i :: 0 <= i < |visits| ==> !Fails(outDir, visits[i])
    ensures Walk(outDir, visits) == Outcome(CleanEntries(outDir, visits), false)
    decreases |visits|
  {
    if visits != [] {
      var init := visits[..|visits| - 1];
      assert forall i :: 0 <= i < |init| ==> init[i] == visits[i];
      WalkClean(outDir, init);
      assert !Fails(outDir, visits[|visits| - 1]);
    }
  }

  /** Every entry comes from a visit of a file (never a directory) without a walk error, and is named after it. */
  lemma {:induction false} WalkEntriesAreFiles(outDir: string, visits: seq<Visit>, e: Entry)
    requires e in Walk(outDir, visits).entries
    ensures exists v :: v in visits && !v.isDir && !v.walkErr && !v.io.createFails
                     && e.name == EntryName(outDir, v.path) && e.source == v.path
    decreases |visits|
  {
    var init := visits[..|visits| - 1];
    var v := visits[|visits| - 1];
    var before := Walk(outDir, init);
    if e in before.entries {
      WalkEntriesAreFiles(outDir, init, e);
      var w :| w in init && !w.isDir && !w.walkErr && !w.io.createFails
             && e.name == EntryName(outDir, w.path) && e.source == w.path;
      assert w in visits;
    } else {
      assert e in VisitOutcome(outDir, v).entries;
      assert v in visits;
    }
  }

  // ------------------------------------------------------------- the writer

  /** The zip writer: the entries written so far. */
  class ZipWriter {
    var entries: seq<Entry>

    constructor ()
      ensures entries == []
    {
      entries := [];
    }
  }

  /** zipFile: create the entry, open the file, copy it in. */
  method ZipFile(z: ZipWriter, fn: string, outDir: string, io: FileIO) returns (failed: bool)
    modifies z
    ensures z.entries == old(z.entries) + ZipFileOutcome(outDir, fn, io).entries
    ensures failed == ZipFileOutcome(outDir, fn, io).failed
  {
    var p := EntryName(outDir, fn);
    if io.createFails {
      return true;
    }
    z.entries := z.entries + [Entry(p, fn, false)];
    if io.openFails {
      return true;
    }
    if io.copyFails {
      return true;
    }
    z.entries := z.entries[..|z.entries| - 1] + [Entry(p, fn, true)];
    return false;
  }

  /** The walk function zipWalkFunc builds, for one visit. */
  method ZipWalkFunc(z: ZipWriter, outDir: string, v: Visit) returns (failed: bool)
    modifies z
    ensures z.entries == old(z.entries) + VisitOutcome(outDir, v).entries
    ensures failed == VisitOutcome(outDir, v).failed
  {
    if v.walkErr {
      return true;
    }
    if v.isDir {
      return false;
    }
    failed := ZipFile(z, v.path, outDir, v.io);
  }

  /** walkWarn: walk one root; an error ends this walk and is only logged (`warned`). */
  method WalkWarn(z: ZipWriter, visits: seq<Visit>, outDir: string) returns (warned: bool)
    modifies z
    ensures z.entries == old(z.entries) + Walk(outDir, visits).entries
    ensures warned == Walk(outDir, visits).failed
  {
    var i := 0;
    warned := false;
    while i < |visits| && !warned
      invariant 0 <= i <= |visits|
      invariant Walk(outDir, visits[..i]).failed == warned
      invariant warned ==> Walk(outDir, visits) == Walk(outDir, visits[..i])
      invariant z.entries == old(z.entries) + Walk(outDir, visits[..i]).entries
    {
      WalkNext(outDir, visits, i);
      var failed := ZipWalkFunc(z, outDir, visits[i]);
      if failed {
        WalkStopsAtError(outDir, visits, i);
      }
      warned := failed;
      i := i + 1;
    }
    if !warned {
      assert visits[..i] == visits;
    }
  }

  /** The walk of the directory of type `k` into its output directory. */
  function WalkOf(fs: FileSystem, roots: Kind -> string, outDirs: Kind -> string, k: Kind): Outcome
  {
    Walk(outDirs(k), fs(roots(k)))
  }

  /** The log line walkWarn writes for the root of type `k`, if any. */
  function Warned(fs: FileSystem, roots: Kind -> string, outDirs: Kind -> string, k: Kind): seq<string>
  {
    if WalkOf(fs, roots, outDirs, k).failed then [roots(k)] else []
  }

  /** One line of zipFiles: walk the directory of type `k`, warning on error. */
  method WalkRoot(z: ZipWriter, fs: FileSystem, roots: Kind -> string, outDirs: Kind -> string, k: Kind)
    returns (warning: seq<string>)
    modifies z
    ensures z.entries == old(z.entries) + WalkOf(fs, roots, outDirs, k).entries
    ensures warning == Warned(fs, roots, outDirs, k)
  {
    var warned := WalkWarn(z, fs(roots(k)), outDirs(k));
    warning := if warned then [roots(k)] else [];
  }

  /**
   * zipFiles: walk the seven type directories, tags, galleries, performers,
   * studios, movies, scenes and images in this order, each into its relative
   * output directory. A failed walk does not stop the next; zipFiles always
   * returns nil.
   */
  method ZipFiles(z: ZipWriter, fs: FileSystem, roots: Kind -> string, outDirs: Kind -> string)
    returns (err: bool, warnings: seq<string>)
    modifies z
    ensures !err
    ensures z.entries == old(z.entries)
      + WalkOf(fs, roots, outDirs, Tag).entries + WalkOf(fs, roots, outDirs, Gallery).entries
      + WalkOf(fs, roots, outDirs, Performer).entries + WalkOf(fs, roots, outDirs, Studio).entries
      + WalkOf(fs, roots, outDirs, Movie).entries + WalkOf(fs, roots, outDirs, Scene).entries
      + WalkOf(fs, roots, outDirs, Image).entries
    ensures warnings
      == Warned(fs, roots, outDirs, Tag) + Warned(fs, roots, outDirs, Gallery)
      + Warned(fs, roots, outDirs, Performer) + Warned(fs, roots, outDirs, Studio)
      + Warned(fs, roots, outDirs, Movie) + Warned(fs, roots, outDirs, Scene)
      + Warned(fs, roots, outDirs, Image)
  {
    warnings := WalkRoot(z, fs, roots, outDirs, Tag);
    var w := WalkRoot(z, fs, roots, outDirs, Gallery);
    warnings := warnings + w;
    w := WalkRoot(z, fs, roots, outDirs, Performer);
    warnings := warnings + w;
    w := WalkRoot(z, fs, roots, outDirs, Studio);
    warnings := warnings + w;
    w := WalkRoot(z, fs, roots, outDirs, Movie);
    warnings := warnings + w;
    w := WalkRoot(z, fs, roots, outDirs, Scene);
    warnings := warnings + w;
    w := WalkRoot(z, fs, roots, outDirs, Image);
    warnings := warnings + w;
    err := false;
  }
}
