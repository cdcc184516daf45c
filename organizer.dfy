/**
 The sort pass and the undo of the file organizer over an abstract file system:
 a set of directory paths, a map from file path to content, and the persisted
 undo ledger (`config.json`), which maps every destination of the last pass back
 to the path the file came from.

 The first half of the module states what a pass and an undo do, as functions
 of the state they start from; the class at the end performs them step by step
 and is proved to reach exactly those states.
 */
module Organizer {
  import opened Classifier

  type Path = seq<string>
  type Content = seq<bv8>
  /** destination -> source, as `undo_data` holds it */
  type Ledger = map<Path, Path>

  datatype Option<T> = None | Some(value: T)

  function Join(dir: Path, name: string): Path {
    dir + [name]
  }

  function Parent(p: Path): Path
    requires p != []
  {
    p[..|p| - 1]
  }

  /** `os.path.join(SORT_DIR, category, filename)` */
  function Destination(sortDir: Path, name: string): (p: Path)
    ensures |p| == |sortDir| + 2 && p[..|sortDir|] == sortDir
    ensures p[|sortDir|] == Category(name) && p[|sortDir| + 1] == name
  {
    Join(Join(sortDir, Category(name)), name)
  }

  /** Files and directories are different paths, and every parent exists. */
  ghost predicate WellFormed(dirs: set<Path>, files: map<Path, Content>) {
    (forall p :: p in files ==> p !in dirs && p != [] && Parent(p) in dirs) &&
    (forall d {:trigger Parent(d)} :: d in dirs && d != [] ==> Parent(d) in dirs)
  }

  /** `os.path.basename` */
  function BaseName(p: Path): string
    requires p != []
  {
    p[|p| - 1]
  }

  /** `p` is an entry directly inside `dir`. */
  predicate InDir(p: Path, dir: Path) {
    p != [] && Parent(p) == dir
  }

  lemma InDirJoin(p: Path, dir: Path)
    ensures InDir(p, dir) <==> p != [] && p == Join(dir, BaseName(p))
  {
    if InDir(p, dir) {
      assert p == p[..|p| - 1] + [p[|p| - 1]];
    }
  }

  /** The names of the regular files directly inside `dir`. */
  ghost function FileNames(files: map<Path, Content>, dir: Path): (names: set<string>)
    ensures forall n :: n in names <==> Join(dir, n) in files
  {
    var r := set p | p in files && InDir(p, dir) :: BaseName(p);
    assert forall n :: Join(dir, n) in files ==> n in r by {
      forall n | Join(dir, n) in files ensures n in r {
        InDirJoin(Join(dir, n), dir);
      }
    }
    assert forall n :: n in r ==> Join(dir, n) in files by {
      forall n | n in r ensures Join(dir, n) in files {
        var p :| p in files && InDir(p, dir) && BaseName(p) == n;
        InDirJoin(p, dir);
      }
    }
    r
  }

  // ---------------------------------------------------------------------------
  // What a sort pass does

  ghost function Sources(watchDir: Path, names: set<string>): set<Path> {
    set n | n in names :: Join(watchDir, n)
  }

  /** The files of `names`, each at its destination. */
  ghost function Arrivals(files: map<Path, Content>, watchDir: Path, sortDir: Path, names: set<string>): map<Path, Content>
    requires forall n :: n in names ==> Join(watchDir, n) in files
  {
    DestinationInjective(sortDir, watchDir);
    map n | n in names :: Destination(sortDir, n) := files[Join(watchDir, n)]
  }

  /** The files once the entries `names` of `watchDir` have been moved to their destinations. */
  ghost function MovedFiles(files: map<Path, Content>, watchDir: Path, sortDir: Path, names: set<string>): map<Path, Content>
    requires forall n :: n in names ==> Join(watchDir, n) in files
  {
    (files - Sources(watchDir, names)) + Arrivals(files, watchDir, sortDir, names)
  }

  /** The ledger recording the moves of `names`. */
  ghost function LedgerFor(watchDir: Path, sortDir: Path, names: set<string>): Ledger {
    DestinationInjective(sortDir, watchDir);
    map n | n in names :: Destination(sortDir, n) := Join(watchDir, n)
  }

  /** The category folders the moves of `names` need. */
  ghost function CategoryDirs(sortDir: Path, names: set<string>): set<Path> {
    set n | n in names :: Join(sortDir, Category(n))
  }

  /** The files after a whole pass over `watchDir`. */
  ghost function AfterSort(files: map<Path, Content>, watchDir: Path, sortDir: Path): map<Path, Content> {
    MovedFiles(files, watchDir, sortDir, FileNames(files, watchDir))
  }

  /** The ledger a whole pass over `watchDir` saves. */
  ghost function SortLedger(files: map<Path, Content>, watchDir: Path, sortDir: Path): Ledger {
    LedgerFor(watchDir, sortDir, FileNames(files, watchDir))
  }

  /**
   Nothing stands in the way of a pass: no category folder a file needs is
   itself a file (`os.makedirs` would fail); no destination is an existing
   file (what `shutil.move` does onto one depends on the platform); and no
   destination is an existing directory (`shutil.move` would put the file
   inside it, while the ledger recorded the directory, so a later undo would
   move the whole directory back).
   */
  ghost predicate SortSafe(dirs: set<Path>, files: map<Path, Content>, watchDir: Path, sortDir: Path) {
    forall n :: Join(watchDir, n) in files ==>
      Join(sortDir, Category(n)) !in files &&
      Destination(sortDir, n) !in files && Destination(sortDir, n) !in dirs
  }

  // ---------------------------------------------------------------------------
  // What an undo does

  /** The recorded destinations among `keys` that still hold a file. */
  ghost function Live(files: map<Path, Content>, ledger: Ledger, keys: set<Path>): set<Path> {
    set k | k in keys && k in ledger && k in files
  }

  /** No two live destinations go back to the same source. */
  ghost predicate LiveInjective(files: map<Path, Content>, ledger: Ledger) {
    forall k, k' :: k in ledger && k' in ledger && k in files && k' in files && k != k' ==>
      ledger[k] != ledger[k']
  }

  /** The files once the entries `keys` of the ledger have been undone. */
  ghost function RestoredFiles(files: map<Path, Content>, ledger: Ledger, keys: set<Path>): map<Path, Content>
    requires LiveInjective(files, ledger)
  {
    var live := Live(files, ledger, keys);
    (files - live) + Returns(files, ledger, keys)
  }

  /** The files of the live entries among `keys`, each back at its recorded source. */
  ghost function Returns(files: map<Path, Content>, ledger: Ledger, keys: set<Path>): map<Path, Content>
    requires LiveInjective(files, ledger)
  {
    map k | k in Live(files, ledger, keys) :: ledger[k] := files[k]
  }

  /** The files after undoing the whole ledger. */
  ghost function AfterUndo(files: map<Path, Content>, ledger: Ledger): map<Path, Content>
    requires LiveInjective(files, ledger)
  {
    RestoredFiles(files, ledger, ledger.Keys)
  }

  /**
   Nothing stands in the way of an undo: no recorded destination is a
   directory (`os.path.exists` would be true of it and the whole directory
   would move), and each live entry goes back to a distinct, absent source
   in an existing directory that is not itself a recorded destination.
   */
  ghost predicate UndoSafe(dirs: set<Path>, files: map<Path, Content>, ledger: Ledger) {
    (forall k :: k in ledger ==> k !in dirs) &&
    (forall k {:trigger ledger[k]} :: k in ledger && k in files ==>
       ledger[k] !in files && ledger[k] !in dirs && ledger[k] !in ledger &&
       ledger[k] != [] && Parent(ledger[k]) in dirs) &&
    LiveInjective(files, ledger)
  }

  // ---------------------------------------------------------------------------
  // Steps of the two loops

  lemma ParentOfJoin(dir: Path, name: string)
    ensures Parent(Join(dir, name)) == dir
  {
  }

  lemma JoinInDir(dir: Path, name: string)
    ensures InDir(Join(dir, name), dir) && BaseName(Join(dir, name)) == name
  {
    ParentOfJoin(dir, name);
  }

  /** The sources of `names` are the entries of `watchDir` so named. */
  lemma SourcesAt(watchDir: Path, names: set<string>, p: Path)
    ensures p in Sources(watchDir, names) <==> InDir(p, watchDir) && BaseName(p) in names
  {
    InDirJoin(p, watchDir);
    if p in Sources(watchDir, names) {
      var m :| m in names && Join(watchDir, m) == p;
      JoinInDir(watchDir, m);
    }
  }

  /** A destination is recognised by its own last component. */
  lemma ArrivalsAt(files: map<Path, Content>, watchDir: Path, sortDir: Path, names: set<string>, p: Path)
    requires forall n :: n in names ==> Join(watchDir, n) in files
    ensures p in Arrivals(files, watchDir, sortDir, names) <==>
      p != [] && BaseName(p) in names && p == Destination(sortDir, BaseName(p))
    ensures p in Arrivals(files, watchDir, sortDir, names) ==>
      Arrivals(files, watchDir, sortDir, names)[p] == files[Join(watchDir, BaseName(p))]
  {
    if p in Arrivals(files, watchDir, sortDir, names) {
      var m :| m in names && Destination(sortDir, m) == p;
      assert BaseName(p) == m;
    }
  }

  lemma JoinInjective(dir: Path)
    ensures forall a, b :: Join(dir, a) == Join(dir, b) ==> a == b
  {
    forall a, b | Join(dir, a) == Join(dir, b) ensures a == b {
      assert Join(dir, a)[|dir|] == a;
    }
  }

  /** A destination names the file it holds, so distinct names have distinct destinations. */
  lemma DestinationInjective(sortDir: Path, watchDir: Path)
    ensures forall a, b :: Destination(sortDir, a) == Destination(sortDir, b) ==> a == b
    ensures forall a, b :: Destination(sortDir, a) == Join(watchDir, b) ==> a == b
  {
    forall a, b | Destination(sortDir, a) == Join(watchDir, b) ensures a == b {
      assert Join(watchDir, b)[|watchDir|] == b;
    }
  }

  lemma MovedFilesSource(files: map<Path, Content>, watchDir: Path, sortDir: Path, done: set<string>, n: string)
    requires forall m :: m in done ==> Join(watchDir, m) in files
    requires n !in done
    ensures Join(watchDir, n) in MovedFiles(files, watchDir, sortDir, done) <==> Join(watchDir, n) in files
    ensures Join(watchDir, n) in files ==>
      MovedFiles(files, watchDir, sortDir, done)[Join(watchDir, n)] == files[Join(watchDir, n)]
  {
    var src := Join(watchDir, n);
    JoinInDir(watchDir, n);
    SourcesAt(watchDir, done, src);
    ArrivalsAt(files, watchDir, sortDir, done, src);
  }

  lemma LedgerForStep(watchDir: Path, sortDir: Path, done: set<string>, n: string)
    ensures LedgerFor(watchDir, sortDir, done)[Destination(sortDir, n) := Join(watchDir, n)]
         == LedgerFor(watchDir, sortDir, done + {n})
  {
    DestinationInjective(sortDir, watchDir);
    var stepped := LedgerFor(watchDir, sortDir, done)[Destination(sortDir, n) := Join(watchDir, n)];
    var after := LedgerFor(watchDir, sortDir, done + {n});
    assert forall p :: p in stepped <==> p in after;
    MapExtensionality(stepped, after);
  }

  lemma CategoryDirsStep(sortDir: Path, done: set<string>, n: string)
    ensures CategoryDirs(sortDir, done + {n}) == CategoryDirs(sortDir, done) + {Join(sortDir, Category(n))}
  {
    var a, b := CategoryDirs(sortDir, done + {n}), CategoryDirs(sortDir, done) + {Join(sortDir, Category(n))};
    SameSet(a, b);
  }

  /** A destination lies one level below every category folder, so it is none of them. */
  lemma DestinationNotCategoryDir(sortDir: Path, done: set<string>, n: string)
    ensures Destination(sortDir, n) !in CategoryDirs(sortDir, done)
  {
  }

  /**
   One round of the sort loop on the name `n` finds its source where the
   earlier rounds left it, and finds its category folder and its destination
   free.
   */
  lemma SortStepFree(dirs0: set<Path>, files0: map<Path, Content>, watchDir: Path, sortDir: Path, done: set<string>, n: string)
    requires SortSafe(dirs0, files0, watchDir, sortDir)
    requires done <= FileNames(files0, watchDir) && n !in done
    ensures Join(watchDir, n) in MovedFiles(files0, watchDir, sortDir, done) <==> Join(watchDir, n) in files0
    ensures Join(watchDir, n) in files0 ==>
      var moved, dirs := MovedFiles(files0, watchDir, sortDir, done), dirs0 + CategoryDirs(sortDir, done);
      var src, folder, dst := Join(watchDir, n), Join(sortDir, Category(n)), Destination(sortDir, n);
      && folder !in moved && Parent(folder) == sortDir
      && dst !in moved && dst !in dirs + {folder} && Parent(dst) == folder
      && moved[src] == files0[src]
  {
    MovedFilesSource(files0, watchDir, sortDir, done, n);
    if Join(watchDir, n) in files0 {
      var folder := Join(sortDir, Category(n));
      ParentOfJoin(sortDir, Category(n));
      ParentOfJoin(folder, n);
      assert Destination(sortDir, n) !in files0 && Destination(sortDir, n) !in dirs0;
      DestinationNotMoved(files0, watchDir, sortDir, done, n);
      DestinationNotCategoryDir(sortDir, done, n);
      ShortPathNotMoved(files0, watchDir, sortDir, done, folder);
      assert |Destination(sortDir, n)| != |folder|;
    }
  }

  /**
   Moving the file of `n` and recording the move take the state after the
   names `done` to the state after `done + {n}`.
   */
  lemma SortStepState(dirs0: set<Path>, files0: map<Path, Content>, watchDir: Path, sortDir: Path, done: set<string>, n: string)
    requires SortSafe(dirs0, files0, watchDir, sortDir)
    requires done <= FileNames(files0, watchDir) && n !in done && Join(watchDir, n) in files0
    ensures var moved := MovedFiles(files0, watchDir, sortDir, done);
            var src, dst := Join(watchDir, n), Destination(sortDir, n);
            (moved - {src})[dst := files0[src]] == MovedFiles(files0, watchDir, sortDir, done + {n})
    ensures dirs0 + CategoryDirs(sortDir, done) + {Join(sortDir, Category(n))} == dirs0 + CategoryDirs(sortDir, done + {n})
    ensures LedgerFor(watchDir, sortDir, done)[Destination(sortDir, n) := Join(watchDir, n)]
         == LedgerFor(watchDir, sortDir, done + {n})
  {
    CategoryDirsStep(sortDir, done, n);
    MovedFilesStep(files0, watchDir, sortDir, done, n);
    LedgerForStep(watchDir, sortDir, done, n);
  }

  /** The moves add only paths two levels below the sort directory. */
  lemma ShortPathNotMoved(files: map<Path, Content>, watchDir: Path, sortDir: Path, done: set<string>, p: Path)
    requires forall m :: m in done ==> Join(watchDir, m) in files
    requires p !in files && |p| == |sortDir| + 1
    ensures p !in MovedFiles(files, watchDir, sortDir, done)
  {
    ArrivalsAt(files, watchDir, sortDir, done, p);
  }

  /** The destination of a name not yet moved is free if it was free to begin with. */
  lemma DestinationNotMoved(files: map<Path, Content>, watchDir: Path, sortDir: Path, done: set<string>, n: string)
    requires forall m :: m in done ==> Join(watchDir, m) in files
    requires n !in done && Destination(sortDir, n) !in files
    ensures Destination(sortDir, n) !in MovedFiles(files, watchDir, sortDir, done)
  {
    ArrivalsAt(files, watchDir, sortDir, done, Destination(sortDir, n));
  }

  lemma SameSet<T>(a: set<T>, b: set<T>)
    requires forall x :: x in a <==> x in b
    ensures a == b
  {
  }

  lemma MapExtensionality<K, V>(a: map<K, V>, b: map<K, V>)
    requires forall k :: k in a <==> k in b
    requires forall k :: k in a ==> a[k] == b[k]
    ensures a == b
  {
    assert a.Keys == b.Keys;
  }

  /** Moving one more name, path by path: its source goes, its destination comes, the rest stays. */
  lemma MovedFilesAt(files: map<Path, Content>, watchDir: Path, sortDir: Path, done: set<string>, n: string, p: Path)
    requires forall m :: m in done ==> Join(watchDir, m) in files
    requires n !in done && Join(watchDir, n) in files
    requires Destination(sortDir, n) !in files
    ensures var stepped := (MovedFiles(files, watchDir, sortDir, done) - {Join(watchDir, n)})
                           [Destination(sortDir, n) := files[Join(watchDir, n)]];
            var after := MovedFiles(files, watchDir, sortDir, done + {n});
            (p in stepped <==> p in after) && (p in after ==> stepped[p] == after[p])
  {
    var src, dst := Join(watchDir, n), Destination(sortDir, n);
    var after := MovedFiles(files, watchDir, sortDir, done + {n});
    if p == dst {
      ArrivalsAt(files, watchDir, sortDir, done + {n}, dst);
    } else if p == src {
      JoinInDir(watchDir, n);
      SourcesAt(watchDir, done + {n}, src);
      ArrivalsAt(files, watchDir, sortDir, done + {n}, src);
    } else {
      MovedFilesElsewhere(files, watchDir, sortDir, done, n, p);
    }
  }

  /** Moving one more name changes nothing at any other path. */
  lemma MovedFilesElsewhere(files: map<Path, Content>, watchDir: Path, sortDir: Path, done: set<string>, n: string, p: Path)
    requires forall m :: m in done ==> Join(watchDir, m) in files
    requires n !in done && Join(watchDir, n) in files
    requires p != Destination(sortDir, n) && p != Join(watchDir, n)
    ensures p in MovedFiles(files, watchDir, sortDir, done) <==> p in MovedFiles(files, watchDir, sortDir, done + {n})
    ensures p in MovedFiles(files, watchDir, sortDir, done) ==>
      MovedFiles(files, watchDir, sortDir, done)[p] == MovedFiles(files, watchDir, sortDir, done + {n})[p]
  {
    SourcesAt(watchDir, done, p);
    SourcesAt(watchDir, done + {n}, p);
    ArrivalsAt(files, watchDir, sortDir, done, p);
    ArrivalsAt(files, watchDir, sortDir, done + {n}, p);
    InDirJoin(p, watchDir);
  }

  lemma MovedFilesStep(files: map<Path, Content>, watchDir: Path, sortDir: Path, done: set<string>, n: string)
    requires forall m :: m in done ==> Join(watchDir, m) in files
    requires n !in done && Join(watchDir, n) in files
    requires Destination(sortDir, n) !in files
    ensures Destination(sortDir, n) !in MovedFiles(files, watchDir, sortDir, done)
    ensures (MovedFiles(files, watchDir, sortDir, done) - {Join(watchDir, n)})[Destination(sortDir, n) := files[Join(watchDir, n)]]
         == MovedFiles(files, watchDir, sortDir, done + {n})
  {
    DestinationInjective(sortDir, watchDir);
    var stepped := (MovedFiles(files, watchDir, sortDir, done) - {Join(watchDir, n)})
                   [Destination(sortDir, n) := files[Join(watchDir, n)]];
    var after := MovedFiles(files, watchDir, sortDir, done + {n});
    forall p ensures (p in stepped <==> p in after) && (p in after ==> stepped[p] == after[p]) {
      MovedFilesAt(files, watchDir, sortDir, done, n, p);
    }
    MapExtensionality(stepped, after);
  }

  /** Undoing one more live entry, path by path. */
  lemma RestoredFilesAt(files: map<Path, Content>, ledger: Ledger, done: set<Path>, k: Path, p: Path)
    requires LiveInjective(files, ledger)
    requires k in ledger && k in files && k !in done && done <= ledger.Keys
    requires forall j :: j in ledger && j in files ==> ledger[j] !in files && ledger[j] !in ledger
    ensures var stepped := (RestoredFiles(files, ledger, done) - {k})[ledger[k] := files[k]];
            var after := RestoredFiles(files, ledger, done + {k});
            (p in stepped <==> p in after) && (p in after ==> stepped[p] == after[p])
  {
    var after := RestoredFiles(files, ledger, done + {k});
    if p == ledger[k] {
      assert p in after && after[p] == files[k];
    } else if p == k {
      assert k !in after;
    } else {
      RestoredFilesElsewhere(files, ledger, done, k, p);
    }
  }

  lemma RestoredFilesElsewhere(files: map<Path, Content>, ledger: Ledger, done: set<Path>, k: Path, p: Path)
    requires LiveInjective(files, ledger)
    requires k in ledger && k in files && k !in done && done <= ledger.Keys
    requires p != k && p != ledger[k]
    ensures p in RestoredFiles(files, ledger, done) <==> p in RestoredFiles(files, ledger, done + {k})
    ensures p in RestoredFiles(files, ledger, done) ==>
      RestoredFiles(files, ledger, done)[p] == RestoredFiles(files, ledger, done + {k})[p]
  {
    var live, live' := Live(files, ledger, done), Live(files, ledger, done + {k});
    var r, r' := Returns(files, ledger, done), Returns(files, ledger, done + {k});
    if p in r' {
      var j :| j in live' && ledger[j] == p;
      assert j in live;
      ReturnsFrom(files, ledger, done, j);
      ReturnsFrom(files, ledger, done + {k}, j);
    }
    if p in r {
      var j :| j in live && ledger[j] == p;
      ReturnsFrom(files, ledger, done, j);
      ReturnsFrom(files, ledger, done + {k}, j);
    }
  }

  lemma ReturnsFrom(files: map<Path, Content>, ledger: Ledger, keys: set<Path>, j: Path)
    requires LiveInjective(files, ledger)
    requires j in Live(files, ledger, keys)
    ensures ledger[j] in Returns(files, ledger, keys)
    ensures Returns(files, ledger, keys)[ledger[j]] == files[j]
  {
  }

  lemma RestoredNothing(files: map<Path, Content>, ledger: Ledger)
    requires LiveInjective(files, ledger)
    ensures RestoredFiles(files, ledger, {}) == files
  {
    assert Live(files, ledger, {}) == {};
  }

  lemma RestoredFilesStep(files: map<Path, Content>, ledger: Ledger, done: set<Path>, k: Path)
    requires LiveInjective(files, ledger)
    requires k in ledger && k !in done && done <= ledger.Keys
    requires forall j :: j in ledger && j in files ==> ledger[j] !in files && ledger[j] !in ledger
    ensures k in RestoredFiles(files, ledger, done) <==> k in files
    ensures k in files ==>
      ledger[k] !in RestoredFiles(files, ledger, done) &&
      (RestoredFiles(files, ledger, done) - {k})[ledger[k] := files[k]] == RestoredFiles(files, ledger, done + {k})
    ensures k !in files ==> RestoredFiles(files, ledger, done) == RestoredFiles(files, ledger, done + {k})
  {
    if k in files {
      var stepped := (RestoredFiles(files, ledger, done) - {k})[ledger[k] := files[k]];
      var after := RestoredFiles(files, ledger, done + {k});
      forall p ensures (p in stepped <==> p in after) && (p in after ==> stepped[p] == after[p]) {
        RestoredFilesAt(files, ledger, done, k, p);
      }
      MapExtensionality(stepped, after);
    } else {
      assert Live(files, ledger, done) == Live(files, ledger, done + {k});
    }
  }

  // ---------------------------------------------------------------------------
  // Both operations keep the file system well formed

  lemma {:induction false} SortKeepsWellFormed(dirs: set<Path>, files: map<Path, Content>, watchDir: Path, sortDir: Path)
    requires WellFormed(dirs, files) && sortDir in dirs
    requires SortSafe(dirs, files, watchDir, sortDir)
    ensures WellFormed(dirs + CategoryDirs(sortDir, FileNames(files, watchDir)), AfterSort(files, watchDir, sortDir))
  {
    var names := FileNames(files, watchDir);
    var dirs', files' := dirs + CategoryDirs(sortDir, names), AfterSort(files, watchDir, sortDir);
    forall p | p in files' ensures p !in dirs' && p != [] && Parent(p) in dirs' {
      if p !in files {
        var n :| n in names && Destination(sortDir, n) == p;
        assert Parent(p) == Join(sortDir, Category(n));
      }
    }
    forall d | d in dirs' && d != [] ensures Parent(d) in dirs' {
      if d !in dirs {
        var n :| n in names && Join(sortDir, Category(n)) == d;
        assert Parent(d) == sortDir;
      }
    }
  }

  lemma {:induction false} UndoKeepsWellFormed(dirs: set<Path>, files: map<Path, Content>, ledger: Ledger)
    requires WellFormed(dirs, files)
    requires UndoSafe(dirs, files, ledger)
    ensures WellFormed(dirs, AfterUndo(files, ledger))
  {
    var files' := AfterUndo(files, ledger);
    forall p | p in files' ensures p !in dirs && p != [] && Parent(p) in dirs {
      if p !in files {
        var k :| k in Live(files, ledger, ledger.Keys) && ledger[k] == p;
      }
    }
  }

  // ---------------------------------------------------------------------------
  // The organizer itself

  /**
   The watched directory, the sort directory, the file system both live in, and
   the persisted undo ledger (`None` while `config.json` does not exist).
   */
  class FileOrganizer {
    const watchDir: Path
    const sortDir: Path
    var dirs: set<Path>
    var files: map<Path, Content>
    var undoFile: Option<Ledger>

    ghost predicate Valid()
      reads this
    {
      WellFormed(dirs, files)
    }

    constructor (watchDir: Path, sortDir: Path, dirs: set<Path>, files: map<Path, Content>, undoFile: Option<Ledger>)
      requires WellFormed(dirs, files)
      ensures Valid()
      ensures this.watchDir == watchDir && this.sortDir == sortDir
      ensures this.dirs == dirs && this.files == files && this.undoFile == undoFile
    {
      this.watchDir, this.sortDir := watchDir, sortDir;
      this.dirs, this.files, this.undoFile := dirs, files, undoFile;
    }

    /** `os.path.isfile`: false of a directory. */
    predicate IsFile(p: Path)
      reads this
      ensures IsFile(p) && WellFormed(dirs, files) ==> p !in dirs
    {
      p in files
    }

    /** `os.path.exists`: true of files and directories alike. */
    predicate Exists(p: Path)
      reads this
      ensures IsFile(p) ==> Exists(p)
      ensures p !in dirs ==> (Exists(p) <==> IsFile(p))
    {
      p in files || p in dirs
    }

    /** `load_undo`: the persisted ledger; a missing file reads as an empty ledger. */
    function LoadUndo(): (data: Ledger)
      reads this
      ensures undoFile == None ==> data == map[]
    {
      match undoFile
      case None => map[]
      case Some(saved) => saved
    }

    /** `save_undo`: the ledger is replaced as a whole, never merged with the old one. */
    method SaveUndo(data: Ledger)
      modifies this`undoFile
      ensures undoFile != None
      ensures LoadUndo() == data
    {
      undoFile := Some(data);
    }

    /** The names directly inside directory `d`. */
    function Children(d: Path): set<string>
      reads this
    {
      set p | p in files.Keys + dirs && InDir(p, d) :: BaseName(p)
    }

    /**
     `os.listdir`: every entry directly inside `d`, files and directories alike,
     each once, in an order the model leaves open.
     */
    method ListDir(d: Path) returns (names: seq<string>)
      requires d in dirs
      ensures forall i, j :: 0 <= i < j < |names| ==> names[i] != names[j]
      ensures forall n :: n in names <==> Join(d, n) in files || Join(d, n) in dirs
    {
      var children := Children(d);
      assert forall n :: n in children <==> Join(d, n) in files || Join(d, n) in dirs by {
        forall n ensures n in children <==> Join(d, n) in files || Join(d, n) in dirs {
          InDirJoin(Join(d, n), d);
          if n in children {
            var q :| q in files.Keys + dirs && InDir(q, d) && BaseName(q) == n;
            InDirJoin(q, d);
          }
        }
      }
      var rest := children;
      names := [];
      while rest != {}
        invariant rest <= children
        invariant forall n :: n in names <==> n in children && n !in rest
        invariant forall i, j :: 0 <= i < j < |names| ==> names[i] != names[j]
        decreases rest
      {
        var n :| n in rest;
        names := names + [n];
        rest := rest - {n};
      }
    }

    /** `os.makedirs(p, exist_ok=True)` where the parent of `p` exists. */
    method MakeDirs(p: Path)
      requires p != [] && Parent(p) in dirs && p !in files
      modifies this`dirs
      ensures dirs == old(dirs) + {p}
    {
      if p !in dirs {
        dirs := dirs + {p};
      }
    }

    /** `shutil.move(src, dst)` of a file to a path that does not exist yet. */
    method Move(src: Path, dst: Path)
      requires src in files
      requires dst !in files && dst !in dirs && dst != [] && Parent(dst) in dirs
      modifies this`files
      ensures files == (old(files) - {src})[dst := old(files)[src]]
    {
      files := (files - {src})[dst := files[src]];
    }

    /**
     One round of the loop of `sort_files`, on the entry `filename` of the
     watched directory: a regular file is moved to its category folder and
     the move is recorded; anything else is passed over.
     */
    method SortEntry(filename: string, undoData: Ledger, ghost files0: map<Path, Content>, ghost dirs0: set<Path>, ghost done: set<string>)
      returns (undoData': Ledger, ghost done': set<string>)
      requires sortDir in dirs0 && SortSafe(dirs0, files0, watchDir, sortDir)
      requires done <= FileNames(files0, watchDir) && filename !in done
      requires files == MovedFiles(files0, watchDir, sortDir, done)
      requires dirs == dirs0 + CategoryDirs(sortDir, done)
      requires undoData == LedgerFor(watchDir, sortDir, done)
      modifies this`dirs, this`files
      ensures done' == if Join(watchDir, filename) in files0 then done + {filename} else done
      ensures files == MovedFiles(files0, watchDir, sortDir, done')
      ensures dirs == dirs0 + CategoryDirs(sortDir, done')
      ensures undoData' == LedgerFor(watchDir, sortDir, done')
    {
      undoData', done' := undoData, done;
      var filePath := Join(watchDir, filename);
      SortStepFree(dirs0, files0, watchDir, sortDir, done, filename);
      if IsFile(filePath) {
        SortStepState(dirs0, files0, watchDir, sortDir, done, filename);
        undoData' := SortFile(filename, undoData);
        done' := done + {filename};
      }
    }

    /**
     The body of that round for a regular file: its category folder is made
     if need be, the file is moved into it under its own name, and the move
     is recorded from the new path back to the old one.
     */
    method SortFile(filename: string, undoData: Ledger) returns (undoData': Ledger)
      requires var src, folder, dst := Join(watchDir, filename), Join(sortDir, Category(filename)), Destination(sortDir, filename);
        && src in files && sortDir in dirs
        && folder !in files && Parent(folder) == sortDir
        && dst !in files && dst !in dirs + {folder} && Parent(dst) == folder
      modifies this`dirs, this`files
      ensures var src, folder, dst := Join(watchDir, filename), Join(sortDir, Category(filename)), Destination(sortDir, filename);
        && files == (old(files) - {src})[dst := old(files)[src]]
        && dirs == old(dirs) + {folder}
        && undoData' == undoData[dst := src]
    {
      var filePath := Join(watchDir, filename);
      var category := Category(filename);
      var targetFolder := Join(sortDir, category);
      MakeDirs(targetFolder);
      var newPath := Join(targetFolder, filename);
      Move(filePath, newPath);
      undoData' := undoData[newPath := filePath];
    }

    /**
     The loop of `sort_files` over the listing `names` of the watched
     directory; returns the ledger of the moves it made.
     */
    method SortEntries(names: seq<string>) returns (undoData: Ledger)
      requires sortDir in dirs && SortSafe(dirs, files, watchDir, sortDir)
      requires forall i, j :: 0 <= i < j < |names| ==> names[i] != names[j]
      requires forall n :: Join(watchDir, n) in files ==> n in names
      modifies this`dirs, this`files
      ensures files == AfterSort(old(files), watchDir, sortDir)
      ensures dirs == old(dirs) + CategoryDirs(sortDir, FileNames(old(files), watchDir))
      ensures undoData == SortLedger(old(files), watchDir, sortDir)
    {
      ghost var files0, dirs0 := files, dirs;
      ghost var regular := FileNames(files, watchDir);
      ghost var done: set<string> := {};
      undoData := map[];
      for i := 0 to |names|
        invariant done <= regular
        invariant forall n :: n in done <==> n in regular && n in names[..i]
        invariant files == MovedFiles(files0, watchDir, sortDir, done)
        invariant dirs == dirs0 + CategoryDirs(sortDir, done)
        invariant undoData == LedgerFor(watchDir, sortDir, done)
      {
        assert names[..i + 1] == names[..i] + [names[i]];
        assert names[i] !in names[..i];
        undoData, done := SortEntry(names[i], undoData, files0, dirs0, done);
      }
      assert names[..|names|] == names;
      SameSet(done, regular);
    }

    /**
     `sort_files`: every regular file directly inside the watched directory is
     moved to the folder of its category, and the ledger of those moves
     replaces the saved one. When the watched directory is not a directory,
     `os.listdir` raises before anything is done; `listed` is then false and
     nothing changes.
     */
    method SortFiles() returns (listed: bool)
      requires Valid() && sortDir in dirs
      requires SortSafe(dirs, files, watchDir, sortDir)
      modifies this`dirs, this`files, this`undoFile
      ensures Valid()
      ensures listed <==> watchDir in old(dirs)
      ensures !listed ==> files == old(files) && dirs == old(dirs) && undoFile == old(undoFile)
      ensures listed ==> files == AfterSort(old(files), watchDir, sortDir)
      ensures listed ==> dirs == old(dirs) + CategoryDirs(sortDir, FileNames(old(files), watchDir))
      ensures listed ==> undoFile == Some(SortLedger(old(files), watchDir, sortDir))
    {
      if watchDir !in dirs {
        return false;
      }
      SortKeepsWellFormed(dirs, files, watchDir, sortDir);
      var names := ListDir(watchDir);
      var undoData := SortEntries(names);
      SaveUndo(undoData);
      return true;
    }

    /**
     One round of the loop of `undo_last`: the file recorded at `newPath` goes
     back to where it came from if it is still there, and is skipped if not.
     */
    method UndoEntry(undoData: Ledger, newPath: Path, ghost dirs0: set<Path>, ghost files0: map<Path, Content>, ghost done: set<Path>)
      requires dirs == dirs0 && UndoSafe(dirs0, files0, undoData)
      requires newPath in undoData && newPath !in done && done <= undoData.Keys
      requires files == RestoredFiles(files0, undoData, done)
      modifies this`files
      ensures files == RestoredFiles(files0, undoData, done + {newPath})
    {
      RestoredFilesStep(files0, undoData, done, newPath);
      if Exists(newPath) {
        Move(newPath, undoData[newPath]);
      }
    }

    /**
     The loop of `undo_last` over the entries of `undoData`, in an order the
     model leaves open (the order of the saved mapping).
     */
    method RestoreAll(undoData: Ledger)
      requires UndoSafe(dirs, files, undoData)
      modifies this`files
      ensures files == AfterUndo(old(files), undoData)
    {
      ghost var files0 := files;
      var pending := undoData.Keys;
      ghost var done: set<Path> := {};
      RestoredNothing(files, undoData);
      while pending != {}
        invariant pending <= undoData.Keys
        invariant forall k :: k in done <==> k in undoData && k !in pending
        invariant files == RestoredFiles(files0, undoData, done)
        decreases pending
      {
        var newPath :| newPath in pending;
        UndoEntry(undoData, newPath, dirs, files0, done);
        pending := pending - {newPath};
        done := done + {newPath};
      }
      SameSet(done, undoData.Keys);
    }

    /**
     `undo_last`: every recorded destination that still exists is moved back
     to its recorded source, missing ones are skipped, and the saved ledger is
     emptied whatever happened.
     */
    method UndoLast()
      requires Valid()
      requires UndoSafe(dirs, files, LoadUndo())
      modifies this`files, this`undoFile
      ensures Valid()
      ensures files == AfterUndo(old(files), old(LoadUndo()))
      ensures undoFile == Some(map[])
    {
      var undoData := LoadUndo();
      ghost var dirs0, files0 := dirs, files;
      RestoreAll(undoData);
      UndoKeepsWellFormed(dirs0, files0, undoData);
      SaveUndo(map[]);
    }
  }
}
