/**
 What a sort pass and an undo promise, stated about the functions that describe
 them: every file of the watched directory lands in its category folder with
 its content and is recorded in the ledger, nothing else moves, a second pass
 finds nothing to do, an undo puts back exactly the files that are still where
 the pass left them, and undoing a pass puts every file back where it was, with
 its content, while the category folders the pass created stay.
 */
module OrganizerProperties {
  import opened Classifier
  import opened Organizer

  // ---------------------------------------------------------------------------
  // One sort pass

  /** Every regular file of the watched directory is at its destination, with its content, and the ledger sends it back. */
  lemma {:induction false} SortMovesEveryFile(dirs: set<Path>, files: map<Path, Content>, watchDir: Path, sortDir: Path, n: string)
    requires SortSafe(dirs, files, watchDir, sortDir)
    requires Join(watchDir, n) in files
    ensures var after := AfterSort(files, watchDir, sortDir);
            Destination(sortDir, n) in after && after[Destination(sortDir, n)] == files[Join(watchDir, n)] &&
            Join(watchDir, n) !in after
    ensures var ledger := SortLedger(files, watchDir, sortDir);
            Destination(sortDir, n) in ledger && ledger[Destination(sortDir, n)] == Join(watchDir, n)
  {
    var names := FileNames(files, watchDir);
    assert n in names;
    DestinationInjective(sortDir, watchDir);
    JoinInjective(watchDir);
  }

  /** A file anywhere but directly inside the watched directory stays where it is, unchanged. */
  lemma {:induction false} SortKeepsOtherFiles(dirs: set<Path>, files: map<Path, Content>, watchDir: Path, sortDir: Path, p: Path)
    requires SortSafe(dirs, files, watchDir, sortDir)
    requires p in files && !InDir(p, watchDir)
    ensures p in AfterSort(files, watchDir, sortDir) && AfterSort(files, watchDir, sortDir)[p] == files[p]
  {
    var names := FileNames(files, watchDir);
    if p in Sources(watchDir, names) {
      var n :| n in names && Join(watchDir, n) == p;
      JoinInDir(watchDir, n);
      assert false;
    }
  }

  /**
   An entry of the watched directory that is not a regular file (a
   subdirectory) stays a directory, and no file is moved onto it.
   */
  lemma {:induction false} SortKeepsDirectories(dirs: set<Path>, files: map<Path, Content>, watchDir: Path, sortDir: Path, d: Path)
    requires WellFormed(dirs, files) && SortSafe(dirs, files, watchDir, sortDir)
    requires d in dirs
    ensures d in dirs + CategoryDirs(sortDir, FileNames(files, watchDir))
    ensures d !in AfterSort(files, watchDir, sortDir)
  {
    if d in AfterSort(files, watchDir, sortDir) {
      SortCreatesOnlyDestinations(files, watchDir, sortDir, d);
    }
  }

  /** A pass creates files only at the destinations of files it moved. */
  lemma {:induction false} SortCreatesOnlyDestinations(files: map<Path, Content>, watchDir: Path, sortDir: Path, p: Path)
    requires p in AfterSort(files, watchDir, sortDir) && p !in files
    ensures p != [] && p == Destination(sortDir, BaseName(p)) && Join(watchDir, BaseName(p)) in files
  {
    var n :| n in FileNames(files, watchDir) && Destination(sortDir, n) == p;
    assert BaseName(p) == n;
  }

  /** The ledger holds exactly the moves of the pass, so no two entries restore the same path. */
  lemma {:induction false} SortLedgerEntries(files: map<Path, Content>, watchDir: Path, sortDir: Path, k: Path)
    requires k in SortLedger(files, watchDir, sortDir)
    ensures k != [] && k == Destination(sortDir, BaseName(k))
    ensures Join(watchDir, BaseName(k)) in files
    ensures SortLedger(files, watchDir, sortDir)[k] == Join(watchDir, BaseName(k))
  {
    var n :| n in FileNames(files, watchDir) && Destination(sortDir, n) == k;
    assert BaseName(k) == n;
  }

  lemma {:induction false} SortLedgerInjective(files: map<Path, Content>, watchDir: Path, sortDir: Path, a: Path, b: Path)
    requires a in SortLedger(files, watchDir, sortDir) && b in SortLedger(files, watchDir, sortDir)
    requires SortLedger(files, watchDir, sortDir)[a] == SortLedger(files, watchDir, sortDir)[b]
    ensures a == b
  {
    SortLedgerEntries(files, watchDir, sortDir, a);
    SortLedgerEntries(files, watchDir, sortDir, b);
    JoinInjective(watchDir);
  }

  // ---------------------------------------------------------------------------
  // A second pass

  lemma MovedNothing(files: map<Path, Content>, watchDir: Path, sortDir: Path)
    ensures MovedFiles(files, watchDir, sortDir, {}) == files
  {
    assert Sources(watchDir, {}) == {};
    MapExtensionality(MovedFiles(files, watchDir, sortDir, {}), files);
  }

  /** After a pass the watched directory holds no regular file. */
  lemma {:induction false} SortEmptiesWatchDir(dirs: set<Path>, files: map<Path, Content>, watchDir: Path, sortDir: Path)
    requires SortSafe(dirs, files, watchDir, sortDir)
    ensures FileNames(AfterSort(files, watchDir, sortDir), watchDir) == {}
  {
    var after := AfterSort(files, watchDir, sortDir);
    forall n | Join(watchDir, n) in after ensures false {
      if Join(watchDir, n) in files {
        SortMovesEveryFile(dirs, files, watchDir, sortDir, n);
      } else {
        SortCreatesOnlyDestinations(files, watchDir, sortDir, Join(watchDir, n));
      }
    }
  }

  /**
   A second pass may run (nothing stands in its way), moves nothing, creates no
   folder, and saves an empty ledger over the first one.
   */
  lemma {:induction false} SecondSortIsIdle(dirs: set<Path>, dirs': set<Path>, files: map<Path, Content>, watchDir: Path, sortDir: Path)
    requires SortSafe(dirs, files, watchDir, sortDir)
    ensures var after := AfterSort(files, watchDir, sortDir);
            SortSafe(dirs', after, watchDir, sortDir) &&
            AfterSort(after, watchDir, sortDir) == after &&
            CategoryDirs(sortDir, FileNames(after, watchDir)) == {} &&
            SortLedger(after, watchDir, sortDir) == map[]
  {
    var after := AfterSort(files, watchDir, sortDir);
    SortEmptiesWatchDir(dirs, files, watchDir, sortDir);
    MovedNothing(after, watchDir, sortDir);
  }

  // ---------------------------------------------------------------------------
  // One undo

  /** A recorded file that is still at its destination goes back to its source with its content. */
  lemma {:induction false} UndoRestoresLive(dirs: set<Path>, files: map<Path, Content>, ledger: Ledger, k: Path)
    requires UndoSafe(dirs, files, ledger)
    requires k in ledger && k in files
    ensures var after := AfterUndo(files, ledger);
            ledger[k] in after && after[ledger[k]] == files[k] && k !in after
  {
    var after := AfterUndo(files, ledger);
    assert k in Live(files, ledger, ledger.Keys);
  }

  /** A file at a path that is no recorded destination keeps its path and content. */
  lemma {:induction false} UndoKeepsOthers(dirs: set<Path>, files: map<Path, Content>, ledger: Ledger, p: Path)
    requires UndoSafe(dirs, files, ledger)
    requires p in files && p !in ledger
    ensures p in AfterUndo(files, ledger) && AfterUndo(files, ledger)[p] == files[p]
  {
  }

  /** An entry whose destination no longer holds a file is skipped: undoing with or without it is the same. */
  lemma {:induction false} UndoSkipsMissing(dirs: set<Path>, files: map<Path, Content>, ledger: Ledger, k: Path)
    requires UndoSafe(dirs, files, ledger)
    requires k in ledger && k !in files
    ensures LiveInjective(files, ledger - {k})
    ensures k !in AfterUndo(files, ledger)
    ensures AfterUndo(files, ledger) == AfterUndo(files, ledger - {k})
  {
    var smaller := ledger - {k};
    var live := Live(files, ledger, ledger.Keys);
    assert Live(files, smaller, smaller.Keys) == live;
    var a, b := AfterUndo(files, ledger), AfterUndo(files, smaller);
    MapExtensionality(a, b);
  }

  /** Undoing an empty ledger changes nothing, so a second undo does nothing. */
  lemma {:induction false} UndoWithEmptyLedger(dirs: set<Path>, files: map<Path, Content>)
    ensures UndoSafe(dirs, files, map[])
    ensures AfterUndo(files, map[]) == files
  {
    var empty: Ledger := map[];
    RestoredNothing(files, empty);
    assert Live(files, empty, {}) == Live(files, empty, empty.Keys);
  }

  // ---------------------------------------------------------------------------
  // A pass followed by an undo

  /** The ledger a pass saves can be undone in the state the pass leaves. */
  lemma {:induction false} SortLedgerUndoSafe(dirs: set<Path>, files: map<Path, Content>, watchDir: Path, sortDir: Path)
    requires WellFormed(dirs, files) && watchDir in dirs
    requires SortSafe(dirs, files, watchDir, sortDir)
    ensures UndoSafe(dirs + CategoryDirs(sortDir, FileNames(files, watchDir)),
                     AfterSort(files, watchDir, sortDir), SortLedger(files, watchDir, sortDir))
  {
    var names := FileNames(files, watchDir);
    var dirs', after, ledger := dirs + CategoryDirs(sortDir, names), AfterSort(files, watchDir, sortDir), SortLedger(files, watchDir, sortDir);
    forall k | k in ledger ensures k !in dirs' {
      SortLedgerEntries(files, watchDir, sortDir, k);
      DestinationNotCategoryDir(sortDir, names, BaseName(k));
    }
    forall k | k in ledger && k in after
      ensures ledger[k] !in after && ledger[k] !in dirs' && ledger[k] !in ledger
      ensures ledger[k] != [] && Parent(ledger[k]) in dirs'
    {
      SortLedgerEntries(files, watchDir, sortDir, k);
      var n := BaseName(k);
      SortMovesEveryFile(dirs, files, watchDir, sortDir, n);
      JoinInDir(watchDir, n);
    }
    forall a, b | a in ledger && b in ledger && a in after && b in after && a != b
      ensures ledger[a] != ledger[b]
    {
      if ledger[a] == ledger[b] {
        SortLedgerInjective(files, watchDir, sortDir, a, b);
      }
    }
  }

  /** Undoing a pass with the ledger it saved brings back every file, path and content, and nothing else. */
  lemma {:induction false} SortThenUndoRestores(dirs: set<Path>, files: map<Path, Content>, watchDir: Path, sortDir: Path)
    requires WellFormed(dirs, files) && watchDir in dirs
    requires SortSafe(dirs, files, watchDir, sortDir)
    ensures LiveInjective(AfterSort(files, watchDir, sortDir), SortLedger(files, watchDir, sortDir))
    ensures AfterUndo(AfterSort(files, watchDir, sortDir), SortLedger(files, watchDir, sortDir)) == files
  {
    SortLedgerUndoSafe(dirs, files, watchDir, sortDir);
    var dirs' := dirs + CategoryDirs(sortDir, FileNames(files, watchDir));
    var after, ledger := AfterSort(files, watchDir, sortDir), SortLedger(files, watchDir, sortDir);
    var back := AfterUndo(after, ledger);
    forall p ensures (p in back <==> p in files) && (p in files ==> back[p] == files[p]) {
      if p !in files {
        RoundTripAbsent(dirs, files, watchDir, sortDir, p);
      } else if InDir(p, watchDir) {
        RoundTripSource(dirs, files, watchDir, sortDir, p);
      } else {
        RoundTripOther(dirs, files, watchDir, sortDir, p);
      }
    }
    MapExtensionality(back, files);
  }

  /** The round trip at one path: a file of the watched directory comes back from its destination. */
  lemma {:induction false} RoundTripSource(dirs: set<Path>, files: map<Path, Content>, watchDir: Path, sortDir: Path, p: Path)
    requires WellFormed(dirs, files) && watchDir in dirs
    requires SortSafe(dirs, files, watchDir, sortDir)
    requires UndoSafe(dirs + CategoryDirs(sortDir, FileNames(files, watchDir)),
                      AfterSort(files, watchDir, sortDir), SortLedger(files, watchDir, sortDir))
    requires p in files && InDir(p, watchDir)
    ensures var back := AfterUndo(AfterSort(files, watchDir, sortDir), SortLedger(files, watchDir, sortDir));
            p in back && back[p] == files[p]
  {
    var dirs' := dirs + CategoryDirs(sortDir, FileNames(files, watchDir));
    var n := BaseName(p);
    InDirJoin(p, watchDir);
    SortMovesEveryFile(dirs, files, watchDir, sortDir, n);
    UndoRestoresLive(dirs', AfterSort(files, watchDir, sortDir), SortLedger(files, watchDir, sortDir), Destination(sortDir, n));
  }

  /** The round trip at one path: any other file is never touched. */
  lemma {:induction false} RoundTripOther(dirs: set<Path>, files: map<Path, Content>, watchDir: Path, sortDir: Path, p: Path)
    requires WellFormed(dirs, files) && watchDir in dirs
    requires SortSafe(dirs, files, watchDir, sortDir)
    requires UndoSafe(dirs + CategoryDirs(sortDir, FileNames(files, watchDir)),
                      AfterSort(files, watchDir, sortDir), SortLedger(files, watchDir, sortDir))
    requires p in files && !InDir(p, watchDir)
    ensures var back := AfterUndo(AfterSort(files, watchDir, sortDir), SortLedger(files, watchDir, sortDir));
            p in back && back[p] == files[p]
  {
    var dirs' := dirs + CategoryDirs(sortDir, FileNames(files, watchDir));
    var ledger := SortLedger(files, watchDir, sortDir);
    SortKeepsOtherFiles(dirs, files, watchDir, sortDir, p);
    if p in ledger {
      SortLedgerEntries(files, watchDir, sortDir, p);
    }
    UndoKeepsOthers(dirs', AfterSort(files, watchDir, sortDir), ledger, p);
  }

  /** The round trip at one path: where there was no file, there is none after. */
  lemma {:induction false} RoundTripAbsent(dirs: set<Path>, files: map<Path, Content>, watchDir: Path, sortDir: Path, p: Path)
    requires SortSafe(dirs, files, watchDir, sortDir)
    requires LiveInjective(AfterSort(files, watchDir, sortDir), SortLedger(files, watchDir, sortDir))
    requires p !in files
    ensures p !in AfterUndo(AfterSort(files, watchDir, sortDir), SortLedger(files, watchDir, sortDir))
  {
    var after, ledger := AfterSort(files, watchDir, sortDir), SortLedger(files, watchDir, sortDir);
    var live := Live(after, ledger, ledger.Keys);
    if p in AfterUndo(after, ledger) {
      if p in after && p !in live {
        SortCreatesOnlyDestinations(files, watchDir, sortDir, p);
      }
    }
  }

  /**
   A pass, its undo, and a new pass: the new pass may run, and it sends every
   file to the same destination and saves the same ledger as the first.
   */
  lemma {:induction false} SortUndoSort(dirs: set<Path>, files: map<Path, Content>, watchDir: Path, sortDir: Path)
    requires WellFormed(dirs, files) && watchDir in dirs
    requires SortSafe(dirs, files, watchDir, sortDir)
    ensures LiveInjective(AfterSort(files, watchDir, sortDir), SortLedger(files, watchDir, sortDir))
    ensures var back := AfterUndo(AfterSort(files, watchDir, sortDir), SortLedger(files, watchDir, sortDir));
            && SortSafe(dirs + CategoryDirs(sortDir, FileNames(files, watchDir)), back, watchDir, sortDir)
            && AfterSort(back, watchDir, sortDir) == AfterSort(files, watchDir, sortDir)
            && SortLedger(back, watchDir, sortDir) == SortLedger(files, watchDir, sortDir)
  {
    SortThenUndoRestores(dirs, files, watchDir, sortDir);
  }

  // ---------------------------------------------------------------------------
  // The same promises, on the organizer itself

  /** A pass then an undo: the undo reads the ledger the pass saved, and every file is back. */
  method SortThenUndo(o: FileOrganizer)
    requires o.Valid() && o.watchDir in o.dirs && o.sortDir in o.dirs
    requires SortSafe(o.dirs, o.files, o.watchDir, o.sortDir)
    modifies o`dirs, o`files, o`undoFile
    ensures o.Valid() && o.files == old(o.files) && o.LoadUndo() == map[]
    ensures o.dirs == old(o.dirs) + CategoryDirs(o.sortDir, FileNames(old(o.files), o.watchDir))
  {
    ghost var dirs0, files0 := o.dirs, o.files;
    var listed := o.SortFiles();
    SortLedgerUndoSafe(dirs0, files0, o.watchDir, o.sortDir);
    o.UndoLast();
    SortThenUndoRestores(dirs0, files0, o.watchDir, o.sortDir);
  }

  /** A pass, an undo and a pass: the second pass ends where the first did and saves the same ledger. */
  method SortUndoSortAgain(o: FileOrganizer)
    requires o.Valid() && o.watchDir in o.dirs && o.sortDir in o.dirs
    requires SortSafe(o.dirs, o.files, o.watchDir, o.sortDir)
    modifies o`dirs, o`files, o`undoFile
    ensures o.Valid()
    ensures o.files == AfterSort(old(o.files), o.watchDir, o.sortDir)
    ensures o.LoadUndo() == SortLedger(old(o.files), o.watchDir, o.sortDir)
    ensures o.dirs == old(o.dirs) + CategoryDirs(o.sortDir, FileNames(old(o.files), o.watchDir))
  {
    ghost var dirs0, files0 := o.dirs, o.files;
    SortThenUndo(o);
    SortUndoSort(dirs0, files0, o.watchDir, o.sortDir);
    var listed := o.SortFiles();
  }

  /** Two passes in a row: the second moves nothing and leaves an empty ledger saved. */
  method SortTwice(o: FileOrganizer)
    requires o.Valid() && o.watchDir in o.dirs && o.sortDir in o.dirs
    requires SortSafe(o.dirs, o.files, o.watchDir, o.sortDir)
    modifies o`dirs, o`files, o`undoFile
    ensures o.Valid() && o.files == AfterSort(old(o.files), o.watchDir, o.sortDir) && o.LoadUndo() == map[]
    ensures o.dirs == old(o.dirs) + CategoryDirs(o.sortDir, FileNames(old(o.files), o.watchDir))
  {
    ghost var dirs0, files0 := o.dirs, o.files;
    var listed := o.SortFiles();
    SecondSortIsIdle(dirs0, o.dirs, files0, o.watchDir, o.sortDir);
    SortIdle(o);
  }

  /** A pass over a state it leaves as it is: only the empty ledger is saved. */
  method SortIdle(o: FileOrganizer)
    requires o.Valid() && o.watchDir in o.dirs && o.sortDir in o.dirs
    requires SortSafe(o.dirs, o.files, o.watchDir, o.sortDir)
    requires AfterSort(o.files, o.watchDir, o.sortDir) == o.files
    requires CategoryDirs(o.sortDir, FileNames(o.files, o.watchDir)) == {}
    requires SortLedger(o.files, o.watchDir, o.sortDir) == map[]
    modifies o`dirs, o`files, o`undoFile
    ensures o.Valid() && o.dirs == old(o.dirs) && o.files == old(o.files) && o.LoadUndo() == map[]
  {
    var listed := o.SortFiles();
    assert o.dirs == old(o.dirs) + {};
  }

  /** Two undos in a row: the second finds an empty ledger and changes nothing. */
  method UndoTwice(o: FileOrganizer)
    requires o.Valid() && UndoSafe(o.dirs, o.files, o.LoadUndo())
    modifies o`files, o`undoFile
    ensures o.Valid() && o.files == AfterUndo(old(o.files), old(o.LoadUndo())) && o.LoadUndo() == map[]
  {
    o.UndoLast();
    UndoWithEmptyLedger(o.dirs, o.files);
    o.UndoLast();
  }
}
