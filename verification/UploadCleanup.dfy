/**
 cleanup_pending_uploads: old finished rows go with their temp files, then every file in the cache
 directory that no row refers to; a dry run only counts.
 */
module UploadCleanup {
  import opened UploadProtocol

  type Path = string

  datatype Upload = Upload(status: Status, createdAt: int, tempPath: Path)

  predicate IsOld(u: Upload, cutoff: int) { !IsLive(u.status) && u.createdAt < cutoff }

  function OldIds(rows: map<Id, Upload>, cutoff: int): set<Id> { set id | id in rows && IsOld(rows[id], cutoff) }

  function Paths(rows: map<Id, Upload>): set<Path> { set id | id in rows :: rows[id].tempPath }

  function Orphans(rows: map<Id, Upload>, files: set<Path>): set<Path> { files - Paths(rows) }

  /** Those of the rows `ids` whose temp file is one of `files`. */
  function WithFile(rows: map<Id, Upload>, files: set<Path>, ids: set<Id>): set<Id> {
    set id | id in ids && id in rows && rows[id].tempPath in files
  }

  /** The files left when those of the rows `ids` are deleted, as far as they are not stuck. */
  function FilesAfter(rows: map<Id, Upload>, files: set<Path>, ids: set<Id>, stuck: set<Path>): set<Path>
  {
    files - (set id | id in ids && id in rows && rows[id].tempPath !in stuck :: rows[id].tempPath)
  }

  lemma WithFileMore(rows: map<Id, Upload>, files: set<Path>, ids: set<Id>, id: Id)
    requires id in rows && id !in ids
    ensures |WithFile(rows, files, ids + {id})|
            == |WithFile(rows, files, ids)| + if rows[id].tempPath in files then 1 else 0
  {
    if rows[id].tempPath in files {
      assert WithFile(rows, files, ids + {id}) == WithFile(rows, files, ids) + {id};
    } else {
      assert WithFile(rows, files, ids + {id}) == WithFile(rows, files, ids);
    }
  }

  lemma FilesMore(rows: map<Id, Upload>, files: set<Path>, ids: set<Id>, stuck: set<Path>, id: Id)
    requires DistinctPaths(rows) && id in rows && id !in ids
    ensures var left := FilesAfter(rows, files, ids, stuck);
            && (rows[id].tempPath in left <==> rows[id].tempPath in files)
            && FilesAfter(rows, files, ids + {id}, stuck)
               == if rows[id].tempPath in stuck then left else left - {rows[id].tempPath}
  {
    var gone := set i | i in ids && i in rows && rows[i].tempPath !in stuck :: rows[i].tempPath;
    var gone' := set i | i in ids + {id} && i in rows && rows[i].tempPath !in stuck :: rows[i].tempPath;
    assert gone' == if rows[id].tempPath in stuck then gone else gone + {rows[id].tempPath};
  }

  ghost predicate DistinctPaths(rows: map<Id, Upload>) {
    forall i, j :: i in rows && j in rows && i != j ==> rows[i].tempPath != rows[j].tempPath
  }

  /** Phase 1 with the rows `done` behind it: what is left, and the counters. */
  ghost predicate Swept(rows0: map<Id, Upload>, files0: set<Path>, dryRun: bool, stuck: set<Path>, done: set<Id>,
                        rows: map<Id, Upload>, files: set<Path>, deleted: nat, kept: nat) {
    && rows == (if dryRun then rows0 else rows0 - done)
    && files == (if dryRun then files0 else FilesAfter(rows0, files0, done, stuck))
    && deleted == |WithFile(rows0, if dryRun then files0 else files0 - stuck, done)|
    && kept == (if dryRun then 0 else |WithFile(rows0, files0 * stuck, done)|)
  }

  /** What phase 1 does to one row. */
  ghost predicate OneRow(id: Id, dryRun: bool, stuck: set<Path>, rows: map<Id, Upload>, files: set<Path>,
                         rows': map<Id, Upload>, files': set<Path>, deleted: bool, kept: bool) {
    && id in rows
    && rows' == (if dryRun then rows else rows - {id})
    && files' == (if dryRun || rows[id].tempPath in stuck then files else files - {rows[id].tempPath})
    && (deleted <==> rows[id].tempPath in files && (dryRun || rows[id].tempPath !in stuck))
    && (kept <==> rows[id].tempPath in files && !dryRun && rows[id].tempPath in stuck)
  }

  function Plus(n: nat, b: bool): nat { if b then n + 1 else n }

  lemma SweptStart(rows: map<Id, Upload>, files: set<Path>, dryRun: bool, stuck: set<Path>)
    ensures Swept(rows, files, dryRun, stuck, {}, rows, files, 0, 0)
  {
    assert FilesAfter(rows, files, {}, stuck) == files && rows - {} == rows;
  }

  lemma SweptDistinct(rows0: map<Id, Upload>, files0: set<Path>, dryRun: bool, stuck: set<Path>, done: set<Id>,
                      rows: map<Id, Upload>, files: set<Path>, deleted: nat, kept: nat)
    requires DistinctPaths(rows0) && Swept(rows0, files0, dryRun, stuck, done, rows, files, deleted, kept)
    ensures DistinctPaths(rows)
  {}

  lemma SweptMore(rows0: map<Id, Upload>, files0: set<Path>, dryRun: bool, stuck: set<Path>, done: set<Id>,
                  rows: map<Id, Upload>, files: set<Path>, deleted: nat, kept: nat,
                  id: Id, rows': map<Id, Upload>, files': set<Path>, d: bool, k: bool)
    requires DistinctPaths(rows0) && id !in done
             && Swept(rows0, files0, dryRun, stuck, done, rows, files, deleted, kept)
    requires OneRow(id, dryRun, stuck, rows, files, rows', files', d, k)
    ensures Swept(rows0, files0, dryRun, stuck, done + {id}, rows', files', Plus(deleted, d), Plus(kept, k))
  {
    WithFileMore(rows0, if dryRun then files0 else files0 - stuck, done, id);
    WithFileMore(rows0, files0 * stuck, done, id);
    FilesMore(rows0, files0, done, stuck, id);
    if !dryRun { assert rows0 - (done + {id}) == (rows0 - done) - {id}; }
  }

  /** Phase 2 after the files `seen`: those not to keep are gone and counted. */
  ghost predicate Removed(files0: set<Path>, keep: set<Path>, dryRun: bool, seen: set<Path>, files: set<Path>,
                          orphaned: nat) {
    orphaned == |seen - keep| && files == if dryRun then files0 else files0 - (seen - keep)
  }

  lemma RemovedNone(files: set<Path>, keep: set<Path>, dryRun: bool)
    ensures Removed(files, keep, dryRun, {}, files, 0)
  {}

  lemma RemovedMore(files0: set<Path>, keep: set<Path>, dryRun: bool, seen: set<Path>, files: set<Path>,
                    orphaned: nat, f: Path, files': set<Path>, gone: bool)
    requires Removed(files0, keep, dryRun, seen, files, orphaned) && f !in seen
    requires gone == (f !in keep) && files' == if gone && !dryRun then files - {f} else files
    ensures Removed(files0, keep, dryRun, seen + {f}, files', Plus(orphaned, gone))
  {
    if f in keep {
      assert seen + {f} - keep == seen - keep;
    } else {
      assert seen + {f} - keep == seen - keep + {f};
      assert files0 - (seen + {f} - keep) == files0 - (seen - keep) - {f};
    }
  }

  /** All of phase 2: exactly the orphans that can be deleted are gone and counted. */
  ghost predicate OrphansGone(rows: map<Id, Upload>, files0: set<Path>, dryRun: bool, stuck: set<Path>,
                              files: set<Path>, orphaned: nat) {
    && orphaned == (|if dryRun then Orphans(rows, files0) else Orphans(rows, files0) - stuck|)
    && files == if dryRun then files0 else files0 - (Orphans(rows, files0) - stuck)
  }

  lemma RemovedAll(rows: map<Id, Upload>, files0: set<Path>, dryRun: bool, stuck: set<Path>, keep: set<Path>,
                   seen: set<Path>, files: set<Path>, orphaned: nat)
    requires keep == (if dryRun then Paths(rows) else Paths(rows) + stuck)
             && Removed(files0, keep, dryRun, seen, files, orphaned)
    requires seen == files0
    ensures OrphansGone(rows, files0, dryRun, stuck, files, orphaned)
  {
    assert files0 - keep == if dryRun then Orphans(rows, files0) else Orphans(rows, files0) - stuck;
  }

  lemma OrphansMean(rows: map<Id, Upload>, files: set<Path>, dryRun: bool, stuck: set<Path>, files': set<Path>,
                    orphaned: nat)
    requires OrphansGone(rows, files, dryRun, stuck, files', orphaned)
    ensures if dryRun then files' == files && orphaned == |Unreferenced(rows, files)|
            else files' <= files && orphaned == |files| - |files'| && UnknownGone(rows, files, stuck, files')
                 && forall id <- rows :: rows[id].tempPath in files ==> rows[id].tempPath in files'
  {
    assert Orphans(rows, files) == Unreferenced(rows, files);
    if !dryRun {
      var gone := Orphans(rows, files) - stuck;
      assert files == files' + gone && files' !! gone;
    }
  }

  /* -------------------- what the tables look like afterwards, row by row -------------------- */

  /** Finished rows from before the cutoff are gone, and so are their files unless they cannot be deleted; every
      other row is as it was, with its file. */
  ghost predicate OldGone(rows: map<Id, Upload>, files: set<Path>, cutoff: int, undeletable: set<Path>,
                          rows': map<Id, Upload>, files': set<Path>) {
    && rows'.Keys <= rows.Keys && files' <= files
    && forall id <- rows ::
         var u := rows[id];
         if (u.status == Done || u.status == Failed || u.status == Cancelled) && u.createdAt < cutoff
         then id !in rows' && (u.tempPath in files' <==> u.tempPath in files && u.tempPath in undeletable)
         else id in rows' && rows'[id] == u && (u.tempPath in files' <==> u.tempPath in files)
  }

  /** The files of no row: unless they cannot be deleted, they go. */
  ghost predicate UnknownGone(rows: map<Id, Upload>, files: set<Path>, undeletable: set<Path>, files': set<Path>) {
    forall f <- files :: (forall id <- rows :: rows[id].tempPath != f) ==> (f in files' <==> f in undeletable)
  }

  /** The files that no row has. */
  ghost function Unreferenced(rows: map<Id, Upload>, files: set<Path>): set<Path> {
    set f | f in files && forall id <- rows :: rows[id].tempPath != f
  }

  /** The rows a run is after, counted. */
  function Expired(rows: map<Id, Upload>, cutoff: int): set<Id> {
    set id | id in rows && rows[id].status !in {Pending, Uploading} && rows[id].createdAt < cutoff
  }

  /** How many of them have one of these files. */
  function ExpiredWith(rows: map<Id, Upload>, cutoff: int, files: set<Path>): set<Id> {
    set id | id in rows && rows[id].status !in {Pending, Uploading} && rows[id].createdAt < cutoff
             && rows[id].tempPath in files
  }

  lemma OldMeansExpired(rows: map<Id, Upload>, cutoff: int)
    ensures OldIds(rows, cutoff) == Expired(rows, cutoff)
    ensures forall files :: WithFile(rows, files, OldIds(rows, cutoff)) == ExpiredWith(rows, cutoff, files)
  {
    assert OldIds(rows, cutoff) == Expired(rows, cutoff);
    forall files ensures WithFile(rows, files, OldIds(rows, cutoff)) == ExpiredWith(rows, cutoff, files) {
      assert forall id :: id in WithFile(rows, files, OldIds(rows, cutoff)) <==> id in ExpiredWith(rows, cutoff, files);
    }
  }

  lemma SweptMeans(rows: map<Id, Upload>, files: set<Path>, cutoff: int, dryRun: bool, stuck: set<Path>,
                   rows': map<Id, Upload>, files': set<Path>, deleted: nat, kept: nat)
    requires DistinctPaths(rows)
    requires Swept(rows, files, dryRun, stuck, OldIds(rows, cutoff), rows', files', deleted, kept)
    ensures dryRun ==> rows' == rows && files' == files
    ensures !dryRun ==> OldGone(rows, files, cutoff, stuck, rows', files')
    ensures deleted == |ExpiredWith(rows, cutoff, if dryRun then files else files - stuck)|
    ensures kept == if dryRun then 0 else |ExpiredWith(rows, cutoff, files * stuck)|
  {
    OldMeansExpired(rows, cutoff);
    if !dryRun {
      forall id <- rows
        ensures var f := rows[id].tempPath; f in files' <==> f in files && (IsOld(rows[id], cutoff) ==> f in stuck)
      {
        LeftBySweep(rows, files, cutoff, stuck, rows[id].tempPath);
      }
    }
  }

  class Cache {
    var rows: map<Id, Upload>
    var files: set<Path>

    /** Temp files are named after their rows, so no two rows share one. */
    ghost predicate Valid()
      reads this
    {
      DistinctPaths(rows)
    }

    constructor ()
      ensures Valid() && rows == map[] && files == {}
    {
      rows, files := map[], {};
    }

    method DeleteOldRow(id: Id, dryRun: bool, stuck: set<Path>) returns (deleted: bool, kept: bool)
      requires id in rows
      modifies this
      ensures OneRow(id, dryRun, stuck, old(rows), old(files), rows, files, deleted, kept)
    {
      var path := rows[id].tempPath;
      deleted, kept := false, false;
      if path in files {
        if !dryRun {
          if path !in stuck {
            files := files - {path};
            deleted := true;
          } else {
            kept := true;
          }
        } else {
          deleted := true;
        }
      }
      if !dryRun {
        rows := rows - {id};
      }
    }

    method Sweep(cutoff: int, dryRun: bool, stuck: set<Path>) returns (records: nat, deleted: nat, kept: nat)
      requires Valid()
      modifies this
      ensures records == |OldIds(old(rows), cutoff)|
      ensures Swept(old(rows), old(files), dryRun, stuck, OldIds(old(rows), cutoff), rows, files, deleted, kept)
    {
      records, deleted, kept := 0, 0, 0;
      ghost var rows0, files0 := rows, files;
      var todo := OldIds(rows, cutoff);
      ghost var all, done := todo, {};
      SweptStart(rows0, files0, dryRun, stuck);
      while todo != {}
        invariant todo <= all && records + |todo| == |all|
        invariant done == all - todo
        invariant Swept(rows0, files0, dryRun, stuck, done, rows, files, deleted, kept)
      {
        var id :| id in todo;
        ghost var rows1, files1 := rows, files;
        var d, k := DeleteOldRow(id, dryRun, stuck);
        SweptMore(rows0, files0, dryRun, stuck, done, rows1, files1, deleted, kept, id, rows, files, d, k);
        deleted, kept := Plus(deleted, d), Plus(kept, k);
        records := records + 1;
        todo, done := todo - {id}, done + {id};
      }
      assert done == all;
    }

    /** Phase 1.  Deleting the files in `stuck` raises OSError. */
    method DeleteOldRows(cutoff: int, dryRun: bool, stuck: set<Path>) returns (records: nat, deleted: nat, kept: nat)
      requires Valid()
      modifies this
      ensures dryRun ==> rows == old(rows) && files == old(files)
      ensures !dryRun ==> OldGone(old(rows), old(files), cutoff, stuck, rows, files)
      ensures records == |Expired(old(rows), cutoff)|
      ensures deleted == |ExpiredWith(old(rows), cutoff, if dryRun then old(files) else old(files) - stuck)|
      ensures kept == if dryRun then 0 else |ExpiredWith(old(rows), cutoff, old(files) * stuck)|
      ensures Valid() && records == |OldIds(old(rows), cutoff)|
      ensures Swept(old(rows), old(files), dryRun, stuck, OldIds(old(rows), cutoff), rows, files, deleted, kept)
    {
      ghost var rows0, files0 := rows, files;
      records, deleted, kept := Sweep(cutoff, dryRun, stuck);
      SweptDistinct(rows0, files0, dryRun, stuck, OldIds(rows0, cutoff), rows, files, deleted, kept);
      SweptMeans(rows0, files0, cutoff, dryRun, stuck, rows, files, deleted, kept);
      OldMeansExpired(rows0, cutoff);
    }

    method RemoveOrphan(f: Path, known: set<Path>, dryRun: bool, stuck: set<Path>) returns (gone: bool)
      modifies this`files
      ensures gone <==> f !in known && (dryRun || f !in stuck)
      ensures files == if gone && !dryRun then old(files) - {f} else old(files)
    {
      gone := false;
      if f !in known {
        if !dryRun {
          if f !in stuck {
            files := files - {f};
            gone := true;
          }
        } else {
          gone := true;
        }
      }
    }

    method RemoveUnknown(known: set<Path>, dryRun: bool, stuck: set<Path>, ghost keep: set<Path>)
      returns (orphaned: nat)
      requires keep == if dryRun then known else known + stuck
      modifies this`files
      ensures Removed(old(files), keep, dryRun, old(files), files, orphaned)
    {
      ghost var files0, seen := files, {};
      orphaned := 0;
      var todo := files;
      RemovedNone(files0, keep, dryRun);
      while todo != {}
        invariant todo <= files0 && seen == files0 - todo
        invariant Removed(files0, keep, dryRun, seen, files, orphaned)
      {
        var f :| f in todo;
        ghost var before := files;
        var gone := RemoveOrphan(f, known, dryRun, stuck);
        RemovedMore(files0, keep, dryRun, seen, before, orphaned, f, files, gone);
        orphaned := Plus(orphaned, gone);
        todo, seen := todo - {f}, seen + {f};
      }
      assert seen == files0;
    }

    /** Phase 2: the files no row refers to. */
    method RemoveOrphans(dryRun: bool, stuck: set<Path>) returns (orphaned: nat)
      modifies this`files
      ensures if dryRun then files == old(files) && orphaned == |Unreferenced(rows, files)|
              else files <= old(files) && orphaned == |old(files)| - |files|
                   && UnknownGone(rows, old(files), stuck, files)
                   && forall id <- rows :: rows[id].tempPath in old(files) ==> rows[id].tempPath in files
      ensures OrphansGone(rows, old(files), dryRun, stuck, files, orphaned)
    {
      var known := Paths(rows);
      ghost var keep := if dryRun then known else known + stuck;
      orphaned := RemoveUnknown(known, dryRun, stuck, keep);
      RemovedAll(rows, old(files), dryRun, stuck, keep, old(files), files, orphaned);
      OrphansMean(rows, old(files), dryRun, stuck, files, orphaned);
    }

    /** The whole command.  The files in `stuck` cannot be deleted in phase 1, those in `stuck2` not in
        phase 2. */
    method Cleanup(cutoff: int, dryRun: bool, stuck: set<Path>, stuck2: set<Path>)
      returns (records: nat, deleted: nat, kept: nat, orphaned: nat)
      requires Valid()
      modifies this
      ensures Valid()
      ensures dryRun ==> rows == old(rows) && files == old(files) && orphaned == |Unreferenced(rows, files)|
      ensures !dryRun ==> OldGone(old(rows), old(files), cutoff, stuck * stuck2, rows, files)
                          && UnknownGone(old(rows), old(files), stuck2, files)
                          && |old(files)| == |files| + deleted + orphaned && |old(rows)| == |rows| + records
      ensures records == |Expired(old(rows), cutoff)|
      ensures deleted == |ExpiredWith(old(rows), cutoff, if dryRun then old(files) else old(files) - stuck)|
      ensures kept == if dryRun then 0 else |ExpiredWith(old(rows), cutoff, old(files) * stuck)|
      ensures CleanedUp(old(rows), old(files), cutoff, dryRun, stuck, stuck2, rows, files, records, deleted, kept,
              orphaned)
    {
      ghost var rows0, files0 := rows, files;
      records, deleted, kept := DeleteOldRows(cutoff, dryRun, stuck);
      ghost var rows1, files1 := rows, files;
      orphaned := RemoveOrphans(dryRun, stuck2);
      CleanupMeans(rows0, files0, cutoff, dryRun, stuck, stuck2, rows1, files1, records, deleted, kept, files,
          orphaned);
      if !dryRun {
        RealRunMeans(rows0, files0, cutoff, stuck, stuck2, rows, files, records, deleted, kept, orphaned);
      } else {
        assert Orphans(rows, files) == Unreferenced(rows, files);
      }
    }
  }

  /* ------------------------------------ what a run achieves ------------------------------------ */

  /** The file is the temp file of a row that stays: live, or not older than the cutoff. */
  ghost predicate Needed(rows: map<Id, Upload>, cutoff: int, f: Path) {
    exists id <- rows :: !IsOld(rows[id], cutoff) && rows[id].tempPath == f
  }

  /** The file is there, and unreferenced, after phase 1: an orphan before, or one that a deleted row
      had and that could not be deleted with it. */
  ghost predicate LeftOver(rows: map<Id, Upload>, files: set<Path>, cutoff: int, stuck: set<Path>, f: Path) {
    f in files && !Needed(rows, cutoff, f) && (f in Paths(rows) ==> f in stuck)
  }

  /** The rows that stay are those not older than the cutoff, as they were. */
  ghost predicate RowsLeft(rows: map<Id, Upload>, rows': map<Id, Upload>, cutoff: int) {
    && (forall id :: id in rows' <==> id in rows && !IsOld(rows[id], cutoff))
    && (forall id <- rows' :: rows'[id] == rows[id])
  }

  /** Needed files stay, and those that cannot be deleted. */
  ghost predicate FilesLeft(rows: map<Id, Upload>, files: set<Path>, files': set<Path>, cutoff: int, stuck: set<Path>,
                            stuck2: set<Path>) {
    forall f :: f in files' <==>
      f in files && (Needed(rows, cutoff, f) || (LeftOver(rows, files, cutoff, stuck, f) && f in stuck2))
  }

  /** The orphans a run counts: a dry run deletes no row, so it sees only those there are. */
  ghost function OrphansFound(rows: map<Id, Upload>, files: set<Path>, cutoff: int, dryRun: bool, stuck: set<Path>,
                              stuck2: set<Path>): set<Path> {
    if dryRun then Orphans(rows, files)
    else set f | f in files && LeftOver(rows, files, cutoff, stuck, f) && f !in stuck2
  }

  /** What one run of the command leaves and reports, in terms of the tables it started from. */
  ghost predicate CleanedUp(rows: map<Id, Upload>, files: set<Path>, cutoff: int, dryRun: bool,
                            stuck: set<Path>, stuck2: set<Path>, rows': map<Id, Upload>, files': set<Path>,
                            records: nat, deleted: nat, kept: nat, orphaned: nat) {
    && (if dryRun then rows' == rows && files' == files
        else RowsLeft(rows, rows', cutoff) && FilesLeft(rows, files, files', cutoff, stuck, stuck2))
    && records == |OldIds(rows, cutoff)|
    && deleted + kept == |WithFile(rows, files, OldIds(rows, cutoff))|
    && kept == (if dryRun then 0 else |WithFile(rows, files * stuck, OldIds(rows, cutoff))|)
    && orphaned == |OrphansFound(rows, files, cutoff, dryRun, stuck, stuck2)|
  }

  lemma CountsAddUp(rows: map<Id, Upload>, files: set<Path>, stuck: set<Path>, ids: set<Id>)
    ensures |WithFile(rows, files - stuck, ids)| + |WithFile(rows, files * stuck, ids)| == |WithFile(rows, files, ids)|
  {
    assert WithFile(rows, files - stuck, ids) + WithFile(rows, files * stuck, ids) == WithFile(rows, files, ids);
  }

  lemma PathsLeft(rows: map<Id, Upload>, rows': map<Id, Upload>, cutoff: int)
    requires RowsLeft(rows, rows', cutoff)
    ensures forall f :: f in Paths(rows') <==> Needed(rows, cutoff, f)
  {
    forall f ensures f in Paths(rows') <==> Needed(rows, cutoff, f) {
      if f in Paths(rows') {
        var id :| id in rows' && rows'[id].tempPath == f;
        assert id in rows && !IsOld(rows[id], cutoff);
      }
      if Needed(rows, cutoff, f) {
        var id :| id in rows && !IsOld(rows[id], cutoff) && rows[id].tempPath == f;
        assert id in rows' && rows'[id].tempPath == f;
      }
    }
  }

  /** What phase 1 leaves, file by file. */
  lemma LeftBySweep(rows: map<Id, Upload>, files: set<Path>, cutoff: int, stuck: set<Path>, f: Path)
    requires DistinctPaths(rows)
    ensures f in FilesAfter(rows, files, OldIds(rows, cutoff), stuck)
            <==> f in files && (Needed(rows, cutoff, f) || LeftOver(rows, files, cutoff, stuck, f))
  {
    if id :| id in rows && rows[id].tempPath == f {
      assert Needed(rows, cutoff, f) <==> !IsOld(rows[id], cutoff);
    }
  }

  /** The stuck files of deleted rows are orphans in phase 2. */
  lemma OrphansAfterSweep(rows: map<Id, Upload>, files: set<Path>, cutoff: int, stuck: set<Path>, stuck2: set<Path>)
    requires DistinctPaths(rows)
    ensures var left, rest := FilesAfter(rows, files, OldIds(rows, cutoff), stuck), rows - OldIds(rows, cutoff);
            && Orphans(rest, left) - stuck2 == OrphansFound(rows, files, cutoff, false, stuck, stuck2)
            && FilesLeft(rows, files, left - (Orphans(rest, left) - stuck2), cutoff, stuck, stuck2)
  {
    PathsLeft(rows, rows - OldIds(rows, cutoff), cutoff);
    forall f { LeftBySweep(rows, files, cutoff, stuck, f); }
  }

  lemma CleanupMeans(rows: map<Id, Upload>, files: set<Path>, cutoff: int, dryRun: bool, stuck: set<Path>,
                     stuck2: set<Path>, rows1: map<Id, Upload>, files1: set<Path>, records: nat, deleted: nat,
                     kept: nat, files2: set<Path>, orphaned: nat)
    requires DistinctPaths(rows) && records == |OldIds(rows, cutoff)|
    requires Swept(rows, files, dryRun, stuck, OldIds(rows, cutoff), rows1, files1, deleted, kept)
    requires OrphansGone(rows1, files1, dryRun, stuck2, files2, orphaned)
    ensures CleanedUp(rows, files, cutoff, dryRun, stuck, stuck2, rows1, files2, records, deleted, kept, orphaned)
  {
    CountsAddUp(rows, files, stuck, OldIds(rows, cutoff));
    OrphansAfterSweep(rows, files, cutoff, stuck, stuck2);
  }

  lemma RowsAddUp(rows: map<Id, Upload>, rows': map<Id, Upload>, cutoff: int)
    requires RowsLeft(rows, rows', cutoff)
    ensures |rows'| + |OldIds(rows, cutoff)| == |rows|
  {
    assert rows'.Keys + OldIds(rows, cutoff) == rows.Keys;
  }

  /** A real run in terms of the tables before it. */
  lemma RealRunMeans(rows: map<Id, Upload>, files: set<Path>, cutoff: int, stuck: set<Path>, stuck2: set<Path>,
                     rows': map<Id, Upload>, files': set<Path>, records: nat, deleted: nat, kept: nat, orphaned: nat)
    requires DistinctPaths(rows)
    requires CleanedUp(rows, files, cutoff, false, stuck, stuck2, rows', files', records, deleted, kept, orphaned)
    ensures OldGone(rows, files, cutoff, stuck * stuck2, rows', files') && UnknownGone(rows, files, stuck2, files')
    ensures |rows| == |rows'| + records && |files| == |files'| + deleted + orphaned
  {
    RowsAddUp(rows, rows', cutoff);
    RowsAreExact(rows, files, cutoff, stuck, stuck2, rows', files');
    FilesAddUp(rows, files, cutoff, stuck, stuck2, files');
    CountsAddUp(rows, files, stuck, OldIds(rows, cutoff));
  }

  lemma RowsAreExact(rows: map<Id, Upload>, files: set<Path>, cutoff: int, stuck: set<Path>, stuck2: set<Path>,
                     rows': map<Id, Upload>, files': set<Path>)
    requires DistinctPaths(rows) && RowsLeft(rows, rows', cutoff)
             && FilesLeft(rows, files, files', cutoff, stuck, stuck2)
    ensures OldGone(rows, files, cutoff, stuck * stuck2, rows', files') && UnknownGone(rows, files, stuck2, files')
  {
    forall id <- rows ensures Needed(rows, cutoff, rows[id].tempPath) <==> !IsOld(rows[id], cutoff) {}
  }

  lemma {:induction false} OnePathEach(rows: map<Id, Upload>, ids: set<Id>)
    requires DistinctPaths(rows) && ids <= rows.Keys
    ensures |set id | id in ids :: rows[id].tempPath| == |ids|
  {
    if ids != {} {
      var id :| id in ids;
      OnePathEach(rows, ids - {id});
      var fewer := set i | i in ids - {id} :: rows[i].tempPath;
      assert (set i | i in ids :: rows[i].tempPath) == fewer + {rows[id].tempPath};
    }
  }

  /** Each file that is not there any more was deleted with its row or as an orphan. */
  lemma FilesAddUp(rows: map<Id, Upload>, files: set<Path>, cutoff: int, stuck: set<Path>, stuck2: set<Path>,
                   files': set<Path>)
    requires DistinctPaths(rows) && FilesLeft(rows, files, files', cutoff, stuck, stuck2)
    ensures |files| == |files'| + |WithFile(rows, files - stuck, OldIds(rows, cutoff))|
                       + |OrphansFound(rows, files, cutoff, false, stuck, stuck2)|
  {
    var ids := WithFile(rows, files - stuck, OldIds(rows, cutoff));
    var gone := set id | id in ids :: rows[id].tempPath;
    var orphans := OrphansFound(rows, files, cutoff, false, stuck, stuck2);
    OnePathEach(rows, ids);
    forall f <- files ensures f in files' || f in gone || f in orphans {
      LeftBySweep(rows, files, cutoff, stuck, f);
    }
    forall id <- ids ensures !Needed(rows, cutoff, rows[id].tempPath) {}
    assert files == files' + gone + orphans;
    assert gone !! orphans && files' !! gone + orphans;
  }

  /** A real run keeps every live or recent row and its file, and leaves exactly those unreferenced
      files that phase 2 saw and could not delete: none when no unlink of phase 2 fails. */
  lemma CleanupIsExact(rows: map<Id, Upload>, files: set<Path>, cutoff: int, stuck: set<Path>, stuck2: set<Path>,
                       rows': map<Id, Upload>, files': set<Path>, records: nat, deleted: nat, kept: nat, orphaned: nat)
    requires CleanedUp(rows, files, cutoff, false, stuck, stuck2, rows', files', records, deleted, kept, orphaned)
    ensures forall id <- rows :: rows[id].status in {Pending, Uploading} || rows[id].createdAt >= cutoff ==>
              id in rows' && rows'[id] == rows[id] && (rows[id].tempPath in files' <==> rows[id].tempPath in files)
    ensures forall id <- rows :: rows[id].status in {Done, Failed, Cancelled} && rows[id].createdAt < cutoff ==>
              id !in rows'
    ensures forall f :: f in Orphans(rows', files') <==> LeftOver(rows, files, cutoff, stuck, f) && f in stuck2
    ensures |rows'| + records == |rows|
  {
    PathsLeft(rows, rows', cutoff);
    RowsAddUp(rows, rows', cutoff);
    forall id <- rows | !IsOld(rows[id], cutoff) ensures Needed(rows, cutoff, rows[id].tempPath) {}
  }

  /** A dry run changes nothing and predicts the counts of the real run it is made instead of: the
      rows exactly, the temp files together with those that cannot be deleted, and everything
      exactly when no unlink fails. */
  lemma DryRunPredicts(rows: map<Id, Upload>, files: set<Path>, cutoff: int, stuck: set<Path>, stuck2: set<Path>,
                       rowsD: map<Id, Upload>, filesD: set<Path>,
                       recordsD: nat, deletedD: nat, keptD: nat, orphanedD: nat,
                       rowsR: map<Id, Upload>, filesR: set<Path>,
                       recordsR: nat, deletedR: nat, keptR: nat, orphanedR: nat)
    requires CleanedUp(rows, files, cutoff, true, {}, {}, rowsD, filesD, recordsD, deletedD, keptD, orphanedD)
    requires CleanedUp(rows, files, cutoff, false, stuck, stuck2, rowsR, filesR, recordsR, deletedR, keptR, orphanedR)
    ensures rowsD == rows && filesD == files && recordsD == recordsR && deletedD == deletedR + keptR
    ensures files !! stuck + stuck2 ==> keptR == 0 && deletedD == deletedR && orphanedD == orphanedR
  {
    if files !! stuck + stuck2 {
      assert files * stuck == {} && WithFile(rows, {}, OldIds(rows, cutoff)) == {};
      FoundWhenNothingIsStuck(rows, files, cutoff, stuck, stuck2);
    }
  }

  lemma FoundWhenNothingIsStuck(rows: map<Id, Upload>, files: set<Path>, cutoff: int, stuck: set<Path>,
                                stuck2: set<Path>)
    requires files !! stuck + stuck2
    ensures OrphansFound(rows, files, cutoff, false, stuck, stuck2) == Orphans(rows, files)
  {
    forall f <- files ensures f !in stuck && f !in stuck2 && (Needed(rows, cutoff, f) ==> f in Paths(rows)) {
      assert f in stuck + stuck2 ==> f in files * (stuck + stuck2);
    }
  }

  /* ----------------------------- the same steps in the protocol ----------------------------- */

  lemma Act(s: State, a: Action, run: seq<Action>)
    ensures Exec(s, [a] + run) == Exec(Step(s, a), run)
  {
    assert ([a] + run)[1..] == run;
  }

  /** What `DeleteOldRow` does to a finished row is three actions of a cleanup that is scanning, and nothing else
      in the protocol's tables changes. */
  lemma DeleteOldRowIsRun(s: State, p: Pid, id: Id, stuck: bool)
    requires p in s.cleanups && s.cleanups[p].Scanning? && id in s.rows
    requires s.rows[id].status == Done || s.rows[id].status == Failed || s.rows[id].status == Cancelled
    ensures Exec(s, [CleanupNext(p, Ok, id)] + ([CleanupNext(p, if stuck then Error else Ok, 0)]
                                                + ([CleanupNext(p, Ok, 0)] + [])))
            == s.(rows := s.rows - {id}, files := if stuck then s.files else s.files - {id})
  {
    var s1 := s.(cleanups := s.cleanups[p := OldRow(id)]);
    var s2 := s.(cleanups := s.cleanups[p := OldRowDelete(id)], files := if stuck then s.files else s.files - {id});
    var tried := CleanupNext(p, if stuck then Error else Ok, 0);
    var last := [CleanupNext(p, Ok, 0)] + [];
    Act(s, CleanupNext(p, Ok, id), [tried] + last);
    CleanupMoves(s, p, id, stuck);
    Act(s1, tried, last);
    Act(s2, CleanupNext(p, Ok, 0), []);
  }

  lemma CleanupMoves(s: State, p: Pid, id: Id, stuck: bool)
    requires p in s.cleanups && s.cleanups[p].Scanning? && id in s.rows && !IsLive(s.rows[id].status)
    ensures var s1 := s.(cleanups := s.cleanups[p := OldRow(id)]);
            var files := if stuck then s.files else s.files - {id};
            var s2 := s.(cleanups := s.cleanups[p := OldRowDelete(id)], files := files);
            && Step(s, CleanupNext(p, Ok, id)) == s1
            && Step(s1, CleanupNext(p, if stuck then Error else Ok, 0)) == s2
            && Step(s2, CleanupNext(p, Ok, 0)) == s.(rows := s.rows - {id}, files := files)
  {
    assert s.cleanups[p := OldRow(id)][p := OldRowDelete(id)] == s.cleanups[p := OldRowDelete(id)];
    assert s.cleanups[p := OldRowDelete(id)][p := Scanning] == s.cleanups;
  }

  /** A live row is never taken up, and of the files without a row exactly those unknown to the sweep go. */
  lemma CleanupSpares(s: State, p: Pid, choice: Choice, id: Id)
    requires p in s.cleanups
    ensures s.cleanups[p].Scanning? && choice.Ok? && LiveRow(s, id) ==> Step(s, CleanupNext(p, choice, id)) == s
    ensures s.cleanups[p].Scanning? && !choice.Ok?
            ==> Step(s, CleanupNext(p, choice, id)) == s.(cleanups := s.cleanups[p := Sweeping(s.rows.Keys)])
    ensures s.cleanups[p].Sweeping? && choice.Ok?
            ==> Step(s, CleanupNext(p, choice, id))
                == s.(files := if id in s.cleanups[p].known then s.files else s.files - {id})
  {
    if id !in s.files { assert s.files - {id} == s.files; }
  }
}
