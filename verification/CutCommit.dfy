/** Replacing several originals by their cut versions, all or none of them. */
module CutCommit {
  import opened Common

  type Path = string
  type Content = string

  datatype Job = Job(original: Path, staged: Path, backup: Path)

  /** A restore works, reports an error before it changed anything, or after it removed what was at the original. */
  datatype Restoring = Works | FailsEarly | FailsLate

  /** What goes wrong around one job; a failing file operation changes nothing but what it says. */
  datatype Trouble = Trouble(
    cancelled: bool,
    backupFails: bool,
    replaceFails: bool,
    restoring: Restoring,
    cleanupFails: bool)

  datatype Outcome = Committed | InvalidStage | RolledBack | RestoreFailed

  function At(files: map<Path, Content>, p: Path): Option<Content> {
    if p in files then Some(files[p]) else None
  }

  predicate Apart(a: Job, b: Job) {
    && a.original != b.original && a.original != b.staged && a.original != b.backup
    && a.staged != b.original && a.staged != b.staged && a.staged != b.backup
    && a.backup != b.original && a.backup != b.staged && a.backup != b.backup
  }

  /** All the paths of all the jobs are different. */
  ghost predicate Distinct(jobs: seq<Job>) {
    && (forall i :: 0 <= i < |jobs| ==>
          jobs[i].original != jobs[i].staged && jobs[i].original != jobs[i].backup && jobs[i].staged != jobs[i].backup)
    && (forall i, j :: 0 <= i < |jobs| && 0 <= j < |jobs| && i != j ==> Apart(jobs[i], jobs[j]))
  }

  /** Nothing this job names has changed. */
  predicate Untouched(was: map<Path, Content>, now: map<Path, Content>, job: Job) {
    At(now, job.original) == At(was, job.original) && At(now, job.staged) == At(was, job.staged)
  }

  /** The staged version is in place and the original kept aside. */
  predicate Replaced(was: map<Path, Content>, now: map<Path, Content>, job: Job) {
    && At(was, job.original).Some?
    && At(was, job.staged).Some?
    && At(now, job.original) == At(was, job.staged)
    && At(now, job.staged).None?
    && At(now, job.backup) == At(was, job.original)
  }

  /** The original holds its old content, or that content is still in the backup. */
  predicate Recoverable(was: map<Path, Content>, now: map<Path, Content>, job: Job) {
    At(now, job.original) == At(was, job.original) || At(now, job.backup) == At(was, job.original)
  }

  /** Only the paths of the first `n` jobs may differ. */
  ghost predicate Confined(was: map<Path, Content>, now: map<Path, Content>, jobs: seq<Job>, n: nat)
    requires n <= |jobs|
  {
    forall p :: (forall i :: 0 <= i < n ==> p != jobs[i].original && p != jobs[i].staged && p != jobs[i].backup) ==>
      At(now, p) == At(was, p)
  }

  /** Neither cancelled nor failing, and with something to replace. */
  predicate Smooth(job: Job, trouble: Trouble, was: map<Path, Content>) {
    job.original in was && !trouble.cancelled && !trouble.backupFails && !trouble.replaceFails
  }

  /** Every original is back, or a restore failed and no old content is lost. */
  ghost predicate AllBack(was: map<Path, Content>, now: map<Path, Content>, jobs: seq<Job>, troubles: seq<Trouble>,
                          outcome: Outcome)
    requires |troubles| == |jobs|
  {
    if outcome == RestoreFailed then
      && (exists i :: 0 <= i < |jobs| && troubles[i].restoring != Works)
      && (forall i :: 0 <= i < |jobs| ==> Recoverable(was, now, jobs[i]))
    else forall i :: 0 <= i < |jobs| ==> At(now, jobs[i].original) == At(was, jobs[i].original)
  }

  class Directory {
    var files: map<Path, Content>

    constructor (files: map<Path, Content>)
      ensures this.files == files
    {
      this.files := files;
    }

    method Rename(from: Path, to: Path, fails: bool) returns (ok: bool)
      modifies this
      ensures ok <==> !fails && from in old(files)
      ensures ok ==> files == (old(files) - {from})[to := old(files)[from]]
      ensures !ok ==> files == old(files)
    {
      if fails || from !in files {
        return false;
      }
      var content := files[from];
      files := (files - {from})[to := content];
      return true;
    }

    /** Removes a file at the original and moves the backup there; a failure keeps the backup. */
    method Restore(job: Job, restoring: Restoring) returns (ok: bool)
      requires job.original != job.backup
      modifies this
      ensures ok <==> restoring == Works && job.backup in old(files)
      ensures ok ==> At(files, job.original) == At(old(files), job.backup) && job.backup !in files
      ensures !ok ==> At(files, job.backup) == At(old(files), job.backup)
      ensures !ok ==> At(files, job.original) == if restoring == FailsEarly then At(old(files), job.original) else None
      ensures forall p :: p != job.original && p != job.backup ==> At(files, p) == At(old(files), p)
    {
      if restoring == FailsEarly {
        return false;
      }
      files := files - {job.original};
      ok := Rename(job.backup, job.original, restoring == FailsLate);
    }

    /** The rollback closure: restores the first `committed` jobs, going on after a failure. */
    method Rollback(jobs: seq<Job>, troubles: seq<Trouble>, committed: nat, ghost was: map<Path, Content>)
      returns (outcome: Outcome)
      requires Distinct(jobs) && |troubles| == |jobs| && committed <= |jobs|
      requires forall i :: 0 <= i < committed ==> Replaced(was, files, jobs[i])
      requires forall i :: committed <= i < |jobs| ==> Untouched(was, files, jobs[i])
      modifies this
      ensures outcome == RolledBack || outcome == RestoreFailed
      ensures outcome == RestoreFailed <==> exists i :: 0 <= i < committed && troubles[i].restoring != Works
      ensures outcome == RolledBack ==>
                forall i :: 0 <= i < |jobs| ==> At(files, jobs[i].original) == At(was, jobs[i].original)
      ensures forall i :: 0 <= i < |jobs| ==> Recoverable(was, files, jobs[i])
      ensures Confined(old(files), files, jobs, committed)
    {
      outcome := RolledBack;
      for n := 0 to committed
        invariant outcome == RolledBack || outcome == RestoreFailed
        invariant outcome == RestoreFailed <==> exists i :: 0 <= i < n && troubles[i].restoring != Works
        invariant forall i :: 0 <= i < n ==> Recoverable(was, files, jobs[i])
        invariant outcome == RolledBack ==>
                    forall i :: 0 <= i < n ==> At(files, jobs[i].original) == At(was, jobs[i].original)
        invariant forall i :: n <= i < committed ==> Replaced(was, files, jobs[i])
        invariant forall i :: committed <= i < |jobs| ==> Untouched(was, files, jobs[i])
        invariant Confined(old(files), files, jobs, n)
      {
        ghost var before := files;
        var ok := Restore(jobs[n], troubles[n].restoring);
        if !ok {
          outcome := RestoreFailed;
        }
        OthersKept(was, before, files, jobs, n);
        assert Confined(old(files), files, jobs, n + 1) by {
          forall p | forall i :: 0 <= i < n + 1 ==> p != jobs[i].original && p != jobs[i].staged && p != jobs[i].backup
            ensures At(files, p) == At(old(files), p)
          {
            assert p != jobs[n].original && p != jobs[n].backup;
          }
        }
      }
    }

    /** The two renames of one job; a failed second one is undone at once. */
    method ReplaceOne(job: Job, trouble: Trouble, ghost was: map<Path, Content>)
      returns (ok: bool, restored: bool)
      requires job.original != job.staged && job.original != job.backup && job.staged != job.backup
      requires Untouched(was, files, job) && job.staged in files
      modifies this
      ensures ok ==> Replaced(was, files, job)
      ensures ok <==> !trouble.backupFails && !trouble.replaceFails && job.original in was
      ensures !ok && restored ==> Untouched(was, files, job)
      ensures !ok && !restored ==> Recoverable(was, files, job) && trouble.restoring != Works
      ensures forall p :: p != job.original && p != job.staged && p != job.backup ==> At(files, p) == At(old(files), p)
    {
      var saved := Rename(job.original, job.backup, trouble.backupFails);
      if !saved {
        return false, true;
      }
      var replaced := Rename(job.staged, job.original, trouble.replaceFails);
      if !replaced {
        restored := Restore(job, trouble.restoring);
        return false, restored;
      }
      return true, true;
    }

    /** The end of a failed commit: a current job that could not be restored stops even the rollback. */
    method GiveUp(jobs: seq<Job>, troubles: seq<Trouble>, n: nat, restored: bool, ghost was: map<Path, Content>)
      returns (outcome: Outcome)
      requires Distinct(jobs) && |troubles| == |jobs| && n < |jobs|
      requires forall i :: 0 <= i < n ==> Replaced(was, files, jobs[i])
      requires forall i :: n < i < |jobs| ==> Untouched(was, files, jobs[i])
      requires if restored then Untouched(was, files, jobs[n])
               else Recoverable(was, files, jobs[n]) && troubles[n].restoring != Works
      requires Confined(was, files, jobs, n + 1)
      modifies this
      ensures outcome != Committed && AllBack(was, files, jobs, troubles, outcome)
      ensures Confined(was, files, jobs, |jobs|)
    {
      outcome := RestoreFailed;
      if restored {
        outcome := Rollback(jobs, troubles, n, was);
      }
      ConfinedWidens(was, files, jobs, n + 1);
    }

    /** The replacing loop with its rollbacks. */
    method ReplaceAll(jobs: seq<Job>, troubles: seq<Trouble>) returns (outcome: Outcome)
      requires Distinct(jobs) && |troubles| == |jobs|
      requires forall i :: 0 <= i < |jobs| ==> jobs[i].staged in files
      modifies this
      ensures outcome == Committed <==> forall i :: 0 <= i < |jobs| ==> Smooth(jobs[i], troubles[i], old(files))
      ensures outcome == Committed ==> forall i :: 0 <= i < |jobs| ==> Replaced(old(files), files, jobs[i])
      ensures outcome != Committed ==> AllBack(old(files), files, jobs, troubles, outcome)
      ensures Confined(old(files), files, jobs, |jobs|)
    {
      ghost var was := files;
      for n := 0 to |jobs|
        invariant forall i :: 0 <= i < n ==> Replaced(was, files, jobs[i]) && Smooth(jobs[i], troubles[i], was)
        invariant forall i :: n <= i < |jobs| ==> Untouched(was, files, jobs[i])
        invariant Confined(was, files, jobs, n)
      {
        ghost var before := files;
        var ok, restored := false, true;
        if !troubles[n].cancelled {
          assert Untouched(was, files, jobs[n]) && jobs[n].staged in was;
          ok, restored := ReplaceOne(jobs[n], troubles[n], was);
        }
        OthersKept(was, before, files, jobs, n);
        ConfinedGrows(was, before, files, jobs, n);
        if !ok {
          outcome := GiveUp(jobs, troubles, n, restored, was);
          return;
        }
      }
      outcome := Committed;
    }

    /**
     All or nothing: on success every original holds its staged content; on any
     failure or cancellation, if the restores succeed, every original holds its
     old content; and even if they do not, no old content is lost.
     */
    method CommitJobs(jobs: seq<Job>, troubles: seq<Trouble>) returns (outcome: Outcome)
      requires Distinct(jobs) && |troubles| == |jobs|
      modifies this
      ensures outcome == Committed <==>
                forall i :: 0 <= i < |jobs| ==> jobs[i].staged in old(files) && Smooth(jobs[i], troubles[i], old(files))
      ensures outcome == Committed ==>
                forall i :: 0 <= i < |jobs| ==>
                  && At(files, jobs[i].original) == At(old(files), jobs[i].staged)
                  && At(files, jobs[i].backup)
                     == if troubles[i].cleanupFails then At(old(files), jobs[i].original) else None
      ensures outcome != Committed ==> AllBack(old(files), files, jobs, troubles, outcome)
      ensures Confined(old(files), files, jobs, |jobs|)
    {
      for n := 0 to |jobs|
        invariant files == old(files)
        invariant forall i :: 0 <= i < n ==> jobs[i].staged in files
      {
        if jobs[n].staged !in files {
          return InvalidStage;
        }
      }
      outcome := ReplaceAll(jobs, troubles);
      if outcome == Committed {
        RemoveBackups(jobs, troubles, old(files));
      }
    }

    /** A backup that cannot be removed stays; the source ignores that. */
    method RemoveBackups(jobs: seq<Job>, troubles: seq<Trouble>, ghost was: map<Path, Content>)
      requires Distinct(jobs) && |troubles| == |jobs| && Confined(was, files, jobs, |jobs|)
      modifies this
      ensures forall i :: 0 <= i < |jobs| ==>
                && At(files, jobs[i].original) == At(old(files), jobs[i].original)
                && At(files, jobs[i].backup)
                   == if troubles[i].cleanupFails then At(old(files), jobs[i].backup) else None
      ensures Confined(was, files, jobs, |jobs|)
    {
      for n := 0 to |jobs|
        invariant forall i :: 0 <= i < |jobs| ==> At(files, jobs[i].original) == At(old(files), jobs[i].original)
        invariant forall i :: n <= i < |jobs| ==> At(files, jobs[i].backup) == At(old(files), jobs[i].backup)
        invariant forall i :: 0 <= i < n ==>
                    At(files, jobs[i].backup)
                    == if troubles[i].cleanupFails then At(old(files), jobs[i].backup) else None
        invariant Confined(was, files, jobs, |jobs|)
      {
        ghost var before := files;
        if !troubles[n].cleanupFails {
          files := files - {jobs[n].backup};
        }
        OthersKept(was, before, files, jobs, n);
      }
    }
  }

  /** A change confined to the original and backup of one job leaves what is known of the others. */
  lemma OthersKept(was: map<Path, Content>, before: map<Path, Content>, now: map<Path, Content>, jobs: seq<Job>, n: nat)
    requires Distinct(jobs) && n < |jobs|
    requires forall p :: p != jobs[n].original && p != jobs[n].staged && p != jobs[n].backup ==>
               At(now, p) == At(before, p)
    ensures forall i :: 0 <= i < |jobs| && i != n ==>
              && At(now, jobs[i].original) == At(before, jobs[i].original)
              && At(now, jobs[i].backup) == At(before, jobs[i].backup)
              && (Replaced(was, now, jobs[i]) <==> Replaced(was, before, jobs[i]))
              && (Untouched(was, now, jobs[i]) <==> Untouched(was, before, jobs[i]))
              && (Recoverable(was, now, jobs[i]) <==> Recoverable(was, before, jobs[i]))
  {
    forall i | 0 <= i < |jobs| && i != n ensures Apart(jobs[i], jobs[n]) {
    }
  }

  lemma ConfinedWidens(was: map<Path, Content>, now: map<Path, Content>, jobs: seq<Job>, n: nat)
    requires n <= |jobs| && Confined(was, now, jobs, n)
    ensures Confined(was, now, jobs, |jobs|)
  {
  }

  lemma ConfinedGrows(was: map<Path, Content>, before: map<Path, Content>, now: map<Path, Content>, jobs: seq<Job>,
                      n: nat)
    requires n < |jobs| && Confined(was, before, jobs, n)
    requires forall p :: p != jobs[n].original && p != jobs[n].staged && p != jobs[n].backup ==>
               At(now, p) == At(before, p)
    ensures Confined(was, now, jobs, n + 1)
  {
    forall p | forall i :: 0 <= i < n + 1 ==> p != jobs[i].original && p != jobs[i].staged && p != jobs[i].backup
      ensures At(now, p) == At(was, p)
    {
      assert p != jobs[n].original;
    }
  }
}
