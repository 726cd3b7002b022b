/** The media transaction as the engine runs it: slot lists and a directory updated in place. */
module MediaTransaction {
  import opened Common
  import opened TransactionSpec

  /** The directory: lstat, remove, rename and copy, and a supply of unused backup names. */
  class Directory {
    var files: Files
    var next: nat

    constructor (files: Files, next: nat)
      ensures this.files == files && this.next == next
    {
      this.files := files;
      this.next := next;
    }

    /** remove; a missing file is not an error. */
    method Remove(p: Path)
      modifies this`files
      ensures files == old(files) - {p}
    {
      files := files - {p};
    }

    /** remove, or an error that leaves the file. */
    method TryRemove(p: Path, t: Troubles) returns (ok: bool)
      modifies this`files
      ensures files == Removed(old(files), p, t) && ok == (p !in t)
    {
      if p in t {
        return false;
      }
      Remove(p);
      return true;
    }

    /** rename, or failing that a copy, of a backup over its destination, which is removed first. */
    method Restore(p: Path, b: Path, t: Troubles) returns (ok: bool)
      modifies this`files
      ensures files == TransactionSpec.Restore(old(files), p, b, t)
      ensures ok == RestoreWorks(old(files), p, b, t)
    {
      if p in t && !t[p] {
        return false;
      }
      Remove(p);
      if p in t || b !in files {
        return false;
      }
      var moved := files[b];
      files := files[p := moved] - {b};
      return true;
    }
  }

  lemma RemoveThenRestore(files: Files, p: Path, b: Path, t: Troubles)
    requires p !in t
    ensures Restore(files - {p}, p, b, t) == Restore(files, p, b, t)
    ensures RestoreWorks(files - {p}, p, b, t) == RestoreWorks(files, p, b, t)
  {
  }

  class Transaction {
    const directory: Directory
    var destinations: seq<Slot>
    var artifacts: seq<Slot>
    var published: set<Path>
    var backupsAcquired: bool

    /** The abstract value of the transaction and its directory. */
    ghost function Value(): Ledger
      reads this, directory
    {
      Ledger(directory.files, directory.next, destinations, artifacts, published, backupsAcquired)
    }

    constructor (directory: Directory)
      ensures this.directory == directory
      ensures Value() == Begin(directory.files, directory.next)
    {
      this.directory := directory;
      destinations, artifacts, published, backupsAcquired := [], [], {}, false;
    }

    method HasPath(p: Path) returns (found: bool)
      ensures found == TransactionSpec.HasPath(Value(), p)
    {
      for i := 0 to |destinations|
        invariant forall j :: 0 <= j < i ==> destinations[j].destination != p
      {
        if destinations[i].destination == p {
          return true;
        }
      }
      for i := 0 to |artifacts|
        invariant forall j :: 0 <= j < i ==> artifacts[j].destination != p
      {
        if artifacts[i].destination == p {
          return true;
        }
      }
      return false;
    }

    /** A backup of an existing regular file, by rename (`copy` false) or by copy; none for an absent one. */
    method BackUp(p: Path, copy: bool, overwrite: bool, fails: bool) returns (r: Result<Option<Path>, Error>)
      modifies directory
      ensures
        match TransactionSpec.BackUp(old(Value()), p, copy, overwrite, fails)
        case Err(e) => r == Err(e) && Value() == old(Value())
        case Ok((m, b)) => r == Ok(b) && Value() == m
    {
      if fails {
        return Err(InputOutput);
      }
      if p !in directory.files {
        return Ok(None);
      }
      if directory.files[p].Special? {
        return Err(UnsafeDestination);
      }
      if !copy && !overwrite {
        return Err(DestinationExists);
      }
      var backup := Backup(directory.next);
      var content := directory.files[p];
      if !copy {
        directory.Remove(p);
      }
      directory.files := directory.files[backup := content];
      directory.next := directory.next + 1;
      return Ok(Some(backup));
    }

    /** protectPath (`copy` false) and protectAppendPath (`copy` true). */
    method Protect(p: Path, copy: bool, overwrite: bool, fails: bool) returns (error: Option<Error>)
      modifies this`artifacts, directory
      ensures (Value(), error) == TransactionSpec.Protect(old(Value()), p, copy, overwrite, fails)
    {
      var known := HasPath(p);
      if p == StandardOutput || known {
        return None;
      }
      var backup := BackUp(p, copy, overwrite, fails);
      if backup.Err? {
        return Some(backup.error);
      }
      artifacts := artifacts + [Slot(p, backup.value, false, false)];
      return None;
    }

    method SnapshotRemovedPath(p: Path, fails: bool) returns (error: Option<Error>)
      modifies this`artifacts, directory
      ensures (Value(), error) == Snapshot(old(Value()), p, fails)
    {
      if p == StandardOutput {
        return None;
      }
      for i := 0 to |artifacts|
        invariant Value() == old(Value())
        invariant forall j :: 0 <= j < i ==> artifacts[j].destination != p
      {
        if artifacts[i].destination == p {
          if artifacts[i].backup.None? {
            var copied := BackUp(p, true, true, fails);
            if copied.Err? {
              return Some(copied.error);
            }
            artifacts := artifacts[i := artifacts[i].(backup := copied.value)];
          }
          artifacts := artifacts[i := artifacts[i].(removed := true)];
          assert artifacts == old(artifacts)[i := artifacts[i]];
          return None;
        }
      }
      var copied := BackUp(p, true, true, fails);
      if copied.Err? {
        return Some(copied.error);
      }
      artifacts := artifacts + [Slot(p, copied.value, false, true)];
      return None;
    }

    method AcquireDestinationBackups(ps: seq<Path>, overwrite: bool, faults: set<Path>, t: Troubles)
      returns (error: Option<Error>)
      modifies this, directory
      ensures (Value(), error) == Acquire(old(Value()), ps, overwrite, faults, t)
    {
      for i := 0 to |ps|
        invariant Acquire(Value(), ps[i..], overwrite, faults, t) == Acquire(old(Value()), ps, overwrite, faults, t)
      {
        assert ps[i..][1..] == ps[i + 1..];
        var known := HasPath(ps[i]);
        if ps[i] != StandardOutput && !known {
          var backup := BackUp(ps[i], false, overwrite, ps[i] in faults);
          if backup.Err? {
            var undone := Rollback(t);
            return Some(backup.error);
          }
          destinations := destinations + [Slot(ps[i], backup.value, false, false)];
        }
      }
      backupsAcquired := true;
      return None;
    }

    method MarkPublished(p: Path)
      modifies this`published, this`destinations
      ensures Value() == TransactionSpec.MarkPublished(old(Value()), p)
    {
      published := published + {p};
      for i := 0 to |destinations|
        invariant destinations == old(destinations) && published == old(published) + {p}
        invariant forall j :: 0 <= j < i ==> destinations[j].destination != p
      {
        if destinations[i].destination == p {
          destinations := destinations[i := destinations[i].(published := true)];
          return;
        }
      }
    }

    method TrackArtifacts(ps: seq<Path>)
      modifies this`artifacts
      ensures Value() == Track(old(Value()), ps)
    {
      for i := 0 to |ps|
        invariant Track(Value(), ps[i..]) == Track(old(Value()), ps)
      {
        assert ps[i..][1..] == ps[i + 1..];
        var known := HasPath(ps[i]);
        if !known {
          artifacts := artifacts + [Slot(ps[i], None, false, false)];
        }
      }
    }

    /** rollbackArtifactSlot. */
    method UndoArtifactSlot(s: Slot, t: Troubles) returns (ok: bool)
      modifies directory`files
      ensures directory.files == UndoArtifact(old(directory.files), s, t)
      ensures ok == ArtifactUndone(old(directory.files), s, t)
    {
      if s.removed {
        if s.backup.None? {
          return true;
        }
        ok := directory.Restore(s.destination, s.backup.value, t);
        return;
      }
      if s.backup.None? {
        ok := directory.TryRemove(s.destination, t);
        return;
      }
      if s.destination !in t {
        RemoveThenRestore(directory.files, s.destination, s.backup.value, t);
        directory.Remove(s.destination);
      }
      ok := directory.Restore(s.destination, s.backup.value, t);
    }

    method RollbackArtifacts(t: Troubles) returns (ok: bool)
      modifies this`artifacts, directory`files
      ensures Value() == TransactionSpec.RollbackArtifacts(old(Value()), t)
      ensures ok == ArtifactsUndone(old(directory.files), old(artifacts), t)
    {
      ok := true;
      for i := 0 to |artifacts|
        invariant artifacts == old(artifacts)
        invariant UndoArtifacts(directory.files, artifacts[i..], t)
                  == UndoArtifacts(old(directory.files), old(artifacts), t)
        invariant (ok && ArtifactsUndone(directory.files, artifacts[i..], t))
                  == ArtifactsUndone(old(directory.files), old(artifacts), t)
      {
        assert artifacts[i..][1..] == artifacts[i + 1..];
        var undone := UndoArtifactSlot(artifacts[i], t);
        ok := ok && undone;
      }
      artifacts := [];
    }

    /** rollbackDestinationSlot. */
    method UndoDestinationSlot(s: Slot, t: Troubles) returns (ok: bool)
      modifies directory`files
      ensures directory.files == UndoDestination(old(directory.files), s, t)
      ensures ok == DestinationUndone(old(directory.files), s, t)
    {
      if s.backup.None? {
        ok := true;
        if s.published {
          ok := directory.TryRemove(s.destination, t);
        }
        return;
      }
      if s.published && s.destination !in t {
        RemoveThenRestore(directory.files, s.destination, s.backup.value, t);
        directory.Remove(s.destination);
      }
      ok := directory.Restore(s.destination, s.backup.value, t);
    }

    /** Goes on after a failure, and reports success exactly if nothing failed. */
    method Rollback(t: Troubles) returns (ok: bool)
      modifies this, directory`files
      ensures Value() == TransactionSpec.Rollback(old(Value()), t)
      ensures ok == RollbackWorks(old(Value()), t)
    {
      ok := RollbackArtifacts(t);
      ghost var before, done := directory.files, ok;
      for i := 0 to |destinations|
        invariant destinations == old(destinations) && artifacts == [] && published == old(published)
        invariant UndoDestinations(directory.files, destinations[i..], t) == UndoDestinations(before, destinations, t)
        invariant (ok && DestinationsUndone(directory.files, destinations[i..], t))
                  == (done && DestinationsUndone(before, destinations, t))
      {
        assert destinations[i..][1..] == destinations[i + 1..];
        var undone := UndoDestinationSlot(destinations[i], t);
        ok := ok && undone;
      }
      destinations := [];
      backupsAcquired := false;
    }

    /** rollbackTransaction, for a transaction that exists. */
    method RollbackTransaction(t: Troubles) returns (ok: bool)
      modifies this, directory`files
      ensures Value() == TransactionSpec.RollbackTransaction(old(Value()), t)
      ensures ok == if old(backupsAcquired) then RollbackWorks(old(Value()), t)
                    else ArtifactsUndone(old(directory.files), old(artifacts), t)
    {
      if backupsAcquired {
        ok := Rollback(t);
      } else {
        ok := RollbackArtifacts(t);
      }
    }

    method CommitDestinations(stuck: set<Path>) returns (ok: bool)
      modifies this`destinations, directory`files
      ensures destinations == Cleared(old(destinations), stuck)
      ensures directory.files == Dropped(old(directory.files), old(destinations), stuck)
      ensures ok == NoneStuck(old(destinations), stuck)
    {
      ok := true;
      for i := 0 to |destinations|
        invariant |destinations| == |old(destinations)|
        invariant forall j :: 0 <= j < i ==> destinations[j] == Cleared(old(destinations), stuck)[j]
        invariant destinations[i..] == old(destinations)[i..]
        invariant Dropped(directory.files, destinations[i..], stuck)
                  == Dropped(old(directory.files), old(destinations), stuck)
        invariant ok == NoneStuck(old(destinations)[..i], stuck)
      {
        assert destinations[i..][0] == destinations[i] && destinations[i..][1..] == destinations[i + 1..];
        assert old(destinations)[..i + 1] == old(destinations)[..i] + [destinations[i]];
        if destinations[i].backup.Some? {
          if destinations[i].backup.value in stuck {
            ok := false;
          } else {
            directory.Remove(destinations[i].backup.value);
            destinations := destinations[i := destinations[i].(backup := None)];
          }
        }
        assert destinations[i + 1..] == old(destinations)[i + 1..];
      }
      assert old(destinations)[..|destinations|] == old(destinations);
    }

    method CommitArtifacts(stuck: set<Path>) returns (ok: bool)
      modifies this`artifacts, directory`files
      ensures artifacts == Cleared(old(artifacts), stuck)
      ensures directory.files == Dropped(old(directory.files), old(artifacts), stuck)
      ensures ok == NoneStuck(old(artifacts), stuck)
    {
      ok := true;
      for i := 0 to |artifacts|
        invariant |artifacts| == |old(artifacts)|
        invariant forall j :: 0 <= j < i ==> artifacts[j] == Cleared(old(artifacts), stuck)[j]
        invariant artifacts[i..] == old(artifacts)[i..]
        invariant Dropped(directory.files, artifacts[i..], stuck)
                  == Dropped(old(directory.files), old(artifacts), stuck)
        invariant ok == NoneStuck(old(artifacts)[..i], stuck)
      {
        assert artifacts[i..][0] == artifacts[i] && artifacts[i..][1..] == artifacts[i + 1..];
        assert old(artifacts)[..i + 1] == old(artifacts)[..i] + [artifacts[i]];
        if artifacts[i].backup.Some? {
          if artifacts[i].backup.value in stuck {
            ok := false;
          } else {
            directory.Remove(artifacts[i].backup.value);
            artifacts := artifacts[i := artifacts[i].(backup := None)];
          }
        }
        assert artifacts[i + 1..] == old(artifacts)[i + 1..];
      }
      assert old(artifacts)[..|artifacts|] == old(artifacts);
    }

    /** `stuck`: the backups whose deletion fails; success means that none of them was held. */
    method Commit(stuck: set<Path>) returns (ok: bool)
      modifies this`destinations, this`artifacts, directory`files
      ensures Value() == TransactionSpec.Commit(old(Value()), stuck)
      ensures ok == (NoneStuck(old(destinations), stuck) && NoneStuck(old(artifacts), stuck))
    {
      var first := CommitDestinations(stuck);
      var second := CommitArtifacts(stuck);
      ok := first && second;
    }

    method Finalize()
      modifies this
      ensures Value() == TransactionSpec.Finalize(old(Value()))
    {
      artifacts, destinations, published, backupsAcquired := [], [], {}, false;
    }
  }
}
