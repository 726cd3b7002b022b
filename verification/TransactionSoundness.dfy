/** What rollback and commit of a media transaction guarantee, for every history of operations. */
module TransactionSoundness {
  import opened Common
  import opened TransactionSpec
  import opened TransactionInvariant

  /** A transaction that has just begun, in any directory. */
  ghost predicate Fresh(start: Ledger) {
    start == Begin(start.files, start.next) && (forall k :: k >= start.next ==> Backup(k) !in start.files)
  }

  ghost predicate AllAddressed(ops: seq<Op>) {
    forall op :: op in ops ==> Addressed(op)
  }

  /** Slot lists stay duplicate-free, with every backup present and held once, in every reachable transaction. */
  lemma {:induction false} AlwaysValid(start: Ledger, ops: seq<Op>)
    requires Fresh(start) && AllAddressed(ops)
    ensures Valid(Run(start, ops))
  {
    if ops != [] {
      AlwaysValid(start, ops[..|ops| - 1]);
      PerformKeeps(Run(start, ops[..|ops| - 1]), ops[|ops| - 1]);
    }
  }

  /** The slots of a path hold its past exactly while the path is not loose. */
  lemma {:induction false} AlwaysRemembers(start: Ledger, ops: seq<Op>, p: Path)
    requires Fresh(start) && AllAddressed(ops) && p.Named?
    ensures p !in Loose(start, ops) <==> Remembers(Run(start, ops), p, At(start.files, p))
  {
    if ops != [] {
      var before := ops[..|ops| - 1];
      AlwaysValid(start, before);
      AlwaysRemembers(start, before, p);
      PerformRemembers(start, Run(start, before), Loose(start, before), ops[|ops| - 1], p);
    }
  }

  lemma {:induction false} LeakedIsNew(start: Ledger, ops: seq<Op>, b: Path)
    requires b in Leaked(start, ops)
    ensures b !in start.files
  {
    if ops != [] {
      var before := ops[..|ops| - 1];
      if b in Leaked(start, before) {
        LeakedIsNew(start, before, b);
      }
    }
  }

  lemma {:induction false} AlwaysSettled(start: Ledger, ops: seq<Op>, b: Path)
    requires Fresh(start) && AllAddressed(ops) && b.Backup?
    ensures Settled(start, Run(start, ops), Leaked(start, ops), b)
  {
    if ops != [] {
      var before := ops[..|ops| - 1];
      AlwaysValid(start, before);
      AlwaysSettled(start, before, b);
      if b in Leaked(start, before) {
        LeakedIsNew(start, before, b);
      }
      PerformSettles(start, Run(start, before), Leaked(start, before), ops[|ops| - 1], b);
    }
  }

  // ---------------------------------------------------------------------
  // Rollback

  /**
   A slot that undoes nothing, over a path that happens to be what it was: the
   caller itself put the old content back.
   */
  predicate PutBack(l: Ledger, p: Path, was: Option<Entry>) {
    var i, j := Find(l.destinations, p), Find(l.artifacts, p);
    var left := if j < |l.artifacts| && l.artifacts[j].backup.Some? then At(l.files, l.artifacts[j].backup.value)
                else At(l.files, p);
    && left == was
    && if i < |l.destinations| then l.destinations[i].backup.None? && !l.destinations[i].published
       else j < |l.artifacts| && l.artifacts[j].backup.None? && l.artifacts[j].removed
  }

  lemma RestoredExactly(l: Ledger, p: Path, was: Option<Entry>)
    requires WellFormed(l) && was.Some?
    ensures RollbackAt(l, p) == was <==> Remembers(l, p, was) || PutBack(l, p, was)
  {
    var j := Find(l.artifacts, p);
    assert j < |l.artifacts| && Lists(l.destinations, p) ==> l.artifacts[j].removed;
  }

  /**
   After any history, rollback gives a path that existed before the transaction its
   original file back if and only if the path is not loose, or the caller put the
   old content back itself; failures to undo other paths make no difference.
   */
  lemma RollbackRestoresExactly(start: Ledger, ops: seq<Op>, t: Troubles, p: Path)
    requires Fresh(start) && AllAddressed(ops) && p.Named? && p in start.files && p !in t
    ensures At(Rollback(Run(start, ops), t).files, p) == Some(start.files[p]) <==>
            p !in Loose(start, ops) || PutBack(Run(start, ops), p, Some(start.files[p]))
  {
    AlwaysValid(start, ops);
    AlwaysRemembers(start, ops, p);
    RestoredExactly(Run(start, ops), p, At(start.files, p));
    RollbackIsPathwise(Run(start, ops), t, p);
  }

  /** Even where undoing fails, the original content is still on disk: at its path or in a backup. */
  lemma FailedRestoreLosesNothing(start: Ledger, ops: seq<Op>, t: Troubles, p: Path)
    requires Fresh(start) && AllAddressed(ops) && p.Named? && p in start.files && p !in Loose(start, ops)
    ensures
      var after := Rollback(Run(start, ops), t).files;
      At(after, p) == Some(start.files[p]) || exists k :: At(after, Backup(k)) == Some(start.files[p])
  {
    var l := Run(start, ops);
    AlwaysValid(start, ops);
    AlwaysRemembers(start, ops, p);
    if p !in t || !HasPath(l, p) {
      RestoredExactly(l, p, At(start.files, p));
      RollbackIsPathwise(l, t, p);
    } else {
      TroubledKeepsBackup(l, t, p, At(start.files, p));
    }
  }

  lemma TroubledKeepsBackup(l: Ledger, t: Troubles, p: Path, was: Option<Entry>)
    requires WellFormed(l) && HasPath(l, p) && p in t && was.Some? && Remembers(l, p, was)
    ensures exists k :: At(Rollback(l, t).files, Backup(k)) == was
  {
    var i, j := Find(l.destinations, p), Find(l.artifacts, p);
    var b := if i < |l.destinations| then l.destinations[i].backup.value else l.artifacts[j].backup.value;
    RollbackIsPathwise(l, t, b);
    assert At(Rollback(l, t).files, Backup(b.serial)) == was;
  }

  /** Something is left for a kept path to be: its own file, or the snapshot of it. */
  ghost predicate Leftover(l: Ledger, p: Path) {
    && Kept(l, p)
    && (p in l.files || var j := Find(l.artifacts, p); j < |l.artifacts| && l.artifacts[j].backup.Some?)
  }

  lemma CreatedExactly(l: Ledger, p: Path)
    requires WellFormed(l)
    ensures RollbackAt(l, p).Some? <==> !Remembers(l, p, None) || Leftover(l, p)
  {
    var i, j := Find(l.destinations, p), Find(l.artifacts, p);
    assert j < |l.artifacts| && i < |l.destinations| ==> l.artifacts[j].removed;
    assert i < |l.destinations| && l.destinations[i].backup.Some? ==> l.destinations[i].backup.value in l.files;
    assert j < |l.artifacts| && l.artifacts[j].backup.Some? ==> l.artifacts[j].backup.value in l.files;
  }

  /** A path created since the transaction began survives rollback if and only if it is loose or a leftover. */
  lemma RollbackRemovesCreated(start: Ledger, ops: seq<Op>, t: Troubles, p: Path)
    requires Fresh(start) && AllAddressed(ops) && p.Named? && p !in start.files && p !in t
    ensures p in Rollback(Run(start, ops), t).files <==> p in Loose(start, ops) || Leftover(Run(start, ops), p)
  {
    AlwaysValid(start, ops);
    AlwaysRemembers(start, ops, p);
    CreatedExactly(Run(start, ops), p);
    RollbackIsPathwise(Run(start, ops), t, p);
  }

  /** Without loose paths, leftovers, leaks and troubles, rollback restores the directory exactly, backups included. */
  lemma RollbackRestoresEverything(start: Ledger, ops: seq<Op>)
    requires Fresh(start) && AllAddressed(ops) && Loose(start, ops) == {} && Leaked(start, ops) == {}
    requires forall p: Path :: p.Named? && p !in start.files ==> !Leftover(Run(start, ops), p)
    ensures Rollback(Run(start, ops), NoTrouble).files == start.files
  {
    var l := Run(start, ops);
    var after := Rollback(l, NoTrouble).files;
    forall p: Path ensures At(after, p) == At(start.files, p) {
      if p.Backup? {
        BackupReturns(start, ops, p);
      } else if p in start.files {
        RollbackRestoresExactly(start, ops, NoTrouble, p);
      } else {
        RollbackRemovesCreated(start, ops, NoTrouble, p);
      }
    }
    assert forall p :: p in after <==> At(after, p).Some?;
    assert forall p :: p in start.files <==> At(start.files, p).Some?;
    assert forall p :: p in after ==> At(after, p) == Some(after[p]);
  }

  /**
   What a caller can keep to: nothing is written or deleted before the transaction
   knows it, nothing that existed is only tracked, and no acquisition failed.
   */
  predicate Careful(start: Ledger, l: Ledger, op: Op) {
    match op
    case Write(p, _) => HasPath(l, p)
    case Delete(p) => HasPath(l, p)
    case DoTrack(ps) => forall p :: p in ps ==> HasPath(l, p) || p !in start.files
    case DoAcquire(ps, overwrite, faults, _) => Acquirable(l, ps, overwrite, faults)
    case _ => true
  }

  /** Every destination that is new to the transaction can be backed up, or is absent. */
  predicate Acquirable(l: Ledger, ps: seq<Path>, overwrite: bool, faults: set<Path>) {
    forall p :: p in ps && p != StandardOutput && !HasPath(l, p) ==>
      && p !in faults
      && (p in l.files ==> l.files[p].Regular? && overwrite)
  }

  predicate AlwaysCareful(start: Ledger, ops: seq<Op>) {
    ops == [] ||
    (AlwaysCareful(start, ops[..|ops| - 1]) && Careful(start, Run(start, ops[..|ops| - 1]), ops[|ops| - 1]))
  }

  /** An acquisition whose destinations can all be backed up does not fail. */
  lemma {:induction false} AcquirableSucceeds(l: Ledger, ps: seq<Path>, overwrite: bool, faults: set<Path>, t: Troubles)
    requires Acquirable(l, ps, overwrite, faults)
    requires forall p :: p in ps ==> p.Named?
    ensures Acquire(l, ps, overwrite, faults, t).1.None?
    decreases |ps|
  {
    if ps != [] {
      if ps[0] == StandardOutput || HasPath(l, ps[0]) {
        AcquirableSucceeds(l, ps[1..], overwrite, faults, t);
      } else {
        assert ps[0] in ps;
        var (m, b) := BackUp(l, ps[0], false, overwrite, ps[0] in faults).value;
        var s := Slot(ps[0], b, false, false);
        forall p ensures HasPath(m.(destinations := m.destinations + [s]), p) <==> HasPath(l, p) || p == ps[0] {
          FindAppended(l.destinations, s, p);
        }
        AcquirableSucceeds(m.(destinations := m.destinations + [s]), ps[1..], overwrite, faults, t);
      }
    }
  }

  /** A careful caller never has a loose path or a leaked backup. */
  lemma {:induction false} CarefulHasNothingLoose(start: Ledger, ops: seq<Op>)
    requires AllAddressed(ops) && AlwaysCareful(start, ops)
    ensures Loose(start, ops) == {} && Leaked(start, ops) == {}
  {
    if ops != [] {
      var before, op := ops[..|ops| - 1], ops[|ops| - 1];
      CarefulHasNothingLoose(start, before);
      assert op in ops;
      if op.DoAcquire? {
        AcquirableSucceeds(Run(start, before), op.paths, op.overwrite, op.faults, op.troubles);
      }
    }
  }

  /** For a careful caller, rollback restores the directory exactly, up to the paths it chose to keep. */
  lemma CarefulRollbackRestoresEverything(start: Ledger, ops: seq<Op>)
    requires Fresh(start) && AllAddressed(ops) && AlwaysCareful(start, ops)
    requires forall p: Path :: p.Named? && p !in start.files ==> !Leftover(Run(start, ops), p)
    ensures Rollback(Run(start, ops), NoTrouble).files == start.files
  {
    CarefulHasNothingLoose(start, ops);
    RollbackRestoresEverything(start, ops);
  }

  lemma BackupReturns(start: Ledger, ops: seq<Op>, b: Path)
    requires Fresh(start) && AllAddressed(ops) && b.Backup? && b !in Leaked(start, ops)
    ensures At(Rollback(Run(start, ops), NoTrouble).files, b) == At(start.files, b)
  {
    AlwaysValid(start, ops);
    AlwaysSettled(start, ops, b);
    RollbackIsPathwise(Run(start, ops), NoTrouble, b);
  }

  /** Rollback reports success exactly if no slot it had to undo was in trouble. */
  lemma RollbackReportsExactly(start: Ledger, ops: seq<Op>, t: Troubles)
    requires Fresh(start) && AllAddressed(ops)
    ensures
      var l := Run(start, ops);
      RollbackWorks(l, t) <==>
      && (forall i :: 0 <= i < |l.artifacts| ==> !ArtifactFails(l.artifacts[i], t))
      && (forall i :: 0 <= i < |l.destinations| ==> !DestinationFails(l.destinations[i], t))
  {
    var l := Run(start, ops);
    AlwaysValid(start, ops);
    ArtifactsUndoneExactly(l.files, l.next, l.artifacts, t);
    ArtifactsLeaveSound(l, t);
    DestinationsUndoneExactly(UndoArtifacts(l.files, l.artifacts, t), l.next, l.destinations, t);
  }

  // ---------------------------------------------------------------------
  // Commit

  lemma {:induction false} DroppedAt(files: Files, slots: seq<Slot>, stuck: set<Path>, p: Path)
    ensures At(Dropped(files, slots, stuck), p) == if Holds(slots, p) && p !in stuck then None else At(files, p)
    decreases |slots|
  {
    if slots != [] {
      var b, rest := slots[0].backup, slots[1..];
      DroppedAt(if b.Some? && b.value !in stuck then files - {b.value} else files, rest, stuck, p);
      assert Holds(slots, p) <==> b == Some(p) || Holds(rest, p) by {
        if Holds(slots, p) && b != Some(p) {
          var i :| 0 <= i < |slots| && slots[i].backup == Some(p);
          assert rest[i - 1].backup == Some(p);
        }
        if Holds(rest, p) {
          var i :| 0 <= i < |rest| && rest[i].backup == Some(p);
          assert slots[i + 1].backup == Some(p);
        }
      }
    }
  }

  /**
   Commit leaves every output as written and deletes exactly the backups this
   transaction holds, but for those that cannot be deleted.
   */
  lemma CommitDropsExactlyTheBackups(start: Ledger, ops: seq<Op>, stuck: set<Path>, p: Path)
    requires Fresh(start) && AllAddressed(ops)
    ensures
      var l := Run(start, ops);
      At(Commit(l, stuck).files, p)
      == if p.Named? || p in stuck || p in Leaked(start, ops) then At(l.files, p) else At(start.files, p)
  {
    var l := Run(start, ops);
    AlwaysValid(start, ops);
    DroppedAt(l.files, l.destinations, stuck, p);
    DroppedAt(Dropped(l.files, l.destinations, stuck), l.artifacts, stuck, p);
    if p.Backup? {
      AlwaysSettled(start, ops, p);
    }
  }

  lemma ClearedHolds(slots: seq<Slot>, stuck: set<Path>, b: Path)
    ensures Holds(Cleared(slots, stuck), b) <==> Holds(slots, b) && b in stuck
  {
    var cleared := Cleared(slots, stuck);
    if i :| 0 <= i < |slots| && slots[i].backup == Some(b) {
      assert b in stuck ==> cleared[i].backup == Some(b);
    }
    if i :| 0 <= i < |cleared| && cleared[i].backup == Some(b) {
      assert slots[i].backup == Some(b);
    }
  }

  /** A second commit finishes what the first could not delete. */
  lemma CommitAgainFinishes(l: Ledger, stuck: set<Path>)
    ensures Commit(Commit(l, stuck), {}) == Commit(l, {})
  {
    var once, twice, clean := Commit(l, stuck), Commit(Commit(l, stuck), {}), Commit(l, {});
    forall p: Path ensures At(twice.files, p) == At(clean.files, p) {
      DroppedAt(l.files, l.destinations, stuck, p);
      DroppedAt(Dropped(l.files, l.destinations, stuck), l.artifacts, stuck, p);
      DroppedAt(once.files, once.destinations, {}, p);
      DroppedAt(Dropped(once.files, once.destinations, {}), once.artifacts, {}, p);
      DroppedAt(l.files, l.destinations, {}, p);
      DroppedAt(Dropped(l.files, l.destinations, {}), l.artifacts, {}, p);
      ClearedHolds(l.destinations, stuck, p);
      ClearedHolds(l.artifacts, stuck, p);
    }
    assert forall p :: p in twice.files <==> At(twice.files, p).Some?;
    assert forall p :: p in clean.files <==> At(clean.files, p).Some?;
    assert forall p :: p in twice.files ==> At(twice.files, p) == Some(twice.files[p]);
    assert twice.files == clean.files;
  }

  /** Rolling back again changes nothing, and the caller's choice of rollback makes no difference. */
  lemma RollbackIsFinal(start: Ledger, ops: seq<Op>, t: Troubles, u: Troubles)
    requires Fresh(start) && AllAddressed(ops)
    ensures
      var l := Run(start, ops);
      && RollbackTransaction(l, t) == Rollback(l, t)
      && Rollback(Rollback(l, t), u) == Rollback(l, t)
      && Rollback(Finalize(Commit(l, {})), u) == Finalize(Commit(l, {}))
  {
    AlwaysValid(start, ops);
  }

  /** An existing file that is only tracked is deleted by rollback, unless it is snapshotted while it is as it was. */
  lemma TrackedOnlyIsDeleted(start: Ledger, p: Path)
    requires Fresh(start) && p.Named? && p != StandardOutput && p in start.files && start.files[p].Regular?
    ensures p !in Rollback(Run(start, [DoTrack([p])]), NoTrouble).files
    ensures p !in Loose(start, [DoTrack([p]), DoSnapshot(p, false)])
  {
    var ops := [DoTrack([p]), DoSnapshot(p, false)];
    assert ops[..1] == [DoTrack([p])] && [DoTrack([p])][..0] == [];
    var s := Slot(p, None, false, false);
    var tracked := start.(artifacts := [s]);
    assert Track(start, [p]) == tracked by {
      assert start.artifacts + [s] == [s];
      assert [p][1..] == [] && Track(tracked, []) == tracked;
    }
    assert Run(start, [DoTrack([p])]) == tracked;
    RollbackIsPathwise(tracked, NoTrouble, p);
    assert Find(tracked.artifacts, p) == 0 && Find(tracked.destinations, p) == 0;
    assert Redeems(start, tracked, p, false);
  }
}
