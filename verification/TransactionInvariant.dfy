/**
 What every operation of a media transaction keeps: well-formed slot lists, what the
 slots of a path still know about its past, and who holds each backup.
 */
module TransactionInvariant {
  import opened Common
  import opened TransactionSpec

  // ---------------------------------------------------------------------
  // Well-formed slot lists

  /** The backups a slot list holds, all different, each a regular file under its own backup name. */
  ghost predicate Sound(files: Files, next: nat, slots: seq<Slot>) {
    && (forall i :: 0 <= i < |slots| ==> slots[i].destination.Named?)
    && (forall i, j :: 0 <= i < j < |slots| ==> slots[i].destination != slots[j].destination)
    && (forall i :: 0 <= i < |slots| && slots[i].backup.Some? ==>
          && slots[i].backup.value.Backup?
          && slots[i].backup.value.serial < next
          && slots[i].backup.value in files)
    && (forall i, j :: 0 <= i < j < |slots| && slots[i].backup.Some? && slots[j].backup.Some? ==>
          slots[i].backup != slots[j].backup)
  }

  ghost predicate Disjoint(slots: seq<Slot>, others: seq<Slot>) {
    forall i, j :: 0 <= i < |slots| && 0 <= j < |others| && slots[i].backup.Some? && others[j].backup.Some? ==>
      slots[i].backup != others[j].backup
  }

  /** Some slot of the list holds this backup. */
  ghost predicate Holds(slots: seq<Slot>, b: Path) {
    exists i :: 0 <= i < |slots| && slots[i].backup == Some(b)
  }

  /** Some slot of the list holds this backup and its undoing goes well. */
  ghost predicate Consumes(slots: seq<Slot>, t: Troubles, b: Path) {
    exists i :: 0 <= i < |slots| && slots[i].backup == Some(b) && slots[i].destination !in t
  }

  ghost predicate WellFormed(l: Ledger) {
    && Sound(l.files, l.next, l.destinations)
    && Sound(l.files, l.next, l.artifacts)
    && Disjoint(l.artifacts, l.destinations)
    && (forall k :: k >= l.next ==> Backup(k) !in l.files)
    && (forall i :: 0 <= i < |l.artifacts| && Lists(l.destinations, l.artifacts[i].destination) ==>
          l.artifacts[i].removed)
  }

  /** Destination slots exist only once an acquisition has succeeded. */
  ghost predicate Valid(l: Ledger) {
    WellFormed(l) && (l.destinations != [] ==> l.acquired)
  }

  // ---------------------------------------------------------------------
  // Undoing a list, one path at a time

  /** What an artifact slot leaves at its own path. */
  function ArtifactResult(files: Files, s: Slot): Option<Entry> {
    if s.backup.Some? then At(files, s.backup.value)
    else if s.removed then At(files, s.destination)
    else None
  }

  function DestinationResult(files: Files, s: Slot): Option<Entry> {
    if s.backup.Some? then At(files, s.backup.value)
    else if s.published then None
    else At(files, s.destination)
  }

  lemma ConsumesTail(slots: seq<Slot>, t: Troubles, b: Path)
    requires slots != []
    ensures Consumes(slots, t, b) <==>
            (slots[0].backup == Some(b) && slots[0].destination !in t) || Consumes(slots[1..], t, b)
  {
    var rest := slots[1..];
    if i :| 0 <= i < |slots| && slots[i].backup == Some(b) && slots[i].destination !in t {
      assert i > 0 ==> rest[i - 1] == slots[i];
    }
    if i :| 0 <= i < |rest| && rest[i].backup == Some(b) && rest[i].destination !in t {
      assert slots[i + 1] == rest[i];
    }
  }

  lemma {:induction false} UndoArtifactsAt(files: Files, next: nat, slots: seq<Slot>, t: Troubles, p: Path)
    requires Sound(files, next, slots)
    ensures
      var r := UndoArtifacts(files, slots, t);
      && (p.Backup? ==> At(r, p) == if Consumes(slots, t, p) then None else At(files, p))
      && (p.Named? && (p !in t || !Lists(slots, p)) ==>
            At(r, p) == var i := Find(slots, p); if i < |slots| then ArtifactResult(files, slots[i]) else At(files, p))
    decreases |slots|
  {
    if slots != [] {
      var s, rest := slots[0], slots[1..];
      var mid := UndoArtifact(files, s, t);
      assert Sound(mid, next, rest);
      UndoArtifactsAt(mid, next, rest, t, p);
      if p.Backup? {
        ConsumesTail(slots, t, p);
      }
    }
  }

  lemma {:induction false} UndoDestinationsAt(files: Files, next: nat, slots: seq<Slot>, t: Troubles, p: Path)
    requires Sound(files, next, slots)
    ensures
      var r := UndoDestinations(files, slots, t);
      && (p.Backup? ==> At(r, p) == if Consumes(slots, t, p) then None else At(files, p))
      && (p.Named? && (p !in t || !Lists(slots, p)) ==>
            At(r, p) == var i := Find(slots, p);
                        if i < |slots| then DestinationResult(files, slots[i]) else At(files, p))
    decreases |slots|
  {
    if slots != [] {
      var s, rest := slots[0], slots[1..];
      var mid := UndoDestination(files, s, t);
      assert Sound(mid, next, rest);
      UndoDestinationsAt(mid, next, rest, t, p);
      if p.Backup? {
        ConsumesTail(slots, t, p);
      }
    }
  }

  /** What rollback leaves at a path, read off its slots: the artifact slot acts first, then the destination slot. */
  function RollbackAt(l: Ledger, p: Path): Option<Entry> {
    var i, j := Find(l.destinations, p), Find(l.artifacts, p);
    var afterArtifacts := if j < |l.artifacts| then ArtifactResult(l.files, l.artifacts[j]) else At(l.files, p);
    if i == |l.destinations| then afterArtifacts
    else if l.destinations[i].backup.Some? then At(l.files, l.destinations[i].backup.value)
    else if l.destinations[i].published then None
    else afterArtifacts
  }

  /**
   The two loops of rollback, over lists of any length, do to each path exactly
   what its own slots say, whatever goes wrong with other paths; a path in
   trouble keeps its backups.
   */
  lemma RollbackIsPathwise(l: Ledger, t: Troubles, p: Path)
    requires WellFormed(l)
    ensures p.Named? && (p !in t || !HasPath(l, p)) ==> At(Rollback(l, t).files, p) == RollbackAt(l, p)
    ensures p.Backup? ==>
              At(Rollback(l, t).files, p)
              == if Consumes(l.artifacts, t, p) || Consumes(l.destinations, t, p) then None else At(l.files, p)
  {
    var mid := UndoArtifacts(l.files, l.artifacts, t);
    UndoArtifactsAt(l.files, l.next, l.artifacts, t, p);
    forall i | 0 <= i < |l.destinations| && l.destinations[i].backup.Some?
      ensures
        var b := l.destinations[i].backup.value;
        b in mid && At(mid, b) == At(l.files, b)
    {
      UndoArtifactsAt(l.files, l.next, l.artifacts, t, l.destinations[i].backup.value);
    }
    UndoDestinationsAt(mid, l.next, l.destinations, t, p);
  }

  // ---------------------------------------------------------------------
  // Every operation keeps the lists well formed

  /** A backup that exists and that no slot holds yet, or none. */
  ghost predicate Unheld(l: Ledger, b: Option<Path>) {
    b.Some? ==>
      && b.value.Backup?
      && b.value.serial < l.next
      && b.value in l.files
      && !Holds(l.artifacts, b.value)
      && !Holds(l.destinations, b.value)
  }

  lemma AddArtifactKeeps(l: Ledger, s: Slot)
    requires WellFormed(l) && Unheld(l, s.backup)
    requires s.destination.Named? && !Lists(l.artifacts, s.destination)
    requires Lists(l.destinations, s.destination) ==> s.removed
    ensures WellFormed(l.(artifacts := l.artifacts + [s]))
  {
  }

  lemma ReviseArtifactKeeps(l: Ledger, i: nat, b: Option<Path>)
    requires WellFormed(l) && i < |l.artifacts| && (b == l.artifacts[i].backup || Unheld(l, b))
    ensures WellFormed(l.(artifacts := l.artifacts[i := l.artifacts[i].(backup := b, removed := true)]))
  {
  }

  lemma AddDestinationKeeps(l: Ledger, p: Path, b: Option<Path>)
    requires WellFormed(l) && Unheld(l, b) && p.Named? && !HasPath(l, p)
    ensures WellFormed(l.(destinations := l.destinations + [Slot(p, b, false, false)]))
  {
    var grown := l.destinations + [Slot(p, b, false, false)];
    forall i | 0 <= i < |l.artifacts| && Lists(grown, l.artifacts[i].destination)
      ensures Lists(l.destinations, l.artifacts[i].destination)
    {
      assert grown[Find(grown, l.artifacts[i].destination)].destination == l.artifacts[i].destination;
    }
  }

  lemma PublishKeeps(l: Ledger, p: Path)
    requires WellFormed(l)
    ensures WellFormed(MarkPublished(l, p))
  {
    var m := MarkPublished(l, p);
    forall i | 0 <= i < |l.artifacts| && Lists(m.destinations, l.artifacts[i].destination)
      ensures Lists(l.destinations, l.artifacts[i].destination)
    {
      assert l.destinations[Find(m.destinations, l.artifacts[i].destination)].destination == l.artifacts[i].destination;
    }
  }

  lemma BackUpKeeps(l: Ledger, p: Path, copy: bool, overwrite: bool, fails: bool)
    requires WellFormed(l) && p.Named? && BackUp(l, p, copy, overwrite, fails).Ok?
    ensures
      var (m, b) := BackUp(l, p, copy, overwrite, fails).value;
      && WellFormed(m)
      && m == l.(files := m.files, next := m.next)
      && (b.Some? ==> b.value == Backup(l.next) && m.next == l.next + 1 && At(m.files, b.value) == At(l.files, p))
      && (b.None? ==> m == l && p !in l.files)
      && Unheld(m, b)
      && (forall q: Path :: q.Named? && (q != p || copy) ==> At(m.files, q) == At(l.files, q))
      && (forall k: nat :: k < l.next ==> At(m.files, Backup(k)) == At(l.files, Backup(k)))
  {
  }

  lemma ProtectKeeps(l: Ledger, p: Path, copy: bool, overwrite: bool, fails: bool)
    requires WellFormed(l) && p.Named?
    ensures WellFormed(Protect(l, p, copy, overwrite, fails).0)
  {
    if p != StandardOutput && !HasPath(l, p) && BackUp(l, p, copy, overwrite, fails).Ok? {
      BackUpKeeps(l, p, copy, overwrite, fails);
      var (m, b) := BackUp(l, p, copy, overwrite, fails).value;
      AddArtifactKeeps(m, Slot(p, b, false, false));
    }
  }

  lemma SnapshotKeeps(l: Ledger, p: Path, fails: bool)
    requires WellFormed(l) && p.Named?
    ensures WellFormed(Snapshot(l, p, fails).0)
  {
    var i := Find(l.artifacts, p);
    if i < |l.artifacts| && l.artifacts[i].backup.Some? {
      ReviseArtifactKeeps(l, i, l.artifacts[i].backup);
    } else if BackUp(l, p, true, true, fails).Ok? {
      BackUpKeeps(l, p, true, true, fails);
      var (m, b) := BackUp(l, p, true, true, fails).value;
      if i < |l.artifacts| {
        ReviseArtifactKeeps(m, i, b);
      } else {
        AddArtifactKeeps(m, Slot(p, b, false, true));
      }
    }
  }

  lemma RollbackKeeps(l: Ledger, t: Troubles)
    requires WellFormed(l)
    ensures WellFormed(Rollback(l, t))
  {
    forall k: nat | k >= l.next ensures Backup(k) !in Rollback(l, t).files {
      RollbackIsPathwise(l, t, Backup(k));
    }
  }

  lemma {:induction false} AcquireKeeps(l: Ledger, ps: seq<Path>, overwrite: bool, faults: set<Path>, t: Troubles)
    requires WellFormed(l)
    requires forall p :: p in ps ==> p.Named?
    ensures Valid(Acquire(l, ps, overwrite, faults, t).0)
    decreases |ps|
  {
    if ps != [] {
      if ps[0] == StandardOutput || HasPath(l, ps[0]) {
        AcquireKeeps(l, ps[1..], overwrite, faults, t);
      } else if BackUp(l, ps[0], false, overwrite, ps[0] in faults).Ok? {
        BackUpKeeps(l, ps[0], false, overwrite, ps[0] in faults);
        var (m, b) := BackUp(l, ps[0], false, overwrite, ps[0] in faults).value;
        AddDestinationKeeps(m, ps[0], b);
        AcquireKeeps(m.(destinations := m.destinations + [Slot(ps[0], b, false, false)]), ps[1..],
                     overwrite, faults, t);
      } else {
        RollbackKeeps(l, t);
      }
    }
  }

  lemma {:induction false} TrackKeeps(l: Ledger, ps: seq<Path>)
    requires Valid(l)
    requires forall p :: p in ps ==> p.Named?
    ensures Valid(Track(l, ps))
    decreases |ps|
  {
    if ps != [] {
      if HasPath(l, ps[0]) {
        TrackKeeps(l, ps[1..]);
      } else {
        AddArtifactKeeps(l, Slot(ps[0], None, false, false));
        TrackKeeps(l.(artifacts := l.artifacts + [Slot(ps[0], None, false, false)]), ps[1..]);
      }
    }
  }

  lemma PerformKeeps(l: Ledger, op: Op)
    requires Valid(l) && Addressed(op)
    ensures Valid(Perform(l, op))
  {
    match op
    case DoProtect(p, copy, overwrite, fails) => ProtectKeeps(l, p, copy, overwrite, fails);
    case DoSnapshot(p, fails) => SnapshotKeeps(l, p, fails);
    case DoAcquire(ps, overwrite, faults, t) => AcquireKeeps(l, ps, overwrite, faults, t);
    case DoPublish(p) => PublishKeeps(l, p);
    case DoTrack(ps) => TrackKeeps(l, ps);
    case _ => WriteKeeps(l, op);
  }

  lemma WriteKeeps(l: Ledger, op: Op)
    requires Valid(l) && Addressed(op) && (op.Write? || op.Delete?)
    ensures Valid(Perform(l, op))
  {
  }

  // ---------------------------------------------------------------------
  // What the transaction still knows about the past of a path

  /** An artifact slot that saves what its path was. */
  predicate Saves(files: Files, s: Slot, was: Option<Entry>) {
    && (was.Some? ==> s.backup.Some? && At(files, s.backup.value) == was)
    && (was.None? && !s.removed ==> s.backup.None?)
  }

  /** A destination slot's backup that is what its path was. */
  predicate SavedAs(files: Files, b: Option<Path>, was: Option<Entry>) {
    if b.Some? then was.Some? && At(files, b.value) == was else was.None?
  }

  /**
   The slots of a path hold what it was before the transaction: a destination
   slot always, an artifact slot for every file that existed; a path without a
   slot is still as it was.
   */
  ghost predicate Remembers(l: Ledger, p: Path, was: Option<Entry>) {
    var i, j := Find(l.destinations, p), Find(l.artifacts, p);
    if i < |l.destinations| then SavedAs(l.files, l.destinations[i].backup, was)
    else if j < |l.artifacts| then Saves(l.files, l.artifacts[j], was)
    else At(l.files, p) == was
  }

  lemma FindAppended(slots: seq<Slot>, s: Slot, q: Path)
    ensures Find(slots + [s], q) ==
            if Lists(slots, q) then Find(slots, q) else if s.destination == q then |slots| else |slots| + 1
  {
    var grown := slots + [s];
    assert forall k :: 0 <= k < |slots| ==> grown[k] == slots[k];
    assert grown[|slots|] == s;
  }

  lemma BackUpRemembers(l: Ledger, p: Path, copy: bool, overwrite: bool, fails: bool, q: Path, was: Option<Entry>)
    requires WellFormed(l) && p.Named? && q.Named? && BackUp(l, p, copy, overwrite, fails).Ok?
    requires q != p || copy || HasPath(l, q)
    ensures Remembers(BackUp(l, p, copy, overwrite, fails).value.0, q, was) <==> Remembers(l, q, was)
  {
    BackUpKeeps(l, p, copy, overwrite, fails);
  }

  lemma AddArtifactRemembers(l: Ledger, s: Slot, q: Path, was: Option<Entry>)
    requires !Lists(l.artifacts, s.destination)
    ensures Remembers(l.(artifacts := l.artifacts + [s]), q, was) <==>
            if q == s.destination && !HasPath(l, q) then Saves(l.files, s, was) else Remembers(l, q, was)
  {
    FindAppended(l.artifacts, s, q);
  }

  lemma ReviseArtifactRemembers(l: Ledger, i: nat, s: Slot, q: Path, was: Option<Entry>)
    requires WellFormed(l) && i < |l.artifacts| && s.destination == l.artifacts[i].destination
    ensures Remembers(l.(artifacts := l.artifacts[i := s]), q, was) <==>
            if q == s.destination && !Lists(l.destinations, q) then Saves(l.files, s, was) else Remembers(l, q, was)
  {
    var revised := l.artifacts[i := s];
    assert Find(revised, q) == Find(l.artifacts, q) by {
      assert forall k :: 0 <= k < |revised| ==> revised[k].destination == l.artifacts[k].destination;
    }
  }

  lemma AddDestinationRemembers(l: Ledger, p: Path, b: Option<Path>, q: Path, was: Option<Entry>)
    requires !HasPath(l, p)
    ensures Remembers(l.(destinations := l.destinations + [Slot(p, b, false, false)]), q, was) <==>
            if q == p then SavedAs(l.files, b, was) else Remembers(l, q, was)
  {
    FindAppended(l.destinations, Slot(p, b, false, false), q);
  }

  lemma ProtectRemembers(l: Ledger, p: Path, copy: bool, overwrite: bool, fails: bool, q: Path, was: Option<Entry>)
    requires WellFormed(l) && p.Named? && q.Named?
    ensures Remembers(Protect(l, p, copy, overwrite, fails).0, q, was) <==> Remembers(l, q, was)
  {
    if p != StandardOutput && !HasPath(l, p) && BackUp(l, p, copy, overwrite, fails).Ok? {
      BackUpKeeps(l, p, copy, overwrite, fails);
      var (m, b) := BackUp(l, p, copy, overwrite, fails).value;
      if q != p {
        BackUpRemembers(l, p, copy, overwrite, fails, q, was);
      }
      AddArtifactRemembers(m, Slot(p, b, false, false), q, was);
    }
  }

  /** The copy a snapshot takes is what the path now is. */
  lemma CopyRemembers(l: Ledger, p: Path, fails: bool, q: Path, was: Option<Entry>)
    requires WellFormed(l) && p.Named? && q.Named? && BackUp(l, p, true, true, fails).Ok?
    ensures
      var (m, b) := BackUp(l, p, true, true, fails).value;
      && WellFormed(m) && m.artifacts == l.artifacts && m.destinations == l.destinations
      && (Remembers(m, q, was) <==> Remembers(l, q, was))
      && (b.Some? ==> At(m.files, b.value) == At(l.files, p))
      && (b.None? ==> At(l.files, p) == None)
  {
    BackUpKeeps(l, p, true, true, fails);
    BackUpRemembers(l, p, true, true, fails, q, was);
  }

  lemma SnapshotOther(l: Ledger, p: Path, fails: bool, q: Path, was: Option<Entry>)
    requires WellFormed(l) && p.Named? && q.Named? && (q != p || Lists(l.destinations, q))
    ensures Remembers(Snapshot(l, p, fails).0, q, was) <==> Remembers(l, q, was)
  {
    var i := Find(l.artifacts, p);
    if i < |l.artifacts| && l.artifacts[i].backup.Some? {
      ReviseArtifactRemembers(l, i, l.artifacts[i].(removed := true), q, was);
    } else if BackUp(l, p, true, true, fails).Ok? {
      CopyRemembers(l, p, fails, q, was);
      var (m, b) := BackUp(l, p, true, true, fails).value;
      if i < |l.artifacts| {
        ReviseArtifactRemembers(m, i, m.artifacts[i].(backup := b, removed := true), q, was);
      } else {
        AddArtifactRemembers(m, Slot(p, b, false, true), q, was);
      }
    }
  }

  /** A snapshot of its own path is remembered if it was, or if it is redeemed now. */
  lemma SnapshotOwn(start: Ledger, l: Ledger, p: Path, fails: bool)
    requires WellFormed(l) && p.Named? && !Lists(l.destinations, p)
    ensures
      var was := At(start.files, p);
      Remembers(Snapshot(l, p, fails).0, p, was) <==> Remembers(l, p, was) || Redeems(start, l, p, fails)
  {
    var was, i := At(start.files, p), Find(l.artifacts, p);
    if i < |l.artifacts| && l.artifacts[i].backup.Some? {
      ReviseArtifactRemembers(l, i, l.artifacts[i].(removed := true), p, was);
    } else if BackUp(l, p, true, true, fails).Ok? {
      CopyRemembers(l, p, fails, p, was);
      var (m, b) := BackUp(l, p, true, true, fails).value;
      if i < |l.artifacts| {
        ReviseArtifactRemembers(m, i, m.artifacts[i].(backup := b, removed := true), p, was);
      } else {
        AddArtifactRemembers(m, Slot(p, b, false, true), p, was);
      }
    }
  }

  lemma AddingDestinationRemembers(l: Ledger, p: Path, overwrite: bool, fails: bool, q: Path, was: Option<Entry>)
    requires WellFormed(l) && p.Named? && q.Named? && !HasPath(l, p) && BackUp(l, p, false, overwrite, fails).Ok?
    ensures
      var (m, b) := BackUp(l, p, false, overwrite, fails).value;
      var n := m.(destinations := m.destinations + [Slot(p, b, false, false)]);
      WellFormed(n) && (Remembers(n, q, was) <==> Remembers(l, q, was))
  {
    BackUpKeeps(l, p, false, overwrite, fails);
    var (m, b) := BackUp(l, p, false, overwrite, fails).value;
    AddDestinationKeeps(m, p, b);
    if q != p {
      BackUpRemembers(l, p, false, overwrite, fails, q, was);
    }
    AddDestinationRemembers(m, p, b, q, was);
  }

  lemma {:induction false} AcquireRemembers(l: Ledger, ps: seq<Path>, overwrite: bool, faults: set<Path>, t: Troubles,
                                            q: Path, was: Option<Entry>)
    requires WellFormed(l) && q.Named?
    requires forall p :: p in ps ==> p.Named?
    ensures
      var (m, error) := Acquire(l, ps, overwrite, faults, t);
      if error.None? then Remembers(m, q, was) <==> Remembers(l, q, was)
      else Remembers(m, q, was) <==> At(m.files, q) == was
    decreases |ps|
  {
    if ps != [] {
      if ps[0] == StandardOutput || HasPath(l, ps[0]) {
        AcquireRemembers(l, ps[1..], overwrite, faults, t, q, was);
      } else if BackUp(l, ps[0], false, overwrite, ps[0] in faults).Ok? {
        AddingDestinationRemembers(l, ps[0], overwrite, ps[0] in faults, q, was);
        var (m, b) := BackUp(l, ps[0], false, overwrite, ps[0] in faults).value;
        AcquireRemembers(m.(destinations := m.destinations + [Slot(ps[0], b, false, false)]),
                         ps[1..], overwrite, faults, t, q, was);
      }
    }
  }

  lemma {:induction false} TrackRemembers(l: Ledger, ps: seq<Path>, q: Path, was: Option<Entry>)
    requires q.Named?
    ensures Remembers(Track(l, ps), q, was) <==>
            if q in ps && !HasPath(l, q) then was.None? else Remembers(l, q, was)
    decreases |ps|
  {
    if ps != [] {
      if HasPath(l, ps[0]) {
        TrackRemembers(l, ps[1..], q, was);
      } else {
        var s := Slot(ps[0], None, false, false);
        AddArtifactRemembers(l, s, q, was);
        FindAppended(l.artifacts, s, q);
        TrackRemembers(l.(artifacts := l.artifacts + [s]), ps[1..], q, was);
      }
    }
  }

  lemma PublishRemembers(l: Ledger, p: Path, q: Path, was: Option<Entry>)
    ensures Remembers(MarkPublished(l, p), q, was) <==> Remembers(l, q, was)
  {
    var m := MarkPublished(l, p);
    assert Find(m.destinations, q) == Find(l.destinations, q) by {
      assert forall k :: 0 <= k < |l.destinations| ==> m.destinations[k].destination == l.destinations[k].destination;
    }
  }

  lemma WriteRemembers(l: Ledger, op: Op, q: Path, was: Option<Entry>)
    requires WellFormed(l) && (op.Write? || op.Delete?) && op.path.Named? && q.Named?
    ensures Remembers(Perform(l, op), q, was) <==>
            if q == op.path && !HasPath(l, q) then At(Perform(l, op).files, q) == was else Remembers(l, q, was)
  {
  }

  /** The transaction remembers a path exactly while it is not loose. */
  lemma PerformRemembers(start: Ledger, l: Ledger, loose: set<Path>, op: Op, q: Path)
    requires WellFormed(l) && Addressed(op) && q.Named?
    requires q !in loose <==> Remembers(l, q, At(start.files, q))
    ensures q !in LooseAfter(start, l, loose, op) <==> Remembers(Perform(l, op), q, At(start.files, q))
  {
    var was := At(start.files, q);
    match op {
      case DoProtect(p, copy, overwrite, fails) => ProtectRemembers(l, p, copy, overwrite, fails, q, was); return;
      case DoSnapshot(p, fails) =>
        if q == p && !Lists(l.destinations, q) {
          SnapshotOwn(start, l, p, fails);
        } else {
          SnapshotOther(l, p, fails, q, was);
        }
        return;
      case DoAcquire(ps, overwrite, faults, t) =>
        AcquireRemembers(l, ps, overwrite, faults, t, q, was);
        return;
      case DoPublish(p) => PublishRemembers(l, p, q, was); return;
      case DoTrack(ps) => TrackRemembers(l, ps, q, was); return;
      case Write(p, _) => WriteRemembers(l, op, q, was); return;
      case Delete(p) => WriteRemembers(l, op, q, was); return;
    }
  }

  // ---------------------------------------------------------------------
  // Every backup is some slot's

  ghost predicate Held(l: Ledger, b: Path) {
    Holds(l.artifacts, b) || Holds(l.destinations, b)
  }

  /** A backup name is held by a slot of this transaction, was leaked, or is as it was before the transaction. */
  ghost predicate Settled(start: Ledger, l: Ledger, leaked: set<Path>, b: Path) {
    && b.Backup?
    && start.next <= l.next
    && (b in leaked ==> b.serial < l.next && !Held(l, b))
    && (Held(l, b) ==> b.serial >= start.next)
    && (!Held(l, b) && b !in leaked ==> At(l.files, b) == At(start.files, b))
  }

  lemma HoldsAppended(slots: seq<Slot>, s: Slot, b: Path)
    ensures Holds(slots + [s], b) <==> Holds(slots, b) || s.backup == Some(b)
  {
    var grown := slots + [s];
    assert forall k :: 0 <= k < |slots| ==> grown[k] == slots[k];
    assert grown[|slots|] == s;
  }

  lemma HoldsRevised(slots: seq<Slot>, i: nat, s: Slot, b: Path)
    requires i < |slots| && (slots[i].backup.None? || s.backup == slots[i].backup)
    ensures Holds(slots[i := s], b) <==> Holds(slots, b) || s.backup == Some(b)
  {
    var revised := slots[i := s];
    assert forall k :: 0 <= k < |slots| && k != i ==> revised[k] == slots[k];
    assert revised[i] == s;
  }

  lemma ProtectSettles(start: Ledger, l: Ledger, leaked: set<Path>, p: Path, copy: bool, overwrite: bool, fails: bool,
                       b: Path)
    requires WellFormed(l) && p.Named? && Settled(start, l, leaked, b)
    ensures Settled(start, Protect(l, p, copy, overwrite, fails).0, leaked, b)
  {
    if p != StandardOutput && !HasPath(l, p) && BackUp(l, p, copy, overwrite, fails).Ok? {
      var (m, backup) := BackUp(l, p, copy, overwrite, fails).value;
      HoldsAppended(m.artifacts, Slot(p, backup, false, false), b);
    }
  }

  lemma SnapshotSettles(start: Ledger, l: Ledger, leaked: set<Path>, p: Path, fails: bool, b: Path)
    requires WellFormed(l) && p.Named? && Settled(start, l, leaked, b)
    ensures Settled(start, Snapshot(l, p, fails).0, leaked, b)
  {
    var i := Find(l.artifacts, p);
    if i < |l.artifacts| && l.artifacts[i].backup.Some? {
      HoldsRevised(l.artifacts, i, l.artifacts[i].(removed := true), b);
    } else if BackUp(l, p, true, true, fails).Ok? {
      var (m, backup) := BackUp(l, p, true, true, fails).value;
      if i < |l.artifacts| {
        HoldsRevised(m.artifacts, i, m.artifacts[i].(backup := backup, removed := true), b);
      } else {
        HoldsAppended(m.artifacts, Slot(p, backup, false, true), b);
      }
    }
  }

  lemma AddDestinationSettles(start: Ledger, l: Ledger, leaked: set<Path>, p: Path, overwrite: bool, fails: bool,
                              b: Path)
    requires WellFormed(l) && p.Named? && !HasPath(l, p) && Settled(start, l, leaked, b)
    requires BackUp(l, p, false, overwrite, fails).Ok?
    ensures
      var (m, backup) := BackUp(l, p, false, overwrite, fails).value;
      var n := m.(destinations := m.destinations + [Slot(p, backup, false, false)]);
      WellFormed(n) && Settled(start, n, leaked, b)
  {
    BackUpKeeps(l, p, false, overwrite, fails);
    var (m, backup) := BackUp(l, p, false, overwrite, fails).value;
    AddDestinationKeeps(m, p, backup);
    HoldsAppended(m.destinations, Slot(p, backup, false, false), b);
  }

  /** Rolling back keeps the backups of other transactions and leaves the rest of its own only where it failed. */
  lemma RollbackSettles(start: Ledger, l: Ledger, leaked: set<Path>, t: Troubles, b: Path)
    requires WellFormed(l) && WellFormed(start) && Settled(start, l, leaked, b)
    ensures
      var m := Rollback(l, t);
      && m.next == l.next && !Held(m, b)
      && (b in start.files ==> At(m.files, b) == At(start.files, b) || b in leaked)
      && (b in m.files ==> b.serial < m.next)
  {
    RollbackIsPathwise(l, t, b);
    RollbackKeeps(l, t);
    if Consumes(l.artifacts, t, b) {
      assert Held(l, b);
    }
    if Consumes(l.destinations, t, b) {
      assert Held(l, b);
    }
  }

  lemma {:induction false} AcquireSettles(start: Ledger, l: Ledger, leaked: set<Path>, ps: seq<Path>, overwrite: bool,
                                          faults: set<Path>, t: Troubles, b: Path)
    requires WellFormed(l) && WellFormed(start) && Settled(start, l, leaked, b)
    requires forall p :: p in ps ==> p.Named?
    ensures
      var (m, error) := Acquire(l, ps, overwrite, faults, t);
      && (error.None? ==> Settled(start, m, leaked, b))
      && (error.Some? ==>
            && m.next >= start.next && !Held(m, b)
            && (b in start.files ==> At(m.files, b) == At(start.files, b) || b in leaked)
            && (b in m.files ==> b.serial < m.next))
    decreases |ps|
  {
    if ps != [] {
      if ps[0] == StandardOutput || HasPath(l, ps[0]) {
        AcquireSettles(start, l, leaked, ps[1..], overwrite, faults, t, b);
      } else if BackUp(l, ps[0], false, overwrite, ps[0] in faults).Ok? {
        AddDestinationSettles(start, l, leaked, ps[0], overwrite, ps[0] in faults, b);
        var (m, backup) := BackUp(l, ps[0], false, overwrite, ps[0] in faults).value;
        AcquireSettles(start, m.(destinations := m.destinations + [Slot(ps[0], backup, false, false)]), leaked,
                       ps[1..], overwrite, faults, t, b);
      } else {
        RollbackSettles(start, l, leaked, t, b);
      }
    }
  }

  lemma {:induction false} TrackSettles(start: Ledger, l: Ledger, leaked: set<Path>, ps: seq<Path>, b: Path)
    requires Settled(start, l, leaked, b)
    ensures Settled(start, Track(l, ps), leaked, b)
    decreases |ps|
  {
    if ps != [] {
      if HasPath(l, ps[0]) {
        TrackSettles(start, l, leaked, ps[1..], b);
      } else {
        var s := Slot(ps[0], None, false, false);
        HoldsAppended(l.artifacts, s, b);
        TrackSettles(start, l.(artifacts := l.artifacts + [s]), leaked, ps[1..], b);
      }
    }
  }

  lemma PerformSettles(start: Ledger, l: Ledger, leaked: set<Path>, op: Op, b: Path)
    requires WellFormed(l) && WellFormed(start) && Addressed(op) && Settled(start, l, leaked, b)
    requires b in leaked ==> b !in start.files
    ensures Settled(start, Perform(l, op), LeakedAfter(start, l, leaked, op), b)
  {
    match op
    case DoProtect(p, copy, overwrite, fails) => ProtectSettles(start, l, leaked, p, copy, overwrite, fails, b);
    case DoSnapshot(p, fails) => SnapshotSettles(start, l, leaked, p, fails, b);
    case DoAcquire(ps, overwrite, faults, t) => AcquireSettles(start, l, leaked, ps, overwrite, faults, t, b);
    case DoPublish(p) =>
      var i := Find(l.destinations, p);
      if i < |l.destinations| {
        HoldsRevised(l.destinations, i, l.destinations[i].(published := true), b);
      }
    case DoTrack(ps) => TrackSettles(start, l, leaked, ps, b);
    case Write(p, _) =>
    case Delete(p) =>
  }

  // ---------------------------------------------------------------------
  // When a rollback reports success

  /** Undoing the slot meets its path's trouble. */
  predicate ArtifactFails(s: Slot, t: Troubles) {
    s.destination in t && (s.backup.Some? || !s.removed)
  }

  predicate DestinationFails(s: Slot, t: Troubles) {
    s.destination in t && (s.backup.Some? || s.published)
  }

  lemma {:induction false} ArtifactsUndoneExactly(files: Files, next: nat, slots: seq<Slot>, t: Troubles)
    requires Sound(files, next, slots)
    ensures ArtifactsUndone(files, slots, t) <==> forall i :: 0 <= i < |slots| ==> !ArtifactFails(slots[i], t)
    decreases |slots|
  {
    if slots != [] {
      var mid, rest := UndoArtifact(files, slots[0], t), slots[1..];
      assert Sound(mid, next, rest);
      ArtifactsUndoneExactly(mid, next, rest, t);
      assert forall i :: 0 < i < |slots| ==> slots[i] == rest[i - 1];
      assert forall i :: 0 <= i < |rest| ==> rest[i] == slots[i + 1];
    }
  }

  lemma {:induction false} DestinationsUndoneExactly(files: Files, next: nat, slots: seq<Slot>, t: Troubles)
    requires Sound(files, next, slots)
    ensures DestinationsUndone(files, slots, t) <==> forall i :: 0 <= i < |slots| ==> !DestinationFails(slots[i], t)
    decreases |slots|
  {
    if slots != [] {
      var mid, rest := UndoDestination(files, slots[0], t), slots[1..];
      assert Sound(mid, next, rest);
      DestinationsUndoneExactly(mid, next, rest, t);
      assert forall i :: 0 < i < |slots| ==> slots[i] == rest[i - 1];
      assert forall i :: 0 <= i < |rest| ==> rest[i] == slots[i + 1];
    }
  }

  lemma ArtifactsLeaveSound(l: Ledger, t: Troubles)
    requires WellFormed(l)
    ensures Sound(UndoArtifacts(l.files, l.artifacts, t), l.next, l.destinations)
  {
    var mid := UndoArtifacts(l.files, l.artifacts, t);
    forall i | 0 <= i < |l.destinations| && l.destinations[i].backup.Some?
      ensures l.destinations[i].backup.value in mid
    {
      UndoArtifactsAt(l.files, l.next, l.artifacts, t, l.destinations[i].backup.value);
    }
  }
}
