/**
 The media output transaction as a value: an undo log over a directory. Paths are
 cleaned paths; a backup has a name no other path has. File operations either
 happen or report an error; what an error leaves behind is said where it matters.
 */
module TransactionSpec {
  import opened Common

  datatype Path = Named(name: string) | Backup(serial: nat)

  datatype Entry = Regular(content: string) | Special

  type Files = map<Path, Entry>

  datatype Slot = Slot(destination: Path, backup: Option<Path>, published: bool, removed: bool)

  /** The transaction and the directory it works on; `next` is the first backup name not handed out. */
  datatype Ledger = Ledger(
    files: Files,
    next: nat,
    destinations: seq<Slot>,
    artifacts: seq<Slot>,
    published: set<Path>,
    acquired: bool)

  datatype Error = UnsafeDestination | DestinationExists | InputOutput

  const StandardOutput := Named("-")

  function At(files: Files, p: Path): Option<Entry> {
    if p in files then Some(files[p]) else None
  }

  // ---------------------------------------------------------------------
  // Slots

  /** The index of the slot for a path, or |slots| when there is none. */
  function Find(slots: seq<Slot>, p: Path): (i: nat)
    ensures i <= |slots|
    ensures i < |slots| ==> slots[i].destination == p
    ensures forall j :: 0 <= j < i ==> slots[j].destination != p
  {
    if slots == [] then 0 else if slots[0].destination == p then 0 else 1 + Find(slots[1..], p)
  }

  predicate Lists(slots: seq<Slot>, p: Path) {
    Find(slots, p) < |slots|
  }

  predicate HasPath(l: Ledger, p: Path) {
    Lists(l.destinations, p) || Lists(l.artifacts, p)
  }

  // ---------------------------------------------------------------------
  // Protecting paths

  /** Moves or copies an existing regular file to a new backup; an absent file needs none. */
  function BackUp(l: Ledger, p: Path, copy: bool, overwrite: bool, fails: bool): Result<(Ledger, Option<Path>), Error> {
    if fails then Err(InputOutput)
    else if p !in l.files then Ok((l, None))
    else if l.files[p].Special? then Err(UnsafeDestination)
    else if !copy && !overwrite then Err(DestinationExists)
    else
      var b := Backup(l.next);
      Ok((l.(files := (if copy then l.files else l.files - {p})[b := l.files[p]], next := l.next + 1), Some(b)))
  }

  /** protectPath moves the file away, protectAppendPath keeps it in place. */
  function Protect(l: Ledger, p: Path, copy: bool, overwrite: bool, fails: bool): (Ledger, Option<Error>) {
    if p == StandardOutput || HasPath(l, p) then (l, None)
    else
      match BackUp(l, p, copy, overwrite, fails)
      case Err(e) => (l, Some(e))
      case Ok((m, b)) => (m.(artifacts := m.artifacts + [Slot(p, b, false, false)]), None)
  }

  function Snapshot(l: Ledger, p: Path, fails: bool): (Ledger, Option<Error>) {
    var i := Find(l.artifacts, p);
    if p == StandardOutput then (l, None)
    else if i < |l.artifacts| && l.artifacts[i].backup.Some? then
      (l.(artifacts := l.artifacts[i := l.artifacts[i].(removed := true)]), None)
    else
      match BackUp(l, p, true, true, fails)
      case Err(e) => (l, Some(e))
      case Ok((m, b)) =>
        if i < |l.artifacts| then
          (m.(artifacts := m.artifacts[i := m.artifacts[i].(backup := b, removed := true)]), None)
        else (m.(artifacts := m.artifacts + [Slot(p, b, false, true)]), None)
  }

  /** Backs up each new destination in turn; an error undoes the whole transaction, as far as that works. */
  function Acquire(l: Ledger, ps: seq<Path>, overwrite: bool, faults: set<Path>, t: Troubles): (Ledger, Option<Error>)
    decreases |ps|
  {
    if ps == [] then (l.(acquired := true), None)
    else if ps[0] == StandardOutput || HasPath(l, ps[0]) then Acquire(l, ps[1..], overwrite, faults, t)
    else
      match BackUp(l, ps[0], false, overwrite, ps[0] in faults)
      case Err(e) => (Rollback(l, t), Some(e))
      case Ok((m, b)) =>
        Acquire(m.(destinations := m.destinations + [Slot(ps[0], b, false, false)]), ps[1..], overwrite, faults, t)
  }

  function MarkPublished(l: Ledger, p: Path): Ledger {
    var i := Find(l.destinations, p);
    l.(published := l.published + {p},
       destinations := if i < |l.destinations|
                       then l.destinations[i := l.destinations[i].(published := true)]
                       else l.destinations)
  }

  function Track(l: Ledger, ps: seq<Path>): Ledger
    decreases |ps|
  {
    if ps == [] then l
    else if HasPath(l, ps[0]) then Track(l, ps[1..])
    else Track(l.(artifacts := l.artifacts + [Slot(ps[0], None, false, false)]), ps[1..])
  }

  // ---------------------------------------------------------------------
  // Rollback and commit

  /**
   The paths whose undoing reports an error: before anything changed (false), or
   after the destination was removed and while the backup is still in place (true).
   */
  type Troubles = map<Path, bool>

  const NoTrouble: Troubles := map[]

  function Restore(files: Files, p: Path, b: Path, t: Troubles): Files {
    if p in t then if t[p] then files - {p} else files
    else if b in files then files[p := files[b]] - {b}
    else files - {p}
  }

  function Removed(files: Files, p: Path, t: Troubles): Files {
    if p in t then files else files - {p}
  }

  function UndoArtifact(files: Files, s: Slot, t: Troubles): Files {
    if s.backup.Some? then Restore(files, s.destination, s.backup.value, t)
    else if s.removed then files
    else Removed(files, s.destination, t)
  }

  function UndoDestination(files: Files, s: Slot, t: Troubles): Files {
    if s.backup.Some? then Restore(files, s.destination, s.backup.value, t)
    else if s.published then Removed(files, s.destination, t)
    else files
  }

  function UndoArtifacts(files: Files, slots: seq<Slot>, t: Troubles): Files
    decreases |slots|
  {
    if slots == [] then files else UndoArtifacts(UndoArtifact(files, slots[0], t), slots[1..], t)
  }

  function UndoDestinations(files: Files, slots: seq<Slot>, t: Troubles): Files
    decreases |slots|
  {
    if slots == [] then files else UndoDestinations(UndoDestination(files, slots[0], t), slots[1..], t)
  }

  function RollbackArtifacts(l: Ledger, t: Troubles): Ledger {
    l.(files := UndoArtifacts(l.files, l.artifacts, t), artifacts := [])
  }

  /** Every slot is undone, whatever went wrong with the others. */
  function Rollback(l: Ledger, t: Troubles): Ledger {
    var m := RollbackArtifacts(l, t);
    m.(files := UndoDestinations(m.files, m.destinations, t), destinations := [], acquired := false)
  }

  /** The rollback chosen by the transaction's caller: destinations only once backups were acquired. */
  function RollbackTransaction(l: Ledger, t: Troubles): Ledger {
    if l.acquired then Rollback(l, t) else RollbackArtifacts(l, t)
  }

  // Whether the undoing reports no error, slot by slot in the same order.

  predicate RestoreWorks(files: Files, p: Path, b: Path, t: Troubles) {
    p !in t && p != b && b in files
  }

  predicate ArtifactUndone(files: Files, s: Slot, t: Troubles) {
    if s.backup.Some? then RestoreWorks(files, s.destination, s.backup.value, t)
    else s.removed || s.destination !in t
  }

  predicate DestinationUndone(files: Files, s: Slot, t: Troubles) {
    if s.backup.Some? then RestoreWorks(files, s.destination, s.backup.value, t)
    else !s.published || s.destination !in t
  }

  predicate ArtifactsUndone(files: Files, slots: seq<Slot>, t: Troubles)
    decreases |slots|
  {
    slots == [] ||
    (ArtifactUndone(files, slots[0], t) && ArtifactsUndone(UndoArtifact(files, slots[0], t), slots[1..], t))
  }

  predicate DestinationsUndone(files: Files, slots: seq<Slot>, t: Troubles)
    decreases |slots|
  {
    slots == [] ||
    (DestinationUndone(files, slots[0], t) && DestinationsUndone(UndoDestination(files, slots[0], t), slots[1..], t))
  }

  predicate RollbackWorks(l: Ledger, t: Troubles) {
    && ArtifactsUndone(l.files, l.artifacts, t)
    && DestinationsUndone(UndoArtifacts(l.files, l.artifacts, t), l.destinations, t)
  }

  /** The backups of a list are deleted, but for those that cannot be. */
  function Dropped(files: Files, slots: seq<Slot>, stuck: set<Path>): Files
    decreases |slots|
  {
    if slots == [] then files
    else
      var b := slots[0].backup;
      Dropped(if b.Some? && b.value !in stuck then files - {b.value} else files, slots[1..], stuck)
  }

  function Cleared(slots: seq<Slot>, stuck: set<Path>): seq<Slot> {
    seq(|slots|, i requires 0 <= i < |slots| =>
      if slots[i].backup.Some? && slots[i].backup.value in stuck then slots[i] else slots[i].(backup := None))
  }

  /** A slot whose backup could not be deleted keeps it, for another commit. */
  function Commit(l: Ledger, stuck: set<Path>): Ledger {
    l.(files := Dropped(Dropped(l.files, l.destinations, stuck), l.artifacts, stuck),
       destinations := Cleared(l.destinations, stuck),
       artifacts := Cleared(l.artifacts, stuck))
  }

  predicate NoneStuck(slots: seq<Slot>, stuck: set<Path>) {
    forall i :: 0 <= i < |slots| && slots[i].backup.Some? ==> slots[i].backup.value !in stuck
  }

  function Finalize(l: Ledger): Ledger {
    l.(artifacts := [], destinations := [], published := {}, acquired := false)
  }

  // ---------------------------------------------------------------------
  // Histories

  datatype Op =
    | DoProtect(path: Path, copy: bool, overwrite: bool, fails: bool)
    | DoSnapshot(path: Path, fails: bool)
    | DoAcquire(paths: seq<Path>, overwrite: bool, faults: set<Path>, troubles: Troubles)
    | DoPublish(path: Path)
    | DoTrack(paths: seq<Path>)
    | Write(path: Path, content: string)
    | Delete(path: Path)

  /** What a caller may pass: backups have names of their own, known only to the transaction. */
  predicate Addressed(op: Op) {
    match op
    case DoAcquire(ps, _, _, _) => forall p :: p in ps ==> p.Named?
    case DoTrack(ps) => forall p :: p in ps ==> p.Named?
    case _ => op.path.Named?
  }

  function Perform(l: Ledger, op: Op): Ledger {
    match op
    case DoProtect(p, copy, overwrite, fails) => Protect(l, p, copy, overwrite, fails).0
    case DoSnapshot(p, fails) => Snapshot(l, p, fails).0
    case DoAcquire(ps, overwrite, faults, t) => Acquire(l, ps, overwrite, faults, t).0
    case DoPublish(p) => MarkPublished(l, p)
    case DoTrack(ps) => Track(l, ps)
    case Write(p, c) => l.(files := l.files[p := Regular(c)])
    case Delete(p) => l.(files := l.files - {p})
  }

  function Begin(files: Files, next: nat): Ledger {
    Ledger(files, next, [], [], {}, false)
  }

  function Run(start: Ledger, ops: seq<Op>): Ledger {
    if ops == [] then start else Perform(Run(start, ops[..|ops| - 1]), ops[|ops| - 1])
  }

  /** A path that rollback would not take away: never published, or snapshotted as removed. */
  predicate Kept(l: Ledger, p: Path) {
    var i, j := Find(l.destinations, p), Find(l.artifacts, p);
    if i < |l.destinations| then !l.destinations[i].published
    else j < |l.artifacts| && l.artifacts[j].removed
  }

  /** The names in two directories, and those among them that differ. */
  function Differing(was: Files, now: Files): set<Path> {
    set p | p in was.Keys + now.Keys && At(was, p) != At(now, p)
  }

  /**
   A snapshot that saves what a path was before the transaction: a path that did
   not exist is then known to be kept, and one that still is as it was is copied.
   */
  predicate Redeems(start: Ledger, l: Ledger, p: Path, fails: bool) {
    var i := Find(l.artifacts, p);
    && p != StandardOutput
    && !Lists(l.destinations, p)
    && Snapshot(l, p, fails).1.None?
    && (p !in start.files
        || (At(l.files, p) == At(start.files, p) && !(i < |l.artifacts| && l.artifacts[i].backup.Some?)))
  }

  /**
   The paths the transaction cannot answer for. A path it does not know is one
   exactly while it differs from what it was; tracking makes an existing path one
   and a new path none; a snapshot can redeem one.
   */
  function Loose(start: Ledger, ops: seq<Op>): set<Path> {
    if ops == [] then {}
    else
      var before := ops[..|ops| - 1];
      LooseAfter(start, Run(start, before), Loose(start, before), ops[|ops| - 1])
  }

  function LooseAfter(start: Ledger, l: Ledger, loose: set<Path>, op: Op): set<Path> {
    match op
    case DoTrack(ps) =>
      var added := (set p | p in ps && !HasPath(l, p));
      (loose - added) + (set p | p in added && p in start.files)
    case DoAcquire(ps, overwrite, faults, t) =>
      var (m, error) := Acquire(l, ps, overwrite, faults, t);
      if error.None? then loose else set p | p in Differing(start.files, m.files) && p.Named?
    case DoSnapshot(p, fails) => if Redeems(start, l, p, fails) then loose - {p} else loose
    case DoProtect(_, _, _, _) => loose
    case DoPublish(_) => loose
    case _ =>
      if HasPath(l, op.path) then loose
      else if At(Perform(l, op).files, op.path) == At(start.files, op.path) then loose - {op.path}
      else loose + {op.path}
  }

  /** The backups left behind by acquisitions whose own rollback failed. */
  function Leaked(start: Ledger, ops: seq<Op>): set<Path> {
    if ops == [] then {}
    else
      var before := ops[..|ops| - 1];
      LeakedAfter(start, Run(start, before), Leaked(start, before), ops[|ops| - 1])
  }

  function LeakedAfter(start: Ledger, l: Ledger, leaked: set<Path>, op: Op): set<Path> {
    if op.DoAcquire? && Acquire(l, op.paths, op.overwrite, op.faults, op.troubles).1.Some? then
      set b | b in Perform(l, op).files.Keys && b.Backup? && b !in start.files
    else leaked
  }
}
