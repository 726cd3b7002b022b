/**
 One resumable session as a step system: the engine process, its durable files,
 its arbiter, and a world that may crash it, cancel it, fail any of its reads and
 writes, and put files at the destination at any moment.

 Files are directory entries over inodes, because publication is a hard link:
 after it, the staged file and the destination are one inode. Every `Engine`
 event is one durable write, one read of the shared directory, or one arbiter
 call; everything the engine does between two of them is private to it.
 */
module PublicationProtocol {
  import opened Common
  import opened SessionManifest
  import A = ArbiterSpec

  datatype Entry = Regular(inode: nat) | Irregular

  datatype Disk = Disk(
    dir: map<Basename, Entry>,
    data: map<nat, Content>,
    next: nat,
    stage: Option<nat>,
    payload: Option<Content>)

  datatype JournalState =
    | JournalReady
    | JournalPublishing
    | JournalPublished
    | JournalCollision
    | JournalIndeterminate

  datatype Journal = Journal(state: JournalState, fingerprint: Fingerprint, target: Basename)

  /** Where the engine is: the effect it performs next. */
  datatype Pc =
    | Down
    | Opened
    | ReadJournal
    | ProbeUnpublished
    | ResolveCommitted
    | CloseCommitted
    | ResolvePending
    | CloseFailed
    | Reconciled
    | Rebinding
    | Pausing
    | Resuming
    | Resumed
    | Extracting
    | Fetching
    | ToProcessing
    | Staging
    | Merging
    | RecordStaged
    | ToReady
    | Publishing
    | ReadyJournal
    | SetPending
    | Reserving
    | PublishingJournal
    | CheckStage
    | ProbeDestination
    | CompareDestination
    | Linking
    | RecheckContent
    | RecheckNames
    | Replaced
    | PublishedJournal
    | SetCommitted
    | ToCompleted
    | Finishing
    | Collided
    | CollisionJournal
    | MarkCollision
    | Precommitted
    | Doubtful
    | DoubtfulJournal
    | MarkDoubtful
    | Interrupted(pause: bool)

  /**
   The engine process and the history of this attempt: the reservation it was
   granted, the link it made, and whether it gave the reservation up with that
   link in place. A multi-track session publishes like a direct one, but merges
   its tracks into the output it stages and reconciles without comparing its
   journal with the requested name.
   */
  datatype Process = Process(
    pc: Pc,
    target: Basename,
    multi: bool,
    created: bool,
    guard: Option<nat>,
    grants: nat,
    releases: nat,
    panicked: bool,
    crashed: bool,
    linked: Option<(Basename, nat)>,
    blind: bool)

  /**
   `seen` records that the destination has shown exactly the staged fingerprint
   at some moment since the manifest was bound to the two; `altered` that the
   last foreign in-place write to the staged inode since the engine compared it
   left other bytes; `raced` holds the destinations and outputs that were linked in that state.
   */
  datatype World = World(
    disk: Disk,
    manifest: Option<Manifest>,
    journal: Option<Journal>,
    arbiter: A.Arbiter,
    run: Process,
    seen: bool,
    altered: bool,
    raced: set<(Basename, Option<Fingerprint>)>)

  datatype Signal = Quiet | PauseRequested | CancelRequested

  /**
   Everything a step leaves open: whether a durable write is lost or reports an
   error, whether the error of a link says that the name exists, whether a read
   or a stat fails, whether a private check refuses, whether the context has
   ended and was seen to before the arbiter was asked, and what a download delivers.
   */
  datatype Fault = Fault(
    lost: bool,
    err: bool,
    eexist: bool,
    unreadable: bool,
    statFails: bool,
    refused: bool,
    signal: Signal,
    early: bool,
    reuse: bool,
    content: Content)

  const Calm := Fault(false, false, false, false, false, false, Quiet, false, true, "")

  datatype Event =
    | Start(target: Basename, multi: bool)
    | Engine(fault: Fault)
    | Crash
    | ForeignCreate(name: Basename, content: Content)
    | ForeignIrregular(name: Basename)
    | ForeignRemove(name: Basename)
    | ForeignWrite(name: Basename, content: Content)
    | BeginCancel(expired: bool)
    | EndCancel(win: bool, guard: Option<nat>)

  // ---------------------------------------------------------------------
  // Observations

  /** The fingerprint a name shows, if it is a regular file. */
  function Shows(d: Disk, name: Basename): Option<Fingerprint> {
    if name in d.dir && d.dir[name].Regular? && d.dir[name].inode in d.data
    then Some(Sha256(d.data[d.dir[name].inode]))
    else None
  }

  function StageShows(d: Disk): Option<Fingerprint> {
    if d.stage.Some? && d.stage.value in d.data then Some(Sha256(d.data[d.stage.value])) else None
  }

  /** The destination shows exactly the staged fingerprint of the manifest. */
  predicate Agrees(w: World) {
    && w.manifest.Some?
    && w.manifest.value.staged.Some?
    && Shows(w.disk, w.manifest.value.destination) == w.manifest.value.staged
  }

  predicate SameBinding(m: Option<Manifest>, n: Option<Manifest>) {
    && m.Some?
    && n.Some?
    && m.value.destination == n.value.destination
    && m.value.staged == n.value.staged
  }

  // ---------------------------------------------------------------------
  // Effects

  function Goto(w: World, pc: Pc): World {
    w.(run := w.run.(pc := pc))
  }

  /** A durable manifest mutation, made only if `needed`; it may be lost, and it may report an error. */
  function WriteIf(w: World, needed: bool, u: Mutation, f: Fault, ok: Pc, failed: Pc): World
    requires w.manifest.Some?
  {
    var r := Apply(w.manifest.value, u);
    w.(manifest := if needed && r.Some? && !f.lost then r else w.manifest,
       run := w.run.(pc := if !needed || (r.Some? && !f.lost && !f.err) then ok else failed))
  }

  function WriteManifest(w: World, u: Mutation, f: Fault, ok: Pc, failed: Pc): World
    requires w.manifest.Some?
  {
    WriteIf(w, true, u, f, ok, failed)
  }

  /** A journal names a fingerprint, so there is nothing to write before an output is staged. */
  function WriteJournal(w: World, state: JournalState, f: Fault, ok: Pc, failed: Pc): World
    requires w.manifest.Some?
  {
    var staged := w.manifest.value.staged;
    w.(journal := if f.lost || staged.None? then w.journal else Some(Journal(state, staged.value, w.run.target)),
       run := w.run.(pc := if f.lost || f.err || staged.None? then failed else ok))
  }

  /** A terminal arbiter call with this run's reservation; a refused one would panic. */
  function Conclude(w: World, op: A.Op, pc: Pc): World {
    var ok := A.Accepts(w.arbiter, op, w.run.guard);
    w.(arbiter := A.Call(w.arbiter, op, w.run.guard),
       run := w.run.(pc := pc,
                     panicked := w.run.panicked || !ok,
                     releases := w.run.releases + if ok && A.Releases(op) then 1 else 0))
  }

  // ---------------------------------------------------------------------
  // reconcile and prepare

  predicate JournalFits(w: World)
    requires w.manifest.Some?
  {
    var m := w.manifest.value;
    && w.journal.Some?
    && w.journal.value.target == m.destination
    && (!w.run.multi ==> w.journal.value.target == w.run.target)
    && (m.staged.Some? ==> w.journal.value.fingerprint == m.staged.value)
    && (m.publication == PublicationIndeterminate ==> w.journal.value.state == JournalIndeterminate)
  }

  function EvidenceFingerprint(w: World): Fingerprint
    requires w.manifest.Some? && w.journal.Some?
  {
    if w.manifest.value.staged.Some? then w.manifest.value.staged.value else w.journal.value.fingerprint
  }

  /** Reads the journal and the destination; only evidence that fits all three can be acted on. */
  function WeighEvidence(w: World, f: Fault): World
    requires w.manifest.Some?
  {
    var m := w.manifest.value;
    Goto(w,
         if f.refused || !JournalFits(w) then Down
         else if Shows(w.disk, m.destination) == Some(EvidenceFingerprint(w)) && !f.unreadable then
           if m.publication == PublicationIndeterminate then ResolveCommitted else CloseCommitted
         else if m.publication == PublicationIndeterminate then ProbeUnpublished
         else Down)
  }

  function WeighAbsence(w: World, f: Fault): World
    requires w.manifest.Some?
  {
    Goto(w,
         if w.journal.Some? && StageShows(w.disk) == Some(EvidenceFingerprint(w)) && !f.unreadable
            && (w.manifest.value.destination !in w.disk.dir || f.statFails)
         then ResolvePending else Down)
  }

  /** A completed session only re-reads its destination and returns. */
  function Reenter(w: World): World
    requires w.manifest.Some?
  {
    var m := w.manifest.value;
    Goto(w,
         if (m.phase == PhaseCompleted && m.publication == PublicationCommitted) || m.status == StatusCanceled
         then Down else Rebinding)
  }

  function Rebind(w: World, f: Fault): World
    requires w.manifest.Some?
  {
    WriteIf(w, w.manifest.value.destination != w.run.target, RebindDestination(w.run.target), f, Pausing, Down)
  }

  /** An active manifest that this process did not create is the residue of a crash. */
  function PauseResidue(w: World, f: Fault): World
    requires w.manifest.Some?
  {
    var m := w.manifest.value;
    WriteIf(w, m.status == StatusActive && !w.run.created,
            Transition(m.phase, StatusPaused, DesiredPaused), f, Resuming, Down)
  }

  function ResumeStopped(w: World, f: Fault): World
    requires w.manifest.Some?
  {
    var m := w.manifest.value;
    WriteIf(w, m.status == StatusPaused || m.status == StatusFailed, Resume, f, Resumed, Down)
  }

  /** Where a run takes a phase up. */
  function EntryOf(phase: Phase): Pc {
    match phase
    case PhasePrepared => Extracting
    case PhaseExtracting => Extracting
    case PhaseDownloading => Fetching
    case PhaseProcessing => Fetching
    case PhaseReadyToPublish => Publishing
    case PhaseCompleted => Down
  }

  function EnterPhase(w: World, f: Fault): World
    requires w.manifest.Some?
  {
    WriteIf(w, w.manifest.value.phase == PhasePrepared, Transition(PhaseExtracting, StatusActive, DesiredRunning), f,
            EntryOf(w.manifest.value.phase), Down)
  }

  function ReconcileStep(w: World, f: Fault): World
    requires w.manifest.Some?
  {
    match w.run.pc
    case Opened =>
      Goto(w, if w.manifest.value.status == StatusNeedsReconciliation then ReadJournal else Reconciled)
    case ReadJournal => WeighEvidence(w, f)
    case ProbeUnpublished => WeighAbsence(w, f)
    case ResolveCommitted => WriteManifest(w, ResolvePublication(PublicationCommitted), f, CloseCommitted, Down)
    case CloseCommitted =>
      WriteManifest(w, ResolveReconciliation(StatusCompleted, DesiredRunning), f, Reconciled, Down)
    case ResolvePending => WriteManifest(w, ResolvePublication(PublicationPending), f, CloseFailed, Down)
    case CloseFailed =>
      WriteManifest(w, ResolveReconciliation(StatusFailed, DesiredRunning), f, Reconciled, Down)
    case _ => w
  }

  function PrepareStep(w: World, f: Fault): World
    requires w.manifest.Some?
  {
    match w.run.pc
    case Reconciled => Reenter(w)
    case Rebinding => Rebind(w, f)
    case Pausing => PauseResidue(w, f)
    case Resuming => ResumeStopped(w, f)
    case Resumed =>
      if f.refused then Goto(w, Down)
      else if f.signal == Quiet then EnterPhase(w, f)
      else Goto(w, Interrupted(f.signal == PauseRequested))
    case _ => w
  }

  // ---------------------------------------------------------------------
  // run, up to a staged output

  /** A direct session looks at its payload in both phases; a multi-track one only while it downloads. */
  function Fetch(w: World, f: Fault): World
    requires w.manifest.Some?
  {
    var processing := w.manifest.value.phase == PhaseProcessing;
    var skip := w.run.multi && processing;
    var reuse := f.reuse && w.disk.payload.Some?;
    var stop := !skip && (f.signal != Quiet || f.refused || (!reuse && processing));
    w.(disk := w.disk.(payload := if skip || stop || reuse then w.disk.payload else Some(f.content)),
       run := w.run.(pc := if !stop then ToProcessing
                           else if f.signal != Quiet then Interrupted(f.signal == PauseRequested)
                           else Down))
  }

  /** The staged file after an atomic write: the new bytes are a new inode under the staged name. */
  function Staged(d: Disk, bytes: Content): Disk {
    d.(data := d.data[d.next := bytes], next := d.next + 1, stage := Some(d.next))
  }

  function Stage(w: World, f: Fault): World {
    var d := w.disk;
    var stop := f.signal != Quiet || f.refused || d.payload.None?;
    var fits := !stop && StageShows(d) == Some(Sha256(d.payload.value)) && !f.unreadable;
    w.(disk := if stop || fits || f.lost then d else Staged(d, d.payload.value),
       run := w.run.(pc := if f.signal != Quiet then Interrupted(f.signal == PauseRequested)
                           else if stop || (!fits && (f.lost || f.err)) then Down
                           else RecordStaged))
  }

  /**
   process, of a multi-track session: an output already recorded must be there
   unchanged, and one that is there without being recorded is refused; otherwise the
   tracks are merged into it, and a context that ends meanwhile leaves it there.
   */
  function Merge(w: World, f: Fault): World
    requires w.manifest.Some?
  {
    var d, staged := w.disk, w.manifest.value.staged;
    var intact := staged.Some? && StageShows(d) == staged && !f.unreadable && !f.refused;
    var merged := staged.None? && !f.refused && (d.stage.None? || f.statFails) && d.payload.Some? && !f.lost
                  && !(f.signal != Quiet && f.early);
    w.(disk := d.(data := if merged then d.data[d.next := d.payload.value] else d.data,
                  next := if merged then d.next + 1 else d.next,
                  stage := if merged then Some(d.next) else d.stage),
       run := w.run.(pc := if intact then ToReady
                           else if merged && !f.err && f.signal == Quiet then RecordStaged
                           else if f.signal != Quiet then Interrupted(f.signal == PauseRequested)
                           else Down))
  }

  function Record(w: World, f: Fault): World
    requires w.manifest.Some?
  {
    var payload := w.disk.payload;
    var sized := payload.Some? && |payload.value| <= MaxBytes;
    WriteIf(w, sized, SetStagedOutput(if sized then Sha256(payload.value) else Sha256(""),
                                      if sized then |payload.value| else 0),
            f, if sized then ToReady else Down, Down)
  }

  function BuildStep(w: World, f: Fault): World
    requires w.manifest.Some?
  {
    match w.run.pc
    case Extracting =>
      WriteManifest(w, Transition(PhaseDownloading, StatusActive, DesiredRunning), f, Fetching, Down)
    case Fetching => Fetch(w, f)
    case ToProcessing =>
      WriteIf(w, w.manifest.value.phase == PhaseDownloading,
              Transition(PhaseProcessing, StatusActive, DesiredRunning), f,
              if w.run.multi then Merging else Staging, Down)
    case Staging => Stage(w, f)
    case Merging => Merge(w, f)
    case RecordStaged => Record(w, f)
    case ToReady =>
      WriteManifest(w, Transition(PhaseReadyToPublish, StatusActive, DesiredRunning), f, Publishing, Down)
    case _ => w
  }

  // ---------------------------------------------------------------------
  // publish

  function EnterPublish(w: World, f: Fault): World
    requires w.manifest.Some?
  {
    var m := w.manifest.value;
    Goto(w,
         if f.refused || m.staged.None? then Down
         else if m.publication == PublicationNotStarted then ReadyJournal
         else Reserving)
  }

  /** BeginPublication: a reservation, a wait, an interrupted wait, or a refusal. */
  function Reserve(w: World, f: Fault): World {
    var stopped := f.signal != Quiet && f.early;
    var (arbiter, begun) := A.Begin(w.arbiter, A.Publication, f.signal != Quiet);
    w.(arbiter := if stopped then w.arbiter else arbiter,
       run := w.run.(guard := if begun.Acquired? then Some(begun.guard) else w.run.guard,
                     grants := if begun.Acquired? then w.run.grants + 1 else w.run.grants,
                     pc := if begun.Acquired? then PublishingJournal
                           else if !stopped && begun.MustWait? && f.signal == Quiet then Reserving
                           else if stopped || begun.MustWait? || begun.Expired?
                           then Interrupted(f.signal == PauseRequested)
                           else Down))
  }

  function ReserveStep(w: World, f: Fault): World
    requires w.manifest.Some?
  {
    match w.run.pc
    case Publishing => EnterPublish(w, f)
    case ReadyJournal => WriteJournal(w, JournalReady, f, SetPending, Down)
    case SetPending => WriteManifest(w, SetPublication(PublicationPending), f, Publishing, Down)
    case Reserving => Reserve(w, f)
    case PublishingJournal => WriteJournal(w, JournalPublishing, f, CheckStage, Precommitted)
    case _ => w
  }

  // noReplaceDirectStage, one observation of the shared directory at a time.

  function CompareStage(w: World, f: Fault): World
    requires w.manifest.Some?
  {
    var staged := w.manifest.value.staged;
    w.(altered := false,
       run := w.run.(pc := if staged.Some? && StageShows(w.disk) == staged && !f.unreadable
                           then ProbeDestination else Doubtful))
  }

  function LookAtDestination(w: World, f: Fault): World
    requires w.manifest.Some?
  {
    var n := w.manifest.value.destination;
    Goto(w,
         if f.statFails then Doubtful
         else if n !in w.disk.dir then Linking
         else if w.disk.dir[n].Regular? then CompareDestination
         else Collided)
  }

  /** The link this attempt made is still the directory entry. */
  predicate InPlace(w: World) {
    w.run.linked.Some? &&
    var (n, inode) := w.run.linked.value;
    n in w.disk.dir && w.disk.dir[n] == Regular(inode)
  }

  /**
   link(2): never replaces an entry; may take effect and still report an error,
   and that error may even be that the name exists.
   */
  function Link(w: World, f: Fault): World
    requires w.manifest.Some?
  {
    var n := w.manifest.value.destination;
    var taken := n in w.disk.dir;
    var applied := !taken && w.disk.stage.Some? && !f.lost;
    w.(disk := w.disk.(dir := if applied then w.disk.dir[n := Regular(w.disk.stage.value)] else w.disk.dir),
       raced := if applied && w.altered then w.raced + {(n, w.manifest.value.staged)} else w.raced,
       run := w.run.(linked := if applied then Some((n, w.disk.stage.value)) else w.run.linked,
                     pc := if applied && !f.err then Replaced
                           else if f.eexist || (taken && !f.err) then CompareDestination
                           else RecheckContent))
  }

  /** A destination that cannot be read counts as another file, even if it is this attempt's own link. */
  function CompareBytes(w: World, f: Fault): World
    requires w.manifest.Some?
  {
    var same := Agrees(w) && !f.unreadable;
    w.(run := w.run.(pc := if same then Replaced else Collided, blind := w.run.blind || (!same && InPlace(w))))
  }

  /** A failed stat reads as absence, so a link that took effect can be lost from sight here. */
  function RecheckBoth(w: World, f: Fault): World
    requires w.manifest.Some?
  {
    var untouched := w.disk.stage.Some? && !f.unreadable
                     && (w.manifest.value.destination !in w.disk.dir || f.statFails);
    w.(run := w.run.(pc := if untouched then Precommitted else Doubtful,
                     blind := w.run.blind || (untouched && InPlace(w))))
  }

  function LinkStep(w: World, f: Fault): World
    requires w.manifest.Some?
  {
    match w.run.pc
    case CheckStage => CompareStage(w, f)
    case ProbeDestination => LookAtDestination(w, f)
    case CompareDestination => CompareBytes(w, f)
    case Linking => Link(w, f)
    case RecheckContent => Goto(w, if Agrees(w) && !f.unreadable then Replaced else RecheckNames)
    case RecheckNames => RecheckBoth(w, f)
    case _ => w
  }

  function Commit(w: World, f: Fault): World
    requires w.manifest.Some?
  {
    WriteIf(w, w.manifest.value.publication == PublicationPending,
            SetPublication(PublicationCommitted), f, ToCompleted, Finishing)
  }

  function Complete(w: World, f: Fault): World
    requires w.manifest.Some?
  {
    WriteIf(w, w.manifest.value.phase == PhaseReadyToPublish,
            Transition(PhaseCompleted, StatusCompleted, DesiredRunning), f, Finishing, Finishing)
  }

  function FailCollided(w: World, f: Fault): World
    requires w.manifest.Some?
  {
    WriteIf(w, w.manifest.value.status == StatusActive && w.manifest.value.phase == PhaseReadyToPublish,
            Transition(PhaseReadyToPublish, StatusFailed, DesiredRunning), f, Down, Down)
  }

  function RecordDoubt(w: World, f: Fault): World
    requires w.manifest.Some?
  {
    WriteIf(w, w.manifest.value.status == StatusActive && w.manifest.value.publication == PublicationPending,
            SetPublication(PublicationIndeterminate), f, Down, Down)
  }

  function PauseRun(w: World, f: Fault): World
    requires w.manifest.Some?
  {
    WriteIf(w, w.manifest.value.status == StatusActive,
            Transition(w.manifest.value.phase, StatusPaused, DesiredPaused), f, Down, Down)
  }

  /** The destructive cancel: the workspace disappears unless its outcome is unresolved. */
  function Discard(w: World, f: Fault): World
    requires w.manifest.Some?
  {
    var kept := f.refused || w.manifest.value.status == StatusNeedsReconciliation
                || w.manifest.value.publication == PublicationIndeterminate;
    w.(manifest := if kept then w.manifest else None,
       journal := if kept then w.journal else None,
       disk := w.disk.(stage := if kept then w.disk.stage else None,
                       payload := if kept then w.disk.payload else None),
       run := w.run.(pc := Down))
  }

  function SettleStep(w: World, f: Fault): World
    requires w.manifest.Some?
  {
    match w.run.pc
    case Precommitted => Conclude(w, A.AbortBeforeReplace, Down)
    case Replaced => Conclude(w, A.MarkDestinationReplaced, PublishedJournal)
    case PublishedJournal => WriteJournal(w, JournalPublished, f, SetCommitted, SetCommitted)
    case SetCommitted => Commit(w, f)
    case ToCompleted => Complete(w, f)
    case Finishing => Conclude(w, A.FinishPublication, Down)
    case _ => w
  }

  /** A collision, an outcome in doubt, or an interruption. */
  function RecoverStep(w: World, f: Fault): World
    requires w.manifest.Some?
  {
    match w.run.pc
    case Collided => Conclude(w, A.AbortBeforeReplace, CollisionJournal)
    case CollisionJournal => WriteJournal(w, JournalCollision, f, MarkCollision, MarkCollision)
    case MarkCollision => FailCollided(w, f)
    case Doubtful => Conclude(w, A.MarkIndeterminate, DoubtfulJournal)
    case DoubtfulJournal => WriteJournal(w, JournalIndeterminate, f, MarkDoubtful, MarkDoubtful)
    case MarkDoubtful => RecordDoubt(w, f)
    case Interrupted(pause) => if pause then PauseRun(w, f) else Discard(w, f)
    case _ => w
  }

  // ---------------------------------------------------------------------
  // The whole system

  const Idle := Process(Down, "", false, false, None, 0, 0, false, false, None, false)

  /** Which part of the engine a program point belongs to. */
  datatype Part = Reconciling | Preparing | Building | Announcing | Replacing | Settling | Recovering

  function PartOf(pc: Pc): Part {
    match pc
    case Opened => Reconciling
    case ReadJournal => Reconciling
    case ProbeUnpublished => Reconciling
    case ResolveCommitted => Reconciling
    case CloseCommitted => Reconciling
    case ResolvePending => Reconciling
    case CloseFailed => Reconciling
    case Reconciled => Preparing
    case Rebinding => Preparing
    case Pausing => Preparing
    case Resuming => Preparing
    case Resumed => Preparing
    case Extracting => Building
    case Fetching => Building
    case ToProcessing => Building
    case Staging => Building
    case Merging => Building
    case RecordStaged => Building
    case ToReady => Building
    case Publishing => Announcing
    case ReadyJournal => Announcing
    case SetPending => Announcing
    case Reserving => Announcing
    case PublishingJournal => Announcing
    case CheckStage => Replacing
    case ProbeDestination => Replacing
    case CompareDestination => Replacing
    case Linking => Replacing
    case RecheckContent => Replacing
    case RecheckNames => Replacing
    case Precommitted => Settling
    case Replaced => Settling
    case PublishedJournal => Settling
    case SetCommitted => Settling
    case ToCompleted => Settling
    case Finishing => Settling
    case _ => Recovering
  }

  function EngineStep(w: World, f: Fault): World {
    if w.manifest.None? || w.run.pc == Down then w
    else
      match PartOf(w.run.pc)
      case Reconciling => ReconcileStep(w, f)
      case Preparing => PrepareStep(w, f)
      case Building => BuildStep(w, f)
      case Announcing => ReserveStep(w, f)
      case Replacing => LinkStep(w, f)
      case Settling => SettleStep(w, f)
      case Recovering => RecoverStep(w, f)
  }

  /** Opening a session: a fresh arbiter, and a new workspace when there is none. */
  function StartRun(w: World, target: Basename, multi: bool): World {
    if w.run.pc != Down || target == "" then w
    else
      var run := Idle.(pc := Opened, target := target, multi := multi, created := w.manifest.None?);
      var begun := w.(run := run, arbiter := A.Fresh);
      if w.manifest.Some? then begun
      else begun.(manifest := Some(Manifest(1, 1, target, PhasePrepared, StatusActive, DesiredRunning,
                                             PublicationNotStarted, None, 0, [])),
                   journal := None,
                   disk := w.disk.(stage := None, payload := None))
  }

  function ForeignStep(w: World, e: Event): World {
    var d := w.disk;
    match e
    case ForeignCreate(n, c) =>
      if n in d.dir then w
      else w.(disk := d.(dir := d.dir[n := Regular(d.next)], data := d.data[d.next := c], next := d.next + 1))
    case ForeignIrregular(n) => if n in d.dir then w else w.(disk := d.(dir := d.dir[n := Irregular]))
    case ForeignRemove(n) => w.(disk := d.(dir := d.dir - {n}))
    case ForeignWrite(n, c) =>
      if n in d.dir && d.dir[n].Regular? && d.dir[n].inode in d.data then
        w.(disk := d.(data := d.data[d.dir[n].inode := c]),
           altered := if d.stage == Some(d.dir[n].inode)
                      then w.manifest.None? || w.manifest.value.staged != Some(Sha256(c))
                      else w.altered)
      else w
    case _ => w
  }

  function RawStep(w: World, e: Event): World {
    match e
    case Start(target, multi) => StartRun(w, target, multi)
    case Engine(f) => EngineStep(w, f)
    case Crash => if w.run.pc == Down then w else w.(run := w.run.(pc := Down, crashed := true))
    case BeginCancel(expired) => w.(arbiter := A.Begin(w.arbiter, A.Cancel, expired).0)
    case EndCancel(win, guard) =>
      w.(arbiter := A.Call(w.arbiter, if win then A.WinCancel else A.AbortCancel, guard))
    case _ => ForeignStep(w, e)
  }

  /** A step, and the observation of the world it leaves. */
  function Next(w: World, e: Event): World {
    Observe(w, RawStep(w, e))
  }

  function Observe(w: World, next: World): World {
    next.(seen := (w.seen && SameBinding(w.manifest, next.manifest)) || Agrees(next))
  }

  const Empty := World(Disk(map[], map[], 0, None, None), None, None, A.Fresh, Idle, false, false, {})

  /** The world after a history of events, starting from an empty directory and no session. */
  function Run(es: seq<Event>): World {
    Fold(Next, Empty, es)
  }
}
