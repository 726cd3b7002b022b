/**
 What every reachable world of the publication protocol keeps. The invariant is
 proved one program point at a time; the lemmas on Goto, manifest writes and
 journal writes carry the shared part of each case.
 */
module PublicationInvariant {
  import opened Common
  import opened SessionManifest
  import opened PublicationProtocol
  import A = ArbiterSpec

  // ---------------------------------------------------------------------
  // The invariant

  ghost predicate DiskOk(d: Disk) {
    && (forall n :: n in d.dir && d.dir[n].Regular? ==> d.dir[n].inode in d.data)
    && (d.stage.Some? ==> d.stage.value in d.data)
    && (forall i :: i in d.data ==> i < d.next)
  }

  ghost predicate ManifestOk(m: Manifest) {
    && Valid(m)
    && m.destination != ""
    && m.status != StatusCanceled
    && (m.status == StatusActive ==> m.desired == DesiredRunning)
    && (m.publication != PublicationNotStarted ==> m.phase == PhaseReadyToPublish || m.phase == PhaseCompleted)
    && (m.phase == PhaseReadyToPublish || m.phase == PhaseCompleted ==> m.staged.Some?)
    && (m.status == StatusNeedsReconciliation ==>
          m.phase == PhaseReadyToPublish && m.publication != PublicationNotStarted)
  }

  /** The destination has shown exactly the staged output, or the output was altered just before it was linked. */
  predicate Seen(w: World) {
    w.seen || (w.manifest.Some? && (w.manifest.value.destination, w.manifest.value.staged) in w.raced)
  }

  /** Before the reservation, holding it, holding it after the replacement, and done with it. */
  datatype Region = Early | Held | Won | Late

  /**
   What a program point says of the attempt: its region, whether it is reached
   only while no link has been made, and whether the invariant asks nothing more
   of the stage or the link there.
   */
  datatype Traits = Traits(region: Region, unlinked: bool, plain: bool)

  function TraitsOf(pc: Pc): Traits {
    match pc
    case PublishingJournal => Traits(Held, true, true)
    case CheckStage => Traits(Held, true, true)
    case ProbeDestination => Traits(Held, true, false)
    case CompareDestination => Traits(Held, false, false)
    case Linking => Traits(Held, true, false)
    case RecheckContent => Traits(Held, false, false)
    case RecheckNames => Traits(Held, false, false)
    case Replaced => Traits(Held, false, true)
    case Collided => Traits(Held, false, false)
    case Precommitted => Traits(Held, false, false)
    case Doubtful => Traits(Held, false, true)
    case PublishedJournal => Traits(Won, false, true)
    case SetCommitted => Traits(Won, false, true)
    case ToCompleted => Traits(Won, false, true)
    case Finishing => Traits(Won, false, true)
    case CollisionJournal => Traits(Late, false, true)
    case MarkCollision => Traits(Late, false, true)
    case DoubtfulJournal => Traits(Late, false, true)
    case MarkDoubtful => Traits(Late, false, true)
    case Interrupted(_) => Traits(Late, false, true)
    case Down => Traits(Late, false, true)
    case _ => Traits(Early, true, true)
  }

  predicate ReadyAndActive(w: World)
    requires w.manifest.Some?
  {
    var m := w.manifest.value;
    m.status == StatusActive && m.phase == PhaseReadyToPublish && m.destination == w.run.target
  }

  ghost predicate PcOk(w: World)
    requires w.manifest.Some?
  {
    var m := w.manifest.value;
    var unresolved := m.status == StatusNeedsReconciliation;
    var indeterminate := m.publication == PublicationIndeterminate;
    var active := m.status == StatusActive && m.destination == w.run.target;
    match w.run.pc
    case Down => true
    case Opened => true
    case ReadJournal => unresolved
    case ProbeUnpublished => unresolved && indeterminate
    case ResolveCommitted => unresolved && indeterminate && Seen(w)
    case CloseCommitted => unresolved && !indeterminate
    case ResolvePending => unresolved && indeterminate
    case CloseFailed => unresolved && m.publication == PublicationPending
    case Reconciled => !unresolved
    case Rebinding => !unresolved && m.phase != PhaseCompleted
    case Pausing => !unresolved && m.phase != PhaseCompleted && m.destination == w.run.target
    case Resuming => !unresolved && m.phase != PhaseCompleted && m.destination == w.run.target
    case Resumed => active
    case Extracting => active && m.phase == PhaseExtracting
    case Fetching => active && (m.phase == PhaseDownloading || m.phase == PhaseProcessing)
    case ToProcessing => active && (m.phase == PhaseDownloading || m.phase == PhaseProcessing)
    case Staging => active && m.phase == PhaseProcessing
    case Merging => active && m.phase == PhaseProcessing
    case RecordStaged => active && m.phase == PhaseProcessing
    case ToReady => active && m.phase == PhaseProcessing && m.staged.Some?
    case Publishing => ReadyAndActive(w)
    case ReadyJournal => ReadyAndActive(w) && m.publication == PublicationNotStarted
    case SetPending => ReadyAndActive(w) && m.publication == PublicationNotStarted
    case Replaced => ReadyAndActive(w) && m.publication != PublicationNotStarted && Seen(w)
    case PublishedJournal => ReadyAndActive(w) && m.publication != PublicationNotStarted && Seen(w)
    case SetCommitted => ReadyAndActive(w) && m.publication != PublicationNotStarted && Seen(w)
    case ToCompleted => ReadyAndActive(w) && m.publication == PublicationCommitted
    case Finishing => true
    case Interrupted(_) => active
    case _ => ReadyAndActive(w) && m.publication != PublicationNotStarted
  }

  ghost predicate RunOk(w: World) {
    var r := w.run;
    && !r.panicked
    && (r.crashed ==> r.pc == Down)
    && match TraitsOf(r.pc).region {
         case Early => r.grants == 0 && r.releases == 0
         case Held =>
           w.arbiter.state == A.PublicationReserved && r.guard.Some? && w.arbiter.active == r.guard
           && r.grants == 1 && r.releases == 0
         case Won =>
           w.arbiter.state == A.PublicationWon && r.guard.Some? && w.arbiter.active == r.guard
           && r.grants == 1 && r.releases == 0
         case Late => r.releases <= r.grants <= 1 && (!r.crashed ==> r.grants == r.releases)
       }
  }

  ghost predicate LinkOk(w: World) {
    && (w.run.linked.Some? ==> w.run.linked.value.1 < w.disk.next)
    && (TraitsOf(w.run.pc).unlinked ==> w.run.linked.None?)
    && (w.run.pc.CompareDestination? || w.run.pc.RecheckContent? || w.run.pc.RecheckNames? ==>
          w.run.linked.Some? ==> w.run.linked.value.0 == w.run.target)
    && ((w.run.pc.Precommitted? || w.run.pc.Collided?) && InPlace(w) ==> w.run.blind)
    && (InPlace(w) && !w.run.blind ==>
          w.arbiter.state.PublicationReserved? || w.arbiter.state.PublicationWon? || w.arbiter.state.Indeterminate?)
  }

  ghost predicate StageOk(w: World) {
    (w.run.pc.ProbeDestination? || w.run.pc.Linking?) && w.manifest.Some? ==>
      (StageShows(w.disk) == w.manifest.value.staged <==> !w.altered)
  }

  ghost predicate Inv(w: World) {
    && DiskOk(w.disk)
    && (Agrees(w) ==> w.seen)
    && A.Coherent(w.arbiter)
    && (w.run.pc != Down ==> w.manifest.Some?)
    && (w.manifest.Some? ==>
          && ManifestOk(w.manifest.value)
          && (w.manifest.value.publication == PublicationCommitted ==> Seen(w))
          && PcOk(w))
    && RunOk(w)
    && LinkOk(w)
    && StageOk(w)
  }

  // ---------------------------------------------------------------------
  // Steps that touch only the manifest, the journal and the program point

  /** A move that cannot disturb the reservation or the link. */
  predicate Undisturbed(from: Traits, to: Traits) {
    && to.plain
    && (to.region == from.region || (from.region == Early && to.region == Late))
    && (to.unlinked ==> from.unlinked)
  }

  /** The part of the invariant such a step must re-establish. */
  ghost predicate Local(w: World) {
    && w.manifest.Some?
    && ManifestOk(w.manifest.value)
    && (w.manifest.value.publication == PublicationCommitted ==> Seen(w))
    && PcOk(w)
  }

  ghost predicate Lands(w: World, next: World) {
    && next.disk == w.disk
    && next.arbiter == w.arbiter
    && next.altered == w.altered
    && next.raced == w.raced
    && next.run == w.run.(pc := next.run.pc)
    && w.run.pc != Down
    && Local(Observe(w, next))
  }

  lemma LandingKeeps(w: World, next: World)
    requires Inv(w) && Lands(w, next) && Undisturbed(TraitsOf(w.run.pc), TraitsOf(next.run.pc))
    ensures Inv(Observe(w, next))
  {
  }

  predicate Flows(w: World, next: World) {
    Undisturbed(TraitsOf(w.run.pc), TraitsOf(next.run.pc))
  }

  lemma ReconcileFlows(w: World, f: Fault)
    requires w.manifest.Some? && w.run.pc != Down && PartOf(w.run.pc) == Reconciling
    ensures Flows(w, ReconcileStep(w, f))
  {
  }

  lemma WriteFlows(w: World, needed: bool, u: Mutation, f: Fault, ok: Pc, failed: Pc)
    requires w.manifest.Some?
    requires Undisturbed(TraitsOf(w.run.pc), TraitsOf(ok)) && Undisturbed(TraitsOf(w.run.pc), TraitsOf(failed))
    ensures Flows(w, WriteIf(w, needed, u, f, ok, failed))
  {
  }

  lemma JournalFlows(w: World, state: JournalState, f: Fault, ok: Pc, failed: Pc)
    requires w.manifest.Some?
    requires Undisturbed(TraitsOf(w.run.pc), TraitsOf(ok)) && Undisturbed(TraitsOf(w.run.pc), TraitsOf(failed))
    ensures Flows(w, WriteJournal(w, state, f, ok, failed))
  {
  }

  lemma ReenterFlows(w: World)
    requires w.manifest.Some? && w.run.pc == Reconciled
    ensures Flows(w, Reenter(w))
  {
  }

  lemma RebindFlows(w: World, f: Fault)
    requires w.manifest.Some? && w.run.pc == Rebinding
    ensures Flows(w, Rebind(w, f))
  {
    WriteFlows(w, w.manifest.value.destination != w.run.target, RebindDestination(w.run.target), f, Pausing, Down);
  }

  lemma PauseFlows(w: World, f: Fault)
    requires w.manifest.Some? && w.run.pc == Pausing
    ensures Flows(w, PauseResidue(w, f))
  {
    var m := w.manifest.value;
    WriteFlows(w, m.status == StatusActive && !w.run.created,
               Transition(m.phase, StatusPaused, DesiredPaused), f, Resuming, Down);
  }

  lemma ResumeFlows(w: World, f: Fault)
    requires w.manifest.Some? && w.run.pc == Resuming
    ensures Flows(w, ResumeStopped(w, f))
  {
    var m := w.manifest.value;
    WriteFlows(w, m.status == StatusPaused || m.status == StatusFailed, Resume, f, Resumed, Down);
  }

  lemma PhaseFlows(w: World, f: Fault)
    requires w.manifest.Some? && w.run.pc == Resumed
    ensures Flows(w, EnterPhase(w, f))
  {
  }

  lemma BuildFlows(w: World, f: Fault)
    requires w.manifest.Some?
    requires w.run.pc.Extracting? || w.run.pc.ToProcessing? || w.run.pc.RecordStaged? || w.run.pc.ToReady?
    ensures Flows(w, BuildStep(w, f))
  {
  }

  lemma AnnounceFlows(w: World, f: Fault)
    requires w.manifest.Some? && (w.run.pc.Publishing? || w.run.pc.ReadyJournal? || w.run.pc.SetPending?)
    ensures Flows(w, ReserveStep(w, f))
  {
  }

  lemma CommitFlows(w: World, f: Fault)
    requires w.manifest.Some? && w.run.pc == SetCommitted
    ensures Flows(w, Commit(w, f))
  {
    WriteFlows(w, w.manifest.value.publication == PublicationPending,
               SetPublication(PublicationCommitted), f, ToCompleted, Finishing);
  }

  lemma CompleteFlows(w: World, f: Fault)
    requires w.manifest.Some? && w.run.pc == ToCompleted
    ensures Flows(w, Complete(w, f))
  {
    WriteFlows(w, w.manifest.value.phase == PhaseReadyToPublish,
               Transition(PhaseCompleted, StatusCompleted, DesiredRunning), f, Finishing, Finishing);
  }

  lemma CollisionFlows(w: World, f: Fault)
    requires w.manifest.Some? && w.run.pc == MarkCollision
    ensures Flows(w, FailCollided(w, f))
  {
    var m := w.manifest.value;
    WriteFlows(w, m.status == StatusActive && m.phase == PhaseReadyToPublish,
               Transition(PhaseReadyToPublish, StatusFailed, DesiredRunning), f, Down, Down);
  }

  lemma DoubtFlows(w: World, f: Fault)
    requires w.manifest.Some? && w.run.pc == MarkDoubtful
    ensures Flows(w, RecordDoubt(w, f))
  {
    var m := w.manifest.value;
    WriteFlows(w, m.status == StatusActive && m.publication == PublicationPending,
               SetPublication(PublicationIndeterminate), f, Down, Down);
  }

  lemma PauseRunFlows(w: World, f: Fault)
    requires w.manifest.Some? && w.run.pc.Interrupted?
    ensures Flows(w, PauseRun(w, f))
  {
    var m := w.manifest.value;
    WriteFlows(w, m.status == StatusActive, Transition(m.phase, StatusPaused, DesiredPaused), f, Down, Down);
  }

  lemma OpenLands(w: World)
    requires Local(w) && w.run.pc == Opened
    ensures Lands(w, Goto(w, if w.manifest.value.status == StatusNeedsReconciliation then ReadJournal else Reconciled))
  {
  }

  lemma EvidenceFound(w: World)
    requires Local(w) && w.run.pc == ReadJournal && Agrees(w)
    ensures Lands(w, Goto(w, if w.manifest.value.publication == PublicationIndeterminate
                             then ResolveCommitted else CloseCommitted))
  {
  }

  lemma EvidenceMissing(w: World, pc: Pc)
    requires Local(w) && w.run.pc == ReadJournal
    requires pc == Down || (pc == ProbeUnpublished && w.manifest.value.publication == PublicationIndeterminate)
    ensures Lands(w, Goto(w, pc))
  {
  }

  lemma EvidenceLands(w: World, f: Fault)
    requires Local(w) && w.run.pc == ReadJournal
    ensures Lands(w, WeighEvidence(w, f))
  {
    var pc := WeighEvidence(w, f).run.pc;
    assert WeighEvidence(w, f) == Goto(w, pc);
    if pc == Down || pc == ProbeUnpublished {
      EvidenceMissing(w, pc);
    } else {
      EvidenceFound(w);
    }
  }

  lemma AbsenceLands(w: World, f: Fault)
    requires Local(w) && w.run.pc == ProbeUnpublished
    ensures Lands(w, WeighAbsence(w, f))
  {
  }

  lemma ResolveCommittedLands(w: World, f: Fault)
    requires Local(w) && w.run.pc == ResolveCommitted
    ensures Lands(w, WriteManifest(w, ResolvePublication(PublicationCommitted), f, CloseCommitted, Down))
  {
  }

  lemma CloseCommittedLands(w: World, f: Fault)
    requires Local(w) && w.run.pc == CloseCommitted
    ensures Lands(w, WriteManifest(w, ResolveReconciliation(StatusCompleted, DesiredRunning), f, Reconciled, Down))
  {
  }

  lemma ResolvePendingLands(w: World, f: Fault)
    requires Local(w) && w.run.pc == ResolvePending
    ensures Lands(w, WriteManifest(w, ResolvePublication(PublicationPending), f, CloseFailed, Down))
  {
  }

  lemma CloseFailedLands(w: World, f: Fault)
    requires Local(w) && w.run.pc == CloseFailed
    ensures Lands(w, WriteManifest(w, ResolveReconciliation(StatusFailed, DesiredRunning), f, Reconciled, Down))
  {
  }

  lemma ReenterLands(w: World)
    requires Local(w) && w.run.pc == Reconciled
    ensures Lands(w, Reenter(w))
  {
  }

  lemma RebindLands(w: World, f: Fault)
    requires Local(w) && w.run.pc == Rebinding
    ensures Lands(w, Rebind(w, f))
  {
  }

  lemma PauseLands(w: World, f: Fault)
    requires Local(w) && w.run.pc == Pausing
    ensures Lands(w, PauseResidue(w, f))
  {
  }

  lemma ResumeLands(w: World, f: Fault)
    requires Local(w) && w.run.pc == Resuming
    ensures Lands(w, ResumeStopped(w, f))
  {
  }

  lemma FirstPhaseLands(w: World, f: Fault)
    requires Local(w) && w.run.pc == Resumed && w.manifest.value.phase == PhasePrepared
    ensures Lands(w, EnterPhase(w, f))
  {
  }

  lemma LaterPhaseLands(w: World)
    requires Local(w) && w.run.pc == Resumed && w.manifest.value.phase != PhasePrepared
    ensures Lands(w, Goto(w, EntryOf(w.manifest.value.phase)))
  {
  }

  lemma PhaseLands(w: World, f: Fault)
    requires Local(w) && w.run.pc == Resumed
    ensures Lands(w, EnterPhase(w, f))
  {
    if w.manifest.value.phase == PhasePrepared {
      FirstPhaseLands(w, f);
    } else {
      LaterPhaseLands(w);
      assert EnterPhase(w, f) == Goto(w, EntryOf(w.manifest.value.phase));
    }
  }

  lemma StopLands(w: World, pc: Pc)
    requires Local(w) && w.run.pc == Resumed && (pc == Down || pc.Interrupted?)
    ensures Lands(w, Goto(w, pc))
  {
  }

  lemma ExtractLands(w: World, f: Fault)
    requires Local(w) && w.run.pc == Extracting
    ensures Lands(w, WriteManifest(w, Transition(PhaseDownloading, StatusActive, DesiredRunning), f, Fetching, Down))
  {
  }

  lemma ProcessLands(w: World, f: Fault)
    requires Local(w) && w.run.pc == ToProcessing
    ensures Lands(w, WriteIf(w, w.manifest.value.phase == PhaseDownloading,
                             Transition(PhaseProcessing, StatusActive, DesiredRunning), f,
                             if w.run.multi then Merging else Staging, Down))
  {
  }

  lemma RecordLands(w: World, f: Fault)
    requires Local(w) && w.run.pc == RecordStaged
    ensures Lands(w, Record(w, f))
  {
    var payload := w.disk.payload;
    if payload.Some? && |payload.value| <= MaxBytes {
      RecordedIsOk(w.manifest.value, Sha256(payload.value), |payload.value|);
      RecordedLands(w, Sha256(payload.value), |payload.value|, f);
    } else {
      assert Record(w, f) == Goto(w, Down);
    }
  }

  lemma RecordedLands(w: World, staged: Fingerprint, bytes: nat, f: Fault)
    requires Local(w) && w.run.pc == RecordStaged
    requires
      var r := Apply(w.manifest.value, SetStagedOutput(staged, bytes));
      r.Some? ==> Recorded(w.manifest.value, r.value)
    ensures Lands(w, WriteIf(w, true, SetStagedOutput(staged, bytes), f, ToReady, Down))
  {
  }

  /** Everything but the staged output, and with a staged output. */
  ghost predicate Recorded(m: Manifest, r: Manifest) {
    && ManifestOk(r)
    && r.phase == m.phase
    && r.status == m.status
    && r.publication == m.publication
    && r.destination == m.destination
    && r.staged.Some?
  }

  lemma RecordedIsOk(m: Manifest, staged: Fingerprint, bytes: nat)
    requires ManifestOk(m) && m.phase == PhaseProcessing && bytes <= MaxBytes
    ensures
      var r := Apply(m, SetStagedOutput(staged, bytes));
      r.Some? ==> Recorded(m, r.value)
  {
  }

  lemma ReadyLands(w: World, f: Fault)
    requires Local(w) && w.run.pc == ToReady
    ensures Lands(w, WriteManifest(w, Transition(PhaseReadyToPublish, StatusActive, DesiredRunning), f,
                                   Publishing, Down))
  {
  }

  lemma EnterPublishLands(w: World, f: Fault)
    requires Local(w) && w.run.pc == Publishing
    ensures Lands(w, EnterPublish(w, f))
  {
  }

  lemma ReadyJournalLands(w: World, f: Fault)
    requires Local(w) && w.run.pc == ReadyJournal
    ensures Lands(w, WriteJournal(w, JournalReady, f, SetPending, Down))
  {
  }

  lemma PendingLands(w: World, f: Fault)
    requires Local(w) && w.run.pc == SetPending
    ensures Lands(w, WriteManifest(w, SetPublication(PublicationPending), f, Publishing, Down))
  {
  }

  lemma PublishedJournalLands(w: World, f: Fault)
    requires Local(w) && w.run.pc == PublishedJournal
    ensures Lands(w, WriteJournal(w, JournalPublished, f, SetCommitted, SetCommitted))
  {
  }

  lemma CommitUnwritten(w: World, pc: Pc)
    requires Local(w) && w.run.pc == SetCommitted
    requires pc == Finishing || (pc == ToCompleted && w.manifest.value.publication == PublicationCommitted)
    ensures Lands(w, Goto(w, pc))
  {
  }

  lemma CommitWritten(w: World, m: Manifest, pc: Pc)
    requires Local(w) && w.run.pc == SetCommitted && (pc == Finishing || pc == ToCompleted)
    requires m == w.manifest.value.(publication := PublicationCommitted, revision := w.manifest.value.revision + 1)
    ensures Lands(w, Goto(w, pc).(manifest := Some(m)))
  {
  }

  lemma CommitLands(w: World, f: Fault)
    requires Local(w) && w.run.pc == SetCommitted
    ensures Lands(w, Commit(w, f))
  {
    var m, next := w.manifest.value, Commit(w, f);
    if next.manifest == w.manifest {
      assert next == Goto(w, next.run.pc);
      CommitUnwritten(w, next.run.pc);
    } else {
      assert next == Goto(w, next.run.pc).(manifest := next.manifest);
      CommitWritten(w, next.manifest.value, next.run.pc);
    }
  }

  lemma CompleteLands(w: World, f: Fault)
    requires Local(w) && w.run.pc == ToCompleted
    ensures Lands(w, Complete(w, f))
  {
    assert Complete(w, f).manifest == w.manifest || Complete(w, f).manifest.value.phase == PhaseCompleted;
  }

  lemma CollisionJournalLands(w: World, f: Fault)
    requires Local(w) && w.run.pc == CollisionJournal
    ensures Lands(w, WriteJournal(w, JournalCollision, f, MarkCollision, MarkCollision))
  {
  }

  lemma CollisionLands(w: World, f: Fault)
    requires Local(w) && w.run.pc == MarkCollision
    ensures Lands(w, FailCollided(w, f))
  {
  }

  lemma DoubtJournalLands(w: World, f: Fault)
    requires Local(w) && w.run.pc == DoubtfulJournal
    ensures Lands(w, WriteJournal(w, JournalIndeterminate, f, MarkDoubtful, MarkDoubtful))
  {
  }

  lemma DoubtLands(w: World, f: Fault)
    requires Local(w) && w.run.pc == MarkDoubtful
    ensures Lands(w, RecordDoubt(w, f))
  {
  }

  // ---------------------------------------------------------------------
  // Steps that touch the disk, the arbiter or the link

  lemma FetchKeeps(w: World, f: Fault)
    requires Inv(w) && w.manifest.Some? && w.run.pc == Fetching
    ensures Inv(Observe(w, Fetch(w, f)))
  {
  }

  lemma StageKeeps(w: World, f: Fault)
    requires Inv(w) && w.manifest.Some? && w.run.pc == Staging
    ensures Inv(Observe(w, Stage(w, f)))
  {
  }

  lemma MergeKeeps(w: World, f: Fault)
    requires Inv(w) && w.manifest.Some? && w.run.pc == Merging
    ensures Inv(Observe(w, Merge(w, f)))
  {
  }

  lemma ReserveKeeps(w: World, f: Fault)
    requires Inv(w) && w.manifest.Some? && w.run.pc == Reserving
    ensures Inv(Observe(w, Reserve(w, f)))
  {
  }

  lemma AnnounceKeeps(w: World, f: Fault)
    requires Inv(w) && w.manifest.Some? && w.run.pc == PublishingJournal
    ensures Inv(Observe(w, WriteJournal(w, JournalPublishing, f, CheckStage, Precommitted)))
  {
  }

  lemma CheckKeeps(w: World, f: Fault)
    requires Inv(w) && w.manifest.Some? && w.run.pc == CheckStage
    ensures Inv(Observe(w, CompareStage(w, f)))
  {
  }

  lemma LookFindsOther(w: World, pc: Pc)
    requires Inv(w) && w.manifest.Some? && w.run.pc == ProbeDestination
    requires pc == Doubtful || pc == CompareDestination || pc == Collided
    ensures Inv(Observe(w, Goto(w, pc)))
  {
  }

  lemma LookFindsFree(w: World)
    requires Inv(w) && w.manifest.Some? && w.run.pc == ProbeDestination
    ensures Inv(Observe(w, Goto(w, Linking)))
  {
  }

  lemma LookKeeps(w: World, f: Fault)
    requires Inv(w) && w.manifest.Some? && w.run.pc == ProbeDestination
    ensures Inv(Observe(w, LookAtDestination(w, f)))
  {
    var pc := LookAtDestination(w, f).run.pc;
    if pc == Linking {
      LookFindsFree(w);
    } else {
      LookFindsOther(w, pc);
    }
    assert LookAtDestination(w, f) == Goto(w, pc);
  }

  lemma LinkKeeps(w: World, f: Fault)
    requires Inv(w) && w.manifest.Some? && w.run.pc == Linking
    ensures Inv(Observe(w, Link(w, f)))
  {
    LinkKeepsFiles(w, f);
    LinkKeepsLink(w, f);
    LinkKeepsSight(w, f);
    LinkKeepsRest(w, Observe(w, Link(w, f)));
  }

  lemma LinkKeepsFiles(w: World, f: Fault)
    requires DiskOk(w.disk) && w.manifest.Some?
    ensures DiskOk(Link(w, f).disk)
  {
  }

  lemma LinkKeepsLink(w: World, f: Fault)
    requires DiskOk(w.disk) && w.manifest.Some? && w.run.linked.None? && w.manifest.value.destination == w.run.target
    requires w.arbiter.state == A.PublicationReserved
    ensures LinkOk(Observe(w, Link(w, f)))
  {
  }

  lemma LinkKeepsSight(w: World, f: Fault)
    requires DiskOk(w.disk) && w.manifest.Some? && w.manifest.value.staged.Some?
    requires StageShows(w.disk) == w.manifest.value.staged <==> !w.altered
    ensures
      var v := Observe(w, Link(w, f));
      && v.manifest == w.manifest && v.arbiter == w.arbiter && (Seen(w) ==> Seen(v))
      && v.run == w.run.(pc := v.run.pc, linked := v.run.linked)
      && ((v.run.pc == Replaced && Seen(v)) || v.run.pc == CompareDestination || v.run.pc == RecheckContent)
  {
  }

  lemma LinkKeepsRest(w: World, v: World)
    requires Inv(w) && w.manifest.Some? && w.run.pc == Linking
    requires DiskOk(v.disk) && LinkOk(v) && (Agrees(v) ==> v.seen)
    requires v.manifest == w.manifest && v.arbiter == w.arbiter && (Seen(w) ==> Seen(v))
    requires v.run == w.run.(pc := v.run.pc, linked := v.run.linked)
    requires (v.run.pc == Replaced && Seen(v)) || v.run.pc == CompareDestination || v.run.pc == RecheckContent
    ensures Inv(v)
  {
  }

  lemma RecheckContentKeeps(w: World, f: Fault)
    requires Inv(w) && w.manifest.Some? && w.run.pc == RecheckContent
    ensures Inv(Observe(w, Goto(w, if Agrees(w) && !f.unreadable then Replaced else RecheckNames)))
  {
  }

  lemma RecheckNamesKeeps(w: World, f: Fault)
    requires Inv(w) && w.manifest.Some? && w.run.pc == RecheckNames
    ensures Inv(Observe(w, RecheckBoth(w, f)))
  {
  }

  lemma AbortKeeps(w: World)
    requires Inv(w) && w.manifest.Some? && w.run.pc == Precommitted
    ensures Inv(Observe(w, Conclude(w, A.AbortBeforeReplace, Down)))
  {
  }

  lemma CollideKeeps(w: World)
    requires Inv(w) && w.manifest.Some? && w.run.pc == Collided
    ensures Inv(Observe(w, Conclude(w, A.AbortBeforeReplace, CollisionJournal)))
  {
  }

  lemma ReplaceKeeps(w: World)
    requires Inv(w) && w.manifest.Some? && w.run.pc == Replaced
    ensures Inv(Observe(w, Conclude(w, A.MarkDestinationReplaced, PublishedJournal)))
  {
  }

  lemma DoubtKeeps(w: World)
    requires Inv(w) && w.manifest.Some? && w.run.pc == Doubtful
    ensures Inv(Observe(w, Conclude(w, A.MarkIndeterminate, DoubtfulJournal)))
  {
  }

  lemma FinishKeeps(w: World)
    requires Inv(w) && w.manifest.Some? && w.run.pc == Finishing
    ensures Inv(Observe(w, Conclude(w, A.FinishPublication, Down)))
  {
  }

  lemma PauseRunLands(w: World, f: Fault)
    requires Local(w) && w.run.pc.Interrupted?
    ensures Lands(w, PauseRun(w, f))
  {
  }

  lemma DiscardKeeps(w: World, f: Fault)
    requires Inv(w) && w.manifest.Some? && w.run.pc.Interrupted?
    ensures Inv(Observe(w, Discard(w, f)))
  {
  }

  /** A foreign change to the directory never restores a link, and alters the stage only by writing to it. */
  lemma DiskKeeps(w: World, d: Disk, altered: bool)
    requires Inv(w) && DiskOk(d) && w.disk.next <= d.next
    requires InPlace(w.(disk := d)) ==> InPlace(w)
    requires (StageShows(d) == StageShows(w.disk) && altered == w.altered)
             || (w.manifest.Some? ==> (altered <==> StageShows(d) != w.manifest.value.staged))
    ensures Inv(Observe(w, w.(disk := d, altered := altered)))
  {
  }

  lemma ForeignCreateKeeps(w: World, e: Event)
    requires Inv(w) && e.ForeignCreate?
    ensures Inv(Next(w, e))
  {
    DiskKeeps(w, ForeignStep(w, e).disk, w.altered);
  }

  lemma ForeignKeeps(w: World, e: Event)
    requires Inv(w) && (e.ForeignIrregular? || e.ForeignRemove?)
    ensures Inv(Next(w, e))
  {
    DiskKeeps(w, ForeignStep(w, e).disk, w.altered);
  }

  lemma ForeignWriteKeeps(w: World, e: Event)
    requires Inv(w) && e.ForeignWrite?
    ensures Inv(Next(w, e))
  {
    DiskKeeps(w, ForeignStep(w, e).disk, ForeignStep(w, e).altered);
  }

  lemma StartKeeps(w: World, e: Event)
    requires Inv(w) && e.Start?
    ensures Inv(Next(w, e))
  {
  }

  lemma BeginCancelKeeps(w: World, e: Event)
    requires Inv(w) && e.BeginCancel?
    ensures Inv(Next(w, e))
  {
  }

  lemma EndCancelKeeps(w: World, e: Event)
    requires Inv(w) && e.EndCancel?
    ensures Inv(Next(w, e))
  {
  }

  lemma CrashKeeps(w: World)
    requires Inv(w)
    ensures Inv(Next(w, Crash))
  {
  }

  // ---------------------------------------------------------------------
  // Together

  lemma ReconcileKeeps(w: World, f: Fault)
    requires Inv(w) && w.manifest.Some? && w.run.pc != Down && PartOf(w.run.pc) == Reconciling
    ensures Inv(Observe(w, ReconcileStep(w, f)))
  {
    match w.run.pc
    case Opened => OpenLands(w); ReconcileFlows(w, f); LandingKeeps(w, ReconcileStep(w, f));
    case ReadJournal => EvidenceLands(w, f); ReconcileFlows(w, f); LandingKeeps(w, ReconcileStep(w, f));
    case ProbeUnpublished => AbsenceLands(w, f); ReconcileFlows(w, f); LandingKeeps(w, ReconcileStep(w, f));
    case ResolveCommitted => ResolveCommittedLands(w, f); ReconcileFlows(w, f); LandingKeeps(w, ReconcileStep(w, f));
    case CloseCommitted => CloseCommittedLands(w, f); ReconcileFlows(w, f); LandingKeeps(w, ReconcileStep(w, f));
    case ResolvePending => ResolvePendingLands(w, f); ReconcileFlows(w, f); LandingKeeps(w, ReconcileStep(w, f));
    case CloseFailed => CloseFailedLands(w, f); ReconcileFlows(w, f); LandingKeeps(w, ReconcileStep(w, f));
  }

  lemma PrepareKeeps(w: World, f: Fault)
    requires Inv(w) && w.manifest.Some? && w.run.pc != Down && PartOf(w.run.pc) == Preparing
    ensures Inv(Observe(w, PrepareStep(w, f)))
  {
    match w.run.pc
    case Reconciled => ReenterLands(w); ReenterFlows(w); LandingKeeps(w, Reenter(w));
    case Rebinding => RebindLands(w, f); RebindFlows(w, f); LandingKeeps(w, Rebind(w, f));
    case Pausing => PauseLands(w, f); PauseFlows(w, f); LandingKeeps(w, PauseResidue(w, f));
    case Resuming => ResumeLands(w, f); ResumeFlows(w, f); LandingKeeps(w, ResumeStopped(w, f));
    case Resumed => ResumedKeeps(w, f);
  }

  lemma StopKeeps(w: World, pc: Pc)
    requires Inv(w) && w.manifest.Some? && w.run.pc == Resumed && (pc == Down || pc.Interrupted?)
    ensures Inv(Observe(w, Goto(w, pc)))
  {
    StopLands(w, pc);
    LandingKeeps(w, Goto(w, pc));
  }

  lemma PhaseKeeps(w: World, f: Fault)
    requires Inv(w) && w.manifest.Some? && w.run.pc == Resumed
    ensures Inv(Observe(w, EnterPhase(w, f)))
  {
    PhaseLands(w, f);
    PhaseFlows(w, f);
    LandingKeeps(w, EnterPhase(w, f));
  }

  lemma ResumedKeeps(w: World, f: Fault)
    requires Inv(w) && w.manifest.Some? && w.run.pc == Resumed
    ensures Inv(Observe(w, PrepareStep(w, f)))
  {
    if f.refused {
      StopKeeps(w, Down);
    } else if f.signal == Quiet {
      PhaseKeeps(w, f);
    } else {
      StopKeeps(w, Interrupted(f.signal == PauseRequested));
    }
  }

  lemma BuildKeeps(w: World, f: Fault)
    requires Inv(w) && w.manifest.Some? && w.run.pc != Down && PartOf(w.run.pc) == Building
    ensures Inv(Observe(w, BuildStep(w, f)))
  {
    match w.run.pc
    case Extracting => ExtractLands(w, f); BuildFlows(w, f); LandingKeeps(w, BuildStep(w, f));
    case Fetching => FetchKeeps(w, f);
    case ToProcessing => ProcessLands(w, f); BuildFlows(w, f); LandingKeeps(w, BuildStep(w, f));
    case Staging => StageKeeps(w, f);
    case Merging => MergeKeeps(w, f);
    case RecordStaged => RecordLands(w, f); BuildFlows(w, f); LandingKeeps(w, BuildStep(w, f));
    case ToReady => ReadyLands(w, f); BuildFlows(w, f); LandingKeeps(w, BuildStep(w, f));
  }

  lemma AnnouncingKeeps(w: World, f: Fault)
    requires Inv(w) && w.manifest.Some? && w.run.pc != Down && PartOf(w.run.pc) == Announcing
    ensures Inv(Observe(w, ReserveStep(w, f)))
  {
    match w.run.pc
    case Publishing => EnterPublishLands(w, f); AnnounceFlows(w, f); LandingKeeps(w, ReserveStep(w, f));
    case ReadyJournal => ReadyJournalLands(w, f); AnnounceFlows(w, f); LandingKeeps(w, ReserveStep(w, f));
    case SetPending => PendingLands(w, f); AnnounceFlows(w, f); LandingKeeps(w, ReserveStep(w, f));
    case Reserving => ReserveKeeps(w, f);
    case PublishingJournal => AnnounceKeeps(w, f);
  }

  lemma CompareKeeps(w: World, f: Fault)
    requires Inv(w) && w.manifest.Some? && w.run.pc == CompareDestination
    ensures Inv(Observe(w, CompareBytes(w, f)))
  {
  }

  lemma ReplacingKeeps(w: World, f: Fault)
    requires Inv(w) && w.manifest.Some? && w.run.pc != Down && PartOf(w.run.pc) == Replacing
    ensures Inv(Observe(w, LinkStep(w, f)))
  {
    match w.run.pc
    case CheckStage => CheckKeeps(w, f);
    case ProbeDestination => LookKeeps(w, f);
    case CompareDestination => CompareKeeps(w, f);
    case Linking => LinkKeeps(w, f);
    case RecheckContent => RecheckContentKeeps(w, f);
    case RecheckNames => RecheckNamesKeeps(w, f);
  }

  lemma CommitKeeps(w: World, f: Fault)
    requires Inv(w) && w.manifest.Some? && w.run.pc == SetCommitted
    ensures Inv(Observe(w, Commit(w, f)))
  {
    CommitLands(w, f);
    CommitFlows(w, f);
    LandingKeeps(w, Commit(w, f));
  }

  lemma CompleteKeeps(w: World, f: Fault)
    requires Inv(w) && w.manifest.Some? && w.run.pc == ToCompleted
    ensures Inv(Observe(w, Complete(w, f)))
  {
    CompleteLands(w, f);
    CompleteFlows(w, f);
    LandingKeeps(w, Complete(w, f));
  }

  lemma SettleKeeps(w: World, f: Fault)
    requires Inv(w) && w.manifest.Some? && w.run.pc != Down && PartOf(w.run.pc) == Settling
    ensures Inv(Observe(w, SettleStep(w, f)))
  {
    match w.run.pc
    case Precommitted => AbortKeeps(w);
    case Replaced => ReplaceKeeps(w);
    case Finishing => FinishKeeps(w);
    case PublishedJournal => PublishedJournalLands(w, f); LandingKeeps(w, SettleStep(w, f));
    case SetCommitted => CommitKeeps(w, f);
    case ToCompleted => CompleteKeeps(w, f);
  }

  lemma CollisionJournalKeeps(w: World, f: Fault)
    requires Inv(w) && w.manifest.Some? && w.run.pc == CollisionJournal
    ensures Inv(Observe(w, WriteJournal(w, JournalCollision, f, MarkCollision, MarkCollision)))
  {
    CollisionJournalLands(w, f);
    JournalFlows(w, JournalCollision, f, MarkCollision, MarkCollision);
    LandingKeeps(w, WriteJournal(w, JournalCollision, f, MarkCollision, MarkCollision));
  }

  lemma CollisionKeeps(w: World, f: Fault)
    requires Inv(w) && w.manifest.Some? && w.run.pc == MarkCollision
    ensures Inv(Observe(w, FailCollided(w, f)))
  {
    CollisionLands(w, f);
    CollisionFlows(w, f);
    LandingKeeps(w, FailCollided(w, f));
  }

  lemma DoubtJournalKeeps(w: World, f: Fault)
    requires Inv(w) && w.manifest.Some? && w.run.pc == DoubtfulJournal
    ensures Inv(Observe(w, WriteJournal(w, JournalIndeterminate, f, MarkDoubtful, MarkDoubtful)))
  {
    DoubtJournalLands(w, f);
    JournalFlows(w, JournalIndeterminate, f, MarkDoubtful, MarkDoubtful);
    LandingKeeps(w, WriteJournal(w, JournalIndeterminate, f, MarkDoubtful, MarkDoubtful));
  }

  lemma RecordDoubtKeeps(w: World, f: Fault)
    requires Inv(w) && w.manifest.Some? && w.run.pc == MarkDoubtful
    ensures Inv(Observe(w, RecordDoubt(w, f)))
  {
    DoubtLands(w, f);
    DoubtFlows(w, f);
    LandingKeeps(w, RecordDoubt(w, f));
  }

  lemma PauseRunKeeps(w: World, f: Fault)
    requires Inv(w) && w.manifest.Some? && w.run.pc.Interrupted?
    ensures Inv(Observe(w, PauseRun(w, f)))
  {
    PauseRunLands(w, f);
    PauseRunFlows(w, f);
    LandingKeeps(w, PauseRun(w, f));
  }

  lemma RecoverKeeps(w: World, f: Fault)
    requires Inv(w) && w.manifest.Some? && w.run.pc != Down && PartOf(w.run.pc) == Recovering
    ensures Inv(Observe(w, RecoverStep(w, f)))
  {
    match w.run.pc
    case Collided => CollideKeeps(w);
    case Doubtful => DoubtKeeps(w);
    case CollisionJournal => CollisionJournalKeeps(w, f);
    case MarkCollision => CollisionKeeps(w, f);
    case DoubtfulJournal => DoubtJournalKeeps(w, f);
    case MarkDoubtful => RecordDoubtKeeps(w, f);
    case Interrupted(pause) =>
      if pause {
        PauseRunKeeps(w, f);
      } else {
        DiscardKeeps(w, f);
      }
  }

  /** The parts of a run before the reservation is settled, and those after it. */
  predicate Unsettled(part: Part) {
    part == Building || part == Announcing || part == Replacing
  }

  lemma UnsettledKeeps(w: World, f: Fault)
    requires Inv(w) && w.manifest.Some? && w.run.pc != Down && Unsettled(PartOf(w.run.pc))
    ensures Inv(Observe(w, EngineStep(w, f)))
  {
    match PartOf(w.run.pc) {
      case Building => BuildKeeps(w, f); return;
      case Announcing => AnnouncingKeeps(w, f); return;
      case Replacing => ReplacingKeeps(w, f); return;
    }
  }

  lemma EngineKeeps(w: World, f: Fault)
    requires Inv(w)
    ensures Inv(Observe(w, EngineStep(w, f)))
  {
    if w.manifest.Some? && w.run.pc != Down {
      if Unsettled(PartOf(w.run.pc)) {
        UnsettledKeeps(w, f);
        return;
      }
      match PartOf(w.run.pc) {
        case Reconciling => ReconcileKeeps(w, f); return;
        case Preparing => PrepareKeeps(w, f); return;
        case Settling => SettleKeeps(w, f); return;
        case Recovering => RecoverKeeps(w, f); return;
      }
    }
  }

  lemma StepKeeps(w: World, e: Event)
    requires Inv(w)
    ensures Inv(Next(w, e))
  {
    match e
    case Engine(f) => EngineKeeps(w, f);
    case Start(_, _) => StartKeeps(w, e);
    case Crash => CrashKeeps(w);
    case BeginCancel(_) => BeginCancelKeeps(w, e);
    case EndCancel(_, _) => EndCancelKeeps(w, e);
    case ForeignCreate(_, _) => ForeignCreateKeeps(w, e);
    case ForeignWrite(_, _) => ForeignWriteKeeps(w, e);
    case _ => ForeignKeeps(w, e);
  }

  /** The invariant holds after every history: any runs, crashes, faults, cancels and foreign files. */
  lemma {:induction false} AlwaysInv(es: seq<Event>)
    ensures Inv(Run(es))
  {
    if es != [] {
      AlwaysInv(es[..|es| - 1]);
      StepKeeps(Run(es[..|es| - 1]), es[|es| - 1]);
    }
  }
}
