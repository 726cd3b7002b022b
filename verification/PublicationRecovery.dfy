/**
 What a restart achieves. A calm run is one in which no fault, cancel or foreign
 process interferes; it is the deterministic behaviour of the engine alone.
 */
module PublicationRecovery {
  import opened Common
  import opened SessionManifest
  import opened PublicationProtocol
  import opened PublicationInvariant
  import A = ArbiterSpec

  function Calmly(w: World, k: nat): World
    decreases k
  {
    if k == 0 then w else Calmly(Next(w, Engine(Calm)), k - 1)
  }

  // ---------------------------------------------------------------------
  // Convergence

  /** How many calm steps are left; the detour that records Pending comes before the reservation. */
  function Rank(w: World): nat {
    match w.run.pc
    case Opened => 30
    case Reconciled => 29
    case Rebinding => 28
    case Pausing => 27
    case Resuming => 26
    case Resumed => 25
    case Extracting => 24
    case Fetching => 23
    case ToProcessing => 22
    case Staging => 21
    case Merging => 21
    case RecordStaged => 20
    case ToReady => 19
    case Publishing =>
      if w.manifest.Some? && w.manifest.value.publication == PublicationNotStarted then 18 else 15
    case ReadyJournal => 17
    case SetPending => 16
    case Reserving => 14
    case PublishingJournal => 13
    case CheckStage => 12
    case ProbeDestination => 11
    case Linking => 10
    case CompareDestination => 9
    case Replaced => 8
    case PublishedJournal => 7
    case SetCommitted => 6
    case ToCompleted => 5
    case Finishing => 4
    case _ => 0
  }

  predicate IsReady(m: Manifest) {
    m.phase == PhaseReadyToPublish || m.phase == PhaseCompleted
  }

  /** The destination is free or already the staged output. */
  predicate Unobstructed(w: World)
    requires w.manifest.Some?
  {
    w.manifest.value.destination !in w.disk.dir || Agrees(w)
  }

  /** The payload, once there is one, can be staged, and the stage of a ready session is intact. */
  predicate Intact(w: World)
    requires w.manifest.Some?
  {
    var m := w.manifest.value;
    && (!IsReady(m) && w.disk.payload.Some? ==> |w.disk.payload.value| <= MaxBytes)
    && (m.phase == PhaseProcessing ==> w.disk.payload.Some?)
    && (m.phase == PhaseReadyToPublish ==> StageShows(w.disk) == m.staged)
  }

  /** What a multi-track session finds where it stages: its recorded output, or nothing. */
  predicate Mergeable(w: World)
    requires w.manifest.Some?
  {
    if w.manifest.value.staged.Some? then StageShows(w.disk) == w.manifest.value.staged else w.disk.stage.None?
  }

  /** A calm run on its way to Completed; `start` is the world it found. */
  predicate Track(start: World, w: World)
    requires start.manifest.Some?
  {
    && w.manifest.Some?
    && var m := w.manifest.value;
    && m.status != StatusNeedsReconciliation
    && m.destination == w.run.target == start.manifest.value.destination
    && (m.destination in start.disk.dir ==> w.disk == start.disk)
    && (IsReady(start.manifest.value) ==> m.staged == start.manifest.value.staged && IsReady(m))
    && Intact(w)
    && (w.run.multi && !IsReady(m) && !w.run.pc.RecordStaged? ==> Mergeable(w))
    && (if IsReady(m) then Unobstructed(w) else m.destination !in w.disk.dir)
    && (m.phase == PhaseCompleted ==> Agrees(w))
    && !w.run.crashed
    && (TraitsOf(w.run.pc).region == Early ==> w.arbiter.state == A.Open)
    && match w.run.pc {
         case Down => m.phase == PhaseCompleted
         case Linking => m.destination !in w.disk.dir
         case CompareDestination => m.destination in w.disk.dir
         case Replaced => Agrees(w)
         case PublishedJournal => Agrees(w)
         case SetCommitted => Agrees(w)
         case ToCompleted => Agrees(w)
         case Finishing => m.phase == PhaseCompleted
         case ToProcessing => w.disk.payload.Some?
         case Staging => w.disk.payload.Some?
         case Merging => w.disk.payload.Some? && w.run.multi
         case RecordStaged => w.disk.payload.Some? && StageShows(w.disk) == Some(Sha256(w.disk.payload.value))
         case ToReady => w.disk.payload.Some? && StageShows(w.disk) == m.staged
         case _ => Rank(w) > 0
       }
  }

  /** Not yet at the look at the destination, and with something left to publish. */
  predicate Looking(w: World) {
    w.manifest.Some? && w.manifest.value.phase != PhaseCompleted && Rank(w) > 11
  }

  /** One calm step stays on the track, comes closer to its end, and does not skip the look at the destination. */
  ghost predicate Advances(start: World, w: World, next: World)
    requires start.manifest.Some?
  {
    && Track(start, Observe(w, next))
    && Rank(Observe(w, next)) < Rank(w)
    && (Looking(w) ==> Looking(Observe(w, next)) || Observe(w, next).run.pc == ProbeDestination)
  }

  lemma OpenAdvances(start: World, w: World)
    requires start.manifest.Some? && Local(w) && Track(start, w) && w.run.pc == Opened
    ensures Advances(start, w, Goto(w, if w.manifest.value.status == StatusNeedsReconciliation then ReadJournal
                                       else Reconciled))
  {
  }

  lemma ReenterAdvances(start: World, w: World)
    requires start.manifest.Some? && Local(w) && Track(start, w) && w.run.pc == Reconciled
    ensures Advances(start, w, Reenter(w))
  {
  }

  lemma RebindAdvances(start: World, w: World)
    requires start.manifest.Some? && Local(w) && Track(start, w) && w.run.pc == Rebinding
    ensures Advances(start, w, Rebind(w, Calm))
  {
  }

  lemma PauseAdvances(start: World, w: World)
    requires start.manifest.Some? && Local(w) && Track(start, w) && w.run.pc == Pausing
    ensures Advances(start, w, PauseResidue(w, Calm))
  {
  }

  lemma ResumeAdvances(start: World, w: World)
    requires start.manifest.Some? && Local(w) && Track(start, w) && w.run.pc == Resuming
    ensures Advances(start, w, ResumeStopped(w, Calm))
  {
  }

  lemma PhaseAdvances(start: World, w: World)
    requires start.manifest.Some? && Local(w) && Track(start, w) && w.run.pc == Resumed
    ensures Advances(start, w, EnterPhase(w, Calm))
  {
    var v := EnterPhase(w, Calm);
    if w.manifest.value.phase == PhasePrepared {
      assert v.manifest == Apply(w.manifest.value, Transition(PhaseExtracting, StatusActive, DesiredRunning));
    } else {
      assert v == Goto(w, EntryOf(w.manifest.value.phase));
    }
  }

  lemma ExtractAdvances(start: World, w: World)
    requires start.manifest.Some? && Local(w) && Track(start, w) && w.run.pc == Extracting
    ensures Advances(start, w, WriteManifest(w, Transition(PhaseDownloading, StatusActive, DesiredRunning), Calm,
                                             Fetching, Down))
  {
  }

  lemma FetchAdvances(start: World, w: World)
    requires start.manifest.Some? && Local(w) && Track(start, w) && w.run.pc == Fetching
    ensures Advances(start, w, Fetch(w, Calm))
  {
  }

  lemma ProcessAdvances(start: World, w: World)
    requires start.manifest.Some? && Local(w) && Track(start, w) && w.run.pc == ToProcessing
    ensures Advances(start, w, WriteIf(w, w.manifest.value.phase == PhaseDownloading,
                                       Transition(PhaseProcessing, StatusActive, DesiredRunning), Calm,
                                       if w.run.multi then Merging else Staging, Down))
  {
  }

  lemma StageAdvances(start: World, w: World)
    requires start.manifest.Some? && DiskOk(w.disk) && Local(w) && Track(start, w) && w.run.pc == Staging
    ensures Advances(start, w, Stage(w, Calm))
  {
  }

  lemma MergeAdvances(start: World, w: World)
    requires start.manifest.Some? && DiskOk(w.disk) && Local(w) && Track(start, w) && w.run.pc == Merging
    ensures Advances(start, w, Merge(w, Calm))
  {
  }

  lemma RecordAdvances(start: World, w: World)
    requires start.manifest.Some? && Local(w) && Track(start, w) && w.run.pc == RecordStaged
    ensures Advances(start, w, Record(w, Calm))
  {
  }

  lemma ReadyAdvances(start: World, w: World)
    requires start.manifest.Some? && Local(w) && Track(start, w) && w.run.pc == ToReady
    ensures Advances(start, w, WriteManifest(w, Transition(PhaseReadyToPublish, StatusActive, DesiredRunning), Calm,
                                             Publishing, Down))
  {
  }

  lemma EnterPublishAdvances(start: World, w: World)
    requires start.manifest.Some? && Local(w) && Track(start, w) && w.run.pc == Publishing
    ensures Advances(start, w, EnterPublish(w, Calm))
  {
  }

  lemma ReadyJournalAdvances(start: World, w: World)
    requires start.manifest.Some? && Local(w) && Track(start, w) && w.run.pc == ReadyJournal
    ensures Advances(start, w, WriteJournal(w, JournalReady, Calm, SetPending, Down))
  {
  }

  lemma PendingAdvances(start: World, w: World)
    requires start.manifest.Some? && Local(w) && Track(start, w) && w.run.pc == SetPending
    ensures Advances(start, w, WriteManifest(w, SetPublication(PublicationPending), Calm, Publishing, Down))
  {
  }

  predicate JustReserved(w: World, v: World) {
    && v.disk == w.disk
    && v.manifest == w.manifest
    && v.run == w.run.(pc := PublishingJournal, guard := v.run.guard, grants := v.run.grants)
  }

  lemma ReservesWhenOpen(w: World)
    requires w.arbiter.state == A.Open
    ensures JustReserved(w, Reserve(w, Calm))
  {
  }

  lemma ReservedAdvances(start: World, w: World, v: World)
    requires start.manifest.Some? && Local(w) && Track(start, w) && w.run.pc == Reserving && JustReserved(w, v)
    ensures Advances(start, w, v)
  {
  }

  lemma ReserveAdvances(start: World, w: World)
    requires start.manifest.Some? && Local(w) && Track(start, w) && w.run.pc == Reserving
    ensures Advances(start, w, Reserve(w, Calm))
  {
    assert w.arbiter.state == A.Open;
    ReservesWhenOpen(w);
    ReservedAdvances(start, w, Reserve(w, Calm));
  }

  lemma AnnounceAdvances(start: World, w: World)
    requires start.manifest.Some? && Local(w) && Track(start, w) && w.run.pc == PublishingJournal
    ensures Advances(start, w, WriteJournal(w, JournalPublishing, Calm, CheckStage, Precommitted))
  {
  }

  lemma CheckAdvances(start: World, w: World)
    requires start.manifest.Some? && Local(w) && Track(start, w) && w.run.pc == CheckStage
    ensures Advances(start, w, CompareStage(w, Calm))
  {
  }

  lemma LookAdvances(start: World, w: World)
    requires start.manifest.Some? && Local(w) && Track(start, w) && w.run.pc == ProbeDestination
    ensures Advances(start, w, LookAtDestination(w, Calm))
  {
  }

  lemma CompareAdvances(start: World, w: World)
    requires start.manifest.Some? && Local(w) && Track(start, w) && w.run.pc == CompareDestination
    ensures Advances(start, w, CompareBytes(w, Calm))
  {
  }

  lemma LinkAdvances(start: World, w: World)
    requires start.manifest.Some? && DiskOk(w.disk) && Local(w) && Track(start, w) && w.run.pc == Linking
    ensures Advances(start, w, Link(w, Calm))
  {
  }

  lemma ReplaceAdvances(start: World, w: World)
    requires start.manifest.Some? && Track(start, w) && w.run.pc == Replaced
    ensures Advances(start, w, Conclude(w, A.MarkDestinationReplaced, PublishedJournal))
  {
  }

  lemma PublishedJournalAdvances(start: World, w: World)
    requires start.manifest.Some? && Track(start, w) && w.run.pc == PublishedJournal
    ensures Advances(start, w, WriteJournal(w, JournalPublished, Calm, SetCommitted, SetCommitted))
  {
  }

  lemma CommittedAdvances(start: World, w: World)
    requires start.manifest.Some? && Track(start, w) && w.run.pc == SetCommitted
    requires w.manifest.value.publication != PublicationPending
    ensures Advances(start, w, Goto(w, ToCompleted))
  {
  }

  lemma PendingCommitAdvances(start: World, w: World)
    requires start.manifest.Some? && Track(start, w) && w.run.pc == SetCommitted
    requires w.manifest.value.publication == PublicationPending
    ensures
      var m := w.manifest.value;
      Advances(start, w, Goto(w, ToCompleted).(manifest := Some(m.(publication := PublicationCommitted,
                                                                   revision := m.revision + 1))))
  {
  }

  lemma WritesCommit(w: World)
    requires Local(w) && w.run.pc == SetCommitted
    ensures
      var m := w.manifest.value;
      Commit(w, Calm) == if m.publication != PublicationPending then Goto(w, ToCompleted)
                         else Goto(w, ToCompleted).(manifest := Some(m.(publication := PublicationCommitted,
                                                                        revision := m.revision + 1)))
  {
  }

  lemma CommitAdvances(start: World, w: World)
    requires start.manifest.Some? && Local(w) && Track(start, w) && w.run.pc == SetCommitted
    ensures Advances(start, w, Commit(w, Calm))
  {
    WritesCommit(w);
    if w.manifest.value.publication == PublicationPending {
      PendingCommitAdvances(start, w);
    } else {
      CommittedAdvances(start, w);
    }
  }

  /** The manifest of a completed session. */
  function Completed(m: Manifest): Manifest {
    m.(phase := PhaseCompleted, status := StatusCompleted, revision := m.revision + 1)
  }

  lemma WritesComplete(w: World)
    requires Local(w) && w.run.pc == ToCompleted
    ensures Complete(w, Calm) == Goto(w, Finishing).(manifest := Some(Completed(w.manifest.value)))
  {
  }

  lemma CompletedAdvances(start: World, w: World)
    requires start.manifest.Some? && Track(start, w) && w.run.pc == ToCompleted
    ensures Advances(start, w, Goto(w, Finishing).(manifest := Some(Completed(w.manifest.value))))
  {
  }

  lemma CompleteAdvances(start: World, w: World)
    requires start.manifest.Some? && Local(w) && Track(start, w) && w.run.pc == ToCompleted
    ensures Advances(start, w, Complete(w, Calm))
  {
    WritesComplete(w);
    CompletedAdvances(start, w);
  }

  lemma FinishAdvances(start: World, w: World)
    requires start.manifest.Some? && Local(w) && Track(start, w) && w.run.pc == Finishing
    ensures Advances(start, w, Conclude(w, A.FinishPublication, Down))
  {
  }

  lemma PreparePartAdvances(start: World, w: World)
    requires start.manifest.Some? && DiskOk(w.disk) && Local(w) && Track(start, w)
    requires w.run.pc != Down && PartOf(w.run.pc) == Preparing
    ensures Advances(start, w, PrepareStep(w, Calm))
  {
    match w.run.pc {
      case Reconciled => ReenterAdvances(start, w); return;
      case Rebinding => RebindAdvances(start, w); return;
      case Pausing => PauseAdvances(start, w); return;
      case Resuming => ResumeAdvances(start, w); return;
      case Resumed => PhaseAdvances(start, w); return;
    }
  }

  lemma BuildPartAdvances(start: World, w: World)
    requires start.manifest.Some? && DiskOk(w.disk) && Local(w) && Track(start, w)
    requires w.run.pc != Down && PartOf(w.run.pc) == Building
    ensures Advances(start, w, BuildStep(w, Calm))
  {
    match w.run.pc {
      case Extracting => ExtractAdvances(start, w); return;
      case Fetching => FetchAdvances(start, w); return;
      case ToProcessing => ProcessAdvances(start, w); return;
      case Staging => StageAdvances(start, w); return;
      case Merging => MergeAdvances(start, w); return;
      case RecordStaged => RecordAdvances(start, w); return;
      case ToReady => ReadyAdvances(start, w); return;
    }
  }

  lemma AnnouncingPartAdvances(start: World, w: World)
    requires start.manifest.Some? && DiskOk(w.disk) && Local(w) && Track(start, w)
    requires w.run.pc != Down && PartOf(w.run.pc) == Announcing
    ensures Advances(start, w, ReserveStep(w, Calm))
  {
    match w.run.pc {
      case Publishing => EnterPublishAdvances(start, w); return;
      case ReadyJournal => ReadyJournalAdvances(start, w); return;
      case SetPending => PendingAdvances(start, w); return;
      case Reserving => ReserveAdvances(start, w); return;
      case PublishingJournal => AnnounceAdvances(start, w); return;
    }
  }

  lemma ReplacingPartAdvances(start: World, w: World)
    requires start.manifest.Some? && DiskOk(w.disk) && Local(w) && Track(start, w)
    requires w.run.pc != Down && PartOf(w.run.pc) == Replacing
    ensures Advances(start, w, LinkStep(w, Calm))
  {
    match w.run.pc {
      case CheckStage => CheckAdvances(start, w); return;
      case ProbeDestination => LookAdvances(start, w); return;
      case CompareDestination => CompareAdvances(start, w); return;
      case Linking => LinkAdvances(start, w); return;
    }
  }

  lemma SettlePartAdvances(start: World, w: World)
    requires start.manifest.Some? && DiskOk(w.disk) && Local(w) && Track(start, w)
    requires w.run.pc != Down && PartOf(w.run.pc) == Settling
    ensures Advances(start, w, SettleStep(w, Calm))
  {
    match w.run.pc {
      case Replaced => ReplaceAdvances(start, w); return;
      case PublishedJournal => PublishedJournalAdvances(start, w); return;
      case SetCommitted => CommitAdvances(start, w); return;
      case ToCompleted => CompleteAdvances(start, w); return;
      case Finishing => FinishAdvances(start, w); return;
    }
  }

  lemma TrackAdvances(start: World, w: World)
    requires start.manifest.Some? && DiskOk(w.disk) && Local(w) && Track(start, w) && w.run.pc != Down
    ensures Advances(start, w, EngineStep(w, Calm))
  {
    match PartOf(w.run.pc) {
      case Reconciling => OpenAdvances(start, w); return;
      case Preparing => PreparePartAdvances(start, w); return;
      case Building => BuildPartAdvances(start, w); return;
      case Announcing => AnnouncingPartAdvances(start, w); return;
      case Replacing => ReplacingPartAdvances(start, w); return;
      case Settling => SettlePartAdvances(start, w); return;
      case Recovering =>
    }
  }

  lemma {:induction false} TrackFinishes(start: World, w: World)
    requires start.manifest.Some? && Inv(w) && Track(start, w)
    ensures exists k :: var v := Calmly(w, k); Inv(v) && Track(start, v) && v.run.pc == Down
    decreases Rank(w)
  {
    if w.run.pc == Down {
      assert Calmly(w, 0) == w;
    } else {
      var next := Next(w, Engine(Calm));
      StepKeeps(w, Engine(Calm));
      TrackAdvances(start, w);
      TrackFinishes(start, next);
      var k: nat :| var v := Calmly(next, k); Inv(v) && Track(start, v) && v.run.pc == Down;
      assert Calmly(w, k + 1) == Calmly(next, k);
    }
  }

  /** The run returned with the staged output published and recorded. */
  predicate Published(w: World) {
    && w.run.pc == Down
    && !w.run.crashed
    && !w.run.panicked
    && Agrees(w)
    && w.manifest.value.phase == PhaseCompleted
    && w.manifest.value.status == StatusCompleted
    && w.manifest.value.publication == PublicationCommitted
  }

  /**
   Restart convergence. From every crash point of every history that was not
   left needing reconciliation, with the files of the workspace intact and the
   destination free or already the staged output, a calm restart publishes; a
   session that was ready publishes exactly what it had staged, and one whose
   link already exists changes nothing on the disk. A multi-track session moreover
   must not find an output that was merged and not recorded.
   */
  lemma {:induction false} RestartConverges(es: seq<Event>, multi: bool)
    requires
      var w := Run(es);
      && w.run.pc == Down
      && w.manifest.Some?
      && var m := w.manifest.value;
      && m.status != StatusNeedsReconciliation
      && (multi && !IsReady(m) ==> Mergeable(w))
      && Intact(w)
      && (if IsReady(m) then Unobstructed(w) else m.destination !in w.disk.dir)
      && (m.phase == PhaseCompleted ==> Agrees(w))
    ensures
      var w := Run(es);
      var m := w.manifest.value;
      exists k ::
        var v := Calmly(Next(w, Start(m.destination, multi)), k);
        && Published(v)
        && v.manifest.value.destination == m.destination
        && (IsReady(m) ==> v.manifest.value.staged == m.staged)
        && (m.destination in w.disk.dir ==> v.disk == w.disk)
  {
    AlwaysInv(es);
    var w := Run(es);
    var begun := Next(w, Start(w.manifest.value.destination, multi));
    StepKeeps(w, Start(w.manifest.value.destination, multi));
    TrackFinishes(w, begun);
    var k: nat :| var v := Calmly(begun, k); Inv(v) && Track(w, v) && v.run.pc == Down;
    assert Published(Calmly(begun, k));
  }
}
