/**
 What a session left needing reconciliation can still become: exactly when one
 calm restart resolves it, and exactly when no future whatever can.
 */
module PublicationReconciliation {
  import opened Common
  import opened SessionManifest
  import opened PublicationProtocol
  import opened PublicationInvariant
  import opened PublicationRecovery
  import A = ArbiterSpec

  predicate Unresolved(w: World) {
    w.manifest.Some? && w.manifest.value.status == StatusNeedsReconciliation
  }

  // ---------------------------------------------------------------------
  // The journal of an unresolved session names its publication

  /** From the journal write before the link until the outcome is known or in doubt. */
  predicate Announced(pc: Pc) {
    pc.CheckStage? || pc.ProbeDestination? || pc.Linking? || pc.RecheckContent? || pc.RecheckNames?
    || pc.Doubtful? || pc.DoubtfulJournal?
  }

  predicate JournalNames(w: World)
    requires w.manifest.Some?
  {
    && w.journal.Some?
    && w.journal.value.target == w.manifest.value.destination
    && w.manifest.value.staged == Some(w.journal.value.fingerprint)
  }

  predicate Evidenced(w: World) {
    w.manifest.Some? ==>
      && (w.manifest.value.status == StatusNeedsReconciliation || w.run.pc.MarkDoubtful? ==> JournalNames(w))
      && (Announced(w.run.pc) ==> JournalNames(w) && w.journal.value.state == JournalPublishing)
  }

  /** A write that records no doubt, on the way to a point that needs no journal. */
  lemma WriteEvidenced(w: World, needed: bool, u: Mutation, f: Fault, ok: Pc, failed: Pc)
    requires w.manifest.Some? && Evidenced(w)
    requires !Announced(ok) && !ok.MarkDoubtful? && !Announced(failed) && !failed.MarkDoubtful?
    requires u.SetPublication? ==> u.publication != PublicationIndeterminate
    requires u.Transition? || u.ResolveReconciliation? ==> u.status != StatusNeedsReconciliation
    requires u.RebindDestination? || u.SetStagedOutput? ==> !Unresolved(w)
    ensures Evidenced(WriteIf(w, needed, u, f, ok, failed))
  {
  }

  lemma ReadingEvidenced(w: World, f: Fault)
    requires w.manifest.Some? && Evidenced(w)
    requires w.run.pc == Opened || w.run.pc == ReadJournal || w.run.pc == ProbeUnpublished
    ensures Evidenced(ReconcileStep(w, f))
  {
  }

  lemma ReconcileEvidenced(w: World, f: Fault)
    requires Local(w) && Evidenced(w) && w.run.pc != Down && PartOf(w.run.pc) == Reconciling
    ensures Evidenced(ReconcileStep(w, f))
  {
    match w.run.pc
    case ResolveCommitted => WriteEvidenced(w, true, ResolvePublication(PublicationCommitted), f, CloseCommitted, Down);
    case CloseCommitted =>
      WriteEvidenced(w, true, ResolveReconciliation(StatusCompleted, DesiredRunning), f, Reconciled, Down);
    case ResolvePending => WriteEvidenced(w, true, ResolvePublication(PublicationPending), f, CloseFailed, Down);
    case CloseFailed =>
      WriteEvidenced(w, true, ResolveReconciliation(StatusFailed, DesiredRunning), f, Reconciled, Down);
    case _ => ReadingEvidenced(w, f);
  }

  lemma PhaseEvidenced(w: World, f: Fault)
    requires Local(w) && w.run.pc == Resumed
    ensures Evidenced(EnterPhase(w, f))
  {
  }

  lemma ResumedEvidenced(w: World, f: Fault)
    requires Local(w) && w.run.pc == Resumed
    ensures Evidenced(PrepareStep(w, f))
  {
    if f.refused {
      StoppedEvidenced(w, Down);
    } else if f.signal == Quiet {
      PhaseEvidenced(w, f);
    } else {
      StoppedEvidenced(w, Interrupted(f.signal == PauseRequested));
    }
  }

  lemma StoppedEvidenced(w: World, pc: Pc)
    requires w.manifest.Some? && !Unresolved(w) && (pc == Down || pc.Interrupted?)
    ensures Evidenced(Goto(w, pc))
  {
  }

  lemma PrepareEvidenced(w: World, f: Fault)
    requires Local(w) && Evidenced(w) && w.run.pc != Down && PartOf(w.run.pc) == Preparing
    ensures Evidenced(PrepareStep(w, f))
  {
    var m := w.manifest.value;
    match w.run.pc {
      case Reconciled => return;
      case Rebinding =>
        WriteEvidenced(w, m.destination != w.run.target, RebindDestination(w.run.target), f, Pausing, Down);
        return;
      case Pausing =>
        WriteEvidenced(w, m.status == StatusActive && !w.run.created,
                       Transition(m.phase, StatusPaused, DesiredPaused), f, Resuming, Down);
        return;
      case Resuming =>
        WriteEvidenced(w, m.status == StatusPaused || m.status == StatusFailed, Resume, f, Resumed, Down);
        return;
      case Resumed => ResumedEvidenced(w, f); return;
    }
  }

  lemma RecordEvidenced(w: World, f: Fault)
    requires Local(w) && w.run.pc == RecordStaged
    ensures Evidenced(Record(w, f))
  {
  }

  lemma MakingEvidenced(w: World, f: Fault)
    requires w.manifest.Some? && !Unresolved(w)
    ensures Evidenced(Fetch(w, f)) && Evidenced(Stage(w, f)) && Evidenced(Merge(w, f))
  {
  }

  lemma BuildEvidenced(w: World, f: Fault)
    requires Local(w) && Evidenced(w) && w.run.pc != Down && PartOf(w.run.pc) == Building
    ensures Evidenced(BuildStep(w, f))
  {
    match w.run.pc {
      case Extracting =>
        WriteEvidenced(w, true, Transition(PhaseDownloading, StatusActive, DesiredRunning), f, Fetching, Down);
        return;
      case Fetching => MakingEvidenced(w, f); return;
      case ToProcessing =>
        WriteEvidenced(w, w.manifest.value.phase == PhaseDownloading,
                       Transition(PhaseProcessing, StatusActive, DesiredRunning), f,
                       if w.run.multi then Merging else Staging, Down);
        return;
      case Staging => MakingEvidenced(w, f); return;
      case Merging => MakingEvidenced(w, f); return;
      case RecordStaged => RecordEvidenced(w, f); return;
      case ToReady =>
        WriteEvidenced(w, true, Transition(PhaseReadyToPublish, StatusActive, DesiredRunning), f, Publishing, Down);
        return;
    }
  }

  lemma AnnounceEvidenced(w: World, f: Fault)
    requires Local(w) && Evidenced(w) && w.run.pc != Down && PartOf(w.run.pc) == Announcing
    ensures Evidenced(ReserveStep(w, f))
  {
    match w.run.pc
    case SetPending => WriteEvidenced(w, true, SetPublication(PublicationPending), f, Publishing, Down);
    case Reserving => ReserveEvidenced(w, f);
    case PublishingJournal => IntentEvidenced(w, f);
    case _ =>
  }

  lemma ReserveEvidenced(w: World, f: Fault)
    requires Local(w) && w.run.pc == Reserving
    ensures Evidenced(Reserve(w, f))
  {
  }

  lemma IntentEvidenced(w: World, f: Fault)
    requires Local(w) && w.run.pc == PublishingJournal
    ensures Evidenced(WriteJournal(w, JournalPublishing, f, CheckStage, Precommitted))
  {
  }

  lemma ReplaceEvidenced(w: World, f: Fault)
    requires Local(w) && Evidenced(w) && w.run.pc != Down && PartOf(w.run.pc) == Replacing
    ensures Evidenced(LinkStep(w, f))
  {
  }

  lemma SettleEvidenced(w: World, f: Fault)
    requires Local(w) && Evidenced(w) && w.run.pc != Down && PartOf(w.run.pc) == Settling
    ensures Evidenced(SettleStep(w, f))
  {
    var m := w.manifest.value;
    match w.run.pc
    case SetCommitted =>
      WriteEvidenced(w, m.publication == PublicationPending, SetPublication(PublicationCommitted), f,
                     ToCompleted, Finishing);
    case ToCompleted =>
      WriteEvidenced(w, m.phase == PhaseReadyToPublish,
                     Transition(PhaseCompleted, StatusCompleted, DesiredRunning), f, Finishing, Finishing);
    case PublishedJournal =>
    case _ =>
  }

  lemma CollisionEvidenced(w: World, f: Fault)
    requires Local(w) && Evidenced(w) && w.run.pc == MarkCollision
    ensures Evidenced(FailCollided(w, f))
  {
  }

  lemma DoubtEvidenced(w: World, f: Fault)
    requires Local(w) && Evidenced(w) && w.run.pc == MarkDoubtful
    ensures Evidenced(RecordDoubt(w, f))
  {
  }

  lemma StopEvidenced(w: World, f: Fault)
    requires Local(w) && Evidenced(w) && w.run.pc.Interrupted?
    ensures Evidenced(PauseRun(w, f)) && Evidenced(Discard(w, f))
  {
  }

  lemma JournalEvidenced(w: World, f: Fault)
    requires Local(w) && Evidenced(w)
    ensures w.run.pc == CollisionJournal ==>
              Evidenced(WriteJournal(w, JournalCollision, f, MarkCollision, MarkCollision))
    ensures w.run.pc == DoubtfulJournal ==>
              Evidenced(WriteJournal(w, JournalIndeterminate, f, MarkDoubtful, MarkDoubtful))
  {
  }

  lemma RecoverEvidenced(w: World, f: Fault)
    requires Local(w) && Evidenced(w) && w.run.pc != Down && PartOf(w.run.pc) == Recovering
    ensures Evidenced(RecoverStep(w, f))
  {
    match w.run.pc {
      case Collided => return;
      case CollisionJournal => JournalEvidenced(w, f); return;
      case MarkCollision => CollisionEvidenced(w, f); return;
      case Doubtful => return;
      case DoubtfulJournal => JournalEvidenced(w, f); return;
      case MarkDoubtful => DoubtEvidenced(w, f); return;
      case Interrupted(pause) => StopEvidenced(w, f); return;
    }
  }

  lemma EngineEvidenced(w: World, f: Fault)
    requires Inv(w) && Evidenced(w)
    ensures Evidenced(EngineStep(w, f))
  {
    if w.manifest.Some? && w.run.pc != Down {
      match PartOf(w.run.pc) {
        case Reconciling => ReconcileEvidenced(w, f); return;
        case Preparing => PrepareEvidenced(w, f); return;
        case Building => BuildEvidenced(w, f); return;
        case Announcing => AnnounceEvidenced(w, f); return;
        case Replacing => ReplaceEvidenced(w, f); return;
        case Settling => SettleEvidenced(w, f); return;
        case Recovering => RecoverEvidenced(w, f); return;
      }
    }
  }

  lemma OutsideEvidenced(w: World, e: Event)
    requires Evidenced(w) && !e.Engine?
    ensures Evidenced(RawStep(w, e))
  {
  }

  /** In every history an unresolved session has a journal that names its destination and its output. */
  lemma {:induction false} AlwaysEvidenced(es: seq<Event>)
    ensures Evidenced(Run(es))
  {
    if es != [] {
      var before, e := Run(es[..|es| - 1]), es[|es| - 1];
      AlwaysInv(es[..|es| - 1]);
      AlwaysEvidenced(es[..|es| - 1]);
      if e.Engine? {
        EngineEvidenced(before, e.fault);
      } else {
        OutsideEvidenced(before, e);
      }
      assert Evidenced(RawStep(before, e));
    }
  }

  // ---------------------------------------------------------------------
  // Exactly when a calm restart resolves the session

  /** The journal fits the manifest, and the directory shows one of the two outcomes. */
  predicate Reconcilable(w: World)
    requires w.manifest.Some?
  {
    var m := w.manifest.value;
    && JournalNames(w)
    && (if m.publication == PublicationIndeterminate then
          && w.journal.value.state == JournalIndeterminate
          && (Agrees(w) || (m.destination !in w.disk.dir && StageShows(w.disk) == m.staged))
        else m.publication == PublicationCommitted && Agrees(w))
  }

  lemma WritesCommitted(w: World)
    requires Local(w) && w.run.pc == ResolveCommitted
    ensures EngineStep(w, Calm) == Goto(w, CloseCommitted).(manifest := Some(w.manifest.value.(
              revision := w.manifest.value.revision + 1, publication := PublicationCommitted)))
  {
  }

  lemma WritesPending(w: World)
    requires Local(w) && w.run.pc == ResolvePending
    ensures EngineStep(w, Calm) == Goto(w, CloseFailed).(manifest := Some(w.manifest.value.(
              revision := w.manifest.value.revision + 1, publication := PublicationPending)))
  {
  }

  lemma WritesCompleted(w: World)
    requires Local(w) && w.run.pc == CloseCommitted && w.manifest.value.publication == PublicationCommitted
    ensures EngineStep(w, Calm) == Goto(w, Reconciled).(manifest := Some(w.manifest.value.(
              revision := w.manifest.value.revision + 1, phase := PhaseCompleted,
              status := StatusCompleted, desired := DesiredRunning)))
  {
  }

  lemma WritesFailed(w: World)
    requires Local(w) && w.run.pc == CloseFailed
    ensures EngineStep(w, Calm) == Goto(w, Reconciled).(manifest := Some(w.manifest.value.(
              revision := w.manifest.value.revision + 1, status := StatusFailed, desired := DesiredRunning)))
  {
  }

  lemma RefusesPendingAsCompleted(w: World)
    requires Local(w) && w.run.pc == CloseCommitted && w.manifest.value.publication == PublicationPending
    ensures forall f :: EngineStep(w, Engine(f).fault) == Goto(w, Down)
  {
  }

  predicate Absent(w: World)
    requires w.manifest.Some?
  {
    w.manifest.value.destination !in w.disk.dir && StageShows(w.disk) == w.manifest.value.staged
  }

  /** A restart of `start` that is still reconciling and has changed no file. */
  predicate Reconciles(start: World, w: World) {
    && Unresolved(start)
    && Unresolved(w)
    && SameBinding(start.manifest, w.manifest)
    && w.disk == start.disk
    && JournalNames(w)
    && (w.run.multi || w.run.target == w.manifest.value.destination)
    && !w.run.crashed
    && w.arbiter.state == A.Open
  }

  /** The end of reconciliation: completed because the output is there, or failed because it is not. */
  ghost predicate ResolvedInto(start: World, w: World, target: Basename) {
    && Inv(w)
    && w.run.pc == Reconciled
    && w.run.target == target
    && SameBinding(start.manifest, w.manifest)
    && w.disk == start.disk
    && !w.run.crashed
    && w.arbiter.state == A.Open
    && var m := w.manifest.value;
    && (Agrees(w) ==> m.phase == PhaseCompleted && m.status == StatusCompleted)
    && (!Agrees(w) ==>
          && Absent(w)
          && m.phase == PhaseReadyToPublish
          && m.status == StatusFailed
          && m.publication == PublicationPending)
  }

  ghost predicate Resolves(start: World, w: World) {
    exists k :: ResolvedInto(start, Calmly(w, k), w.run.target)
  }

  lemma ResolvesEarlier(start: World, w: World)
    requires Resolves(start, Next(w, Engine(Calm))) && Next(w, Engine(Calm)).run.target == w.run.target
    ensures Resolves(start, w)
  {
    var next := Next(w, Engine(Calm));
    var k: nat :| ResolvedInto(start, Calmly(next, k), next.run.target);
    assert Calmly(w, k + 1) == Calmly(next, k);
  }

  lemma ResolvedNow(start: World, w: World)
    requires ResolvedInto(start, Next(w, Engine(Calm)), w.run.target)
    ensures Resolves(start, w)
  {
    assert Calmly(Next(w, Engine(Calm)), 0) == Next(w, Engine(Calm));
    assert Calmly(w, 1) == Calmly(Next(w, Engine(Calm)), 0);
  }

  lemma CloseCommittedResolves(start: World, w: World)
    requires Inv(w) && Reconciles(start, w) && w.run.pc == CloseCommitted
    requires w.manifest.value.publication == PublicationCommitted && Agrees(w)
    ensures Resolves(start, w)
  {
    WritesCompleted(w);
    StepKeeps(w, Engine(Calm));
    ResolvedNow(start, w);
  }

  lemma CloseFailedResolves(start: World, w: World)
    requires Inv(w) && Reconciles(start, w) && w.run.pc == CloseFailed && Absent(w)
    ensures Resolves(start, w)
  {
    WritesFailed(w);
    StepKeeps(w, Engine(Calm));
    ResolvedNow(start, w);
  }

  lemma ResolveCommittedResolves(start: World, w: World)
    requires Inv(w) && Reconciles(start, w) && w.run.pc == ResolveCommitted && Agrees(w)
    ensures Resolves(start, w)
  {
    WritesCommitted(w);
    StepKeeps(w, Engine(Calm));
    CloseCommittedResolves(start, Next(w, Engine(Calm)));
    ResolvesEarlier(start, w);
  }

  lemma ResolvePendingResolves(start: World, w: World)
    requires Inv(w) && Reconciles(start, w) && w.run.pc == ResolvePending && Absent(w)
    ensures Resolves(start, w)
  {
    WritesPending(w);
    StepKeeps(w, Engine(Calm));
    CloseFailedResolves(start, Next(w, Engine(Calm)));
    ResolvesEarlier(start, w);
  }

  lemma ProbeResolves(start: World, w: World)
    requires Inv(w) && Reconciles(start, w) && w.run.pc == ProbeUnpublished && Absent(w)
    ensures Resolves(start, w)
  {
    assert EngineStep(w, Calm) == Goto(w, ResolvePending);
    StepKeeps(w, Engine(Calm));
    ResolvePendingResolves(start, Next(w, Engine(Calm)));
    ResolvesEarlier(start, w);
  }

  lemma EvidenceLeads(w: World)
    requires Unresolved(w) && w.run.pc == ReadJournal && (w.run.multi || w.run.target == w.manifest.value.destination)
    requires Reconcilable(w)
    ensures EngineStep(w, Calm) == Goto(w, if !Agrees(w) then ProbeUnpublished
                                           else if w.manifest.value.publication == PublicationIndeterminate
                                           then ResolveCommitted else CloseCommitted)
  {
  }

  lemma EvidenceResolves(start: World, w: World)
    requires Inv(w) && Reconciles(start, w) && w.run.pc == ReadJournal && Reconcilable(w)
    ensures Resolves(start, w)
  {
    StepKeeps(w, Engine(Calm));
    EvidenceLeads(w);
    var next := Next(w, Engine(Calm));
    if !Agrees(w) {
      ProbeResolves(start, next);
    } else if w.manifest.value.publication == PublicationIndeterminate {
      ResolveCommittedResolves(start, next);
    } else {
      CloseCommittedResolves(start, next);
    }
    ResolvesEarlier(start, w);
  }

  /** The restart may act on the evidence: a multi-track session whatever name it asks for. */
  predicate MayAct(w: World, target: Basename, multi: bool)
    requires w.manifest.Some?
  {
    Reconcilable(w) && (multi || target == w.manifest.value.destination)
  }

  lemma RestartReads(w: World, target: Basename, multi: bool)
    requires Inv(w) && w.run.pc == Down && Unresolved(w) && target != "" && MayAct(w, target, multi)
    ensures
      var v := Goto(Next(w, Start(target, multi)), ReadJournal);
      Reconciles(w, v) && Reconcilable(v) && v.run.target == target
      && EngineStep(Next(w, Start(target, multi)), Calm) == v
  {
  }

  lemma RestartResolves(w: World, target: Basename, multi: bool)
    requires Inv(w) && w.run.pc == Down && Unresolved(w) && target != "" && MayAct(w, target, multi)
    ensures exists k :: ResolvedInto(w, Calmly(Next(w, Start(target, multi)), k), target)
  {
    var begun := Next(w, Start(target, multi));
    RestartReads(w, target, multi);
    StepKeeps(w, Start(target, multi));
    StepKeeps(begun, Engine(Calm));
    EvidenceResolves(w, Next(begun, Engine(Calm)));
    ResolvesEarlier(w, begun);
  }

  function CalmStep(w: World): World {
    Next(w, Engine(Calm))
  }

  lemma {:induction false} CalmlyIterates(w: World, k: nat)
    ensures Calmly(w, k) == Iterate(CalmStep, w, k)
    decreases k
  {
    if k > 0 {
      CalmlyIterates(Next(w, Engine(Calm)), k - 1);
    }
  }

  lemma {:induction false} CalmlyAdds(w: World, j: nat, k: nat)
    ensures Calmly(w, j + k) == Calmly(Calmly(w, j), k)
  {
    CalmlyIterates(w, j + k);
    CalmlyIterates(w, j);
    CalmlyIterates(Calmly(w, j), k);
    IterateAdds(CalmStep, w, j, k);
  }

  /** Published with the destination and staged output of `w`; a destination already there was left alone. */
  predicate PublishedAsStaged(w: World, v: World)
    requires w.manifest.Some?
  {
    && Published(v)
    && SameBinding(v.manifest, w.manifest)
    && (w.manifest.value.destination in w.disk.dir ==> v.disk == w.disk)
  }

  lemma CompletedReturns(start: World, v: World, target: Basename)
    requires start.manifest.Some? && ResolvedInto(start, v, target) && Agrees(v)
    ensures PublishedAsStaged(start, Calmly(v, 1))
  {
    StepKeeps(v, Engine(Calm));
    assert EngineStep(v, Calm) == Goto(v, Down);
    var next := Next(v, Engine(Calm));
    assert Calmly(v, 1) == Calmly(next, 0) == next;
  }

  lemma FailedPublishes(start: World, v: World)
    requires start.manifest.Some? && ResolvedInto(start, v, start.manifest.value.destination) && !Agrees(v)
    ensures exists k :: PublishedAsStaged(start, Calmly(v, k))
  {
    assert Track(v, v);
    TrackFinishes(v, v);
    var k: nat :| var u := Calmly(v, k); Inv(u) && Track(v, u) && u.run.pc == Down;
    assert PublishedAsStaged(start, Calmly(v, k));
  }

  lemma ResolvedPublishes(start: World, v: World, target: Basename)
    requires start.manifest.Some? && ResolvedInto(start, v, target)
    requires target == start.manifest.value.destination || Agrees(v)
    ensures exists k :: PublishedAsStaged(start, Calmly(v, k))
  {
    if Agrees(v) {
      CompletedReturns(start, v, target);
    } else {
      FailedPublishes(start, v);
    }
  }

  lemma ReconcilableConvergesFrom(w: World, target: Basename, multi: bool)
    requires Inv(w) && w.run.pc == Down && Unresolved(w) && target != "" && MayAct(w, target, multi)
    requires target == w.manifest.value.destination || Agrees(w)
    ensures exists k :: PublishedAsStaged(w, Calmly(Next(w, Start(target, multi)), k))
  {
    var begun := Next(w, Start(target, multi));
    RestartResolves(w, target, multi);
    var j: nat :| ResolvedInto(w, Calmly(begun, j), target);
    ResolvedPublishes(w, Calmly(begun, j), target);
    var k: nat :| PublishedAsStaged(w, Calmly(Calmly(begun, j), k));
    CalmlyAdds(begun, j, k);
  }

  /**
   A session left needing reconciliation whose evidence fits is resolved by one
   calm restart: the output is published exactly as staged, either because the
   destination already holds it or because it demonstrably does not yet.
   */
  lemma {:induction false} ReconcilableConverges(es: seq<Event>, target: Basename, multi: bool)
    requires Run(es).run.pc == Down && Unresolved(Run(es)) && target != "" && MayAct(Run(es), target, multi)
    requires target == Run(es).manifest.value.destination || Agrees(Run(es))
    ensures exists k :: PublishedAsStaged(Run(es), Calmly(Next(Run(es), Start(target, multi)), k))
  {
    AlwaysInv(es);
    ReconcilableConvergesFrom(Run(es), target, multi);
  }

  /** Published at the requested name instead, with the same output. */
  predicate PublishedElsewhere(w: World, v: World, target: Basename)
    requires w.manifest.Some?
  {
    Published(v) && v.manifest.value.destination == target && v.manifest.value.staged == w.manifest.value.staged
  }

  /** At the rebind of a failed session to a free name. */
  ghost predicate AtRebind(start: World, w: World, target: Basename) {
    && Inv(w)
    && start.manifest.Some?
    && w.run.pc == Rebinding
    && w.run.target == target != ""
    && !w.run.crashed
    && w.arbiter.state == A.Open
    && target !in w.disk.dir
    && w.manifest.Some?
    && var m := w.manifest.value;
    && m.destination != target
    && m.staged == start.manifest.value.staged
    && StageShows(w.disk) == m.staged
    && m.phase == PhaseReadyToPublish
    && m.status == StatusFailed
    && m.publication == PublicationPending
  }

  lemma FailedRebinds(start: World, v: World, target: Basename)
    requires start.manifest.Some? && ResolvedInto(start, v, target) && !Agrees(v)
    requires target != "" && target != start.manifest.value.destination && target !in v.disk.dir
    ensures AtRebind(start, Next(v, Engine(Calm)), target)
  {
    StepKeeps(v, Engine(Calm));
    assert EngineStep(v, Calm) == Goto(v, Rebinding);
  }

  lemma RebindTracks(start: World, w: World, target: Basename)
    requires AtRebind(start, w, target)
    ensures
      var x := Next(w, Engine(Calm));
      Inv(x) && x.manifest.Some? && Track(x, x) && x.manifest.value.destination == target
      && x.manifest.value.staged == start.manifest.value.staged && IsReady(x.manifest.value)
  {
    StepKeeps(w, Engine(Calm));
    RebindWrites(w);
  }

  lemma RebindWrites(w: World)
    requires Local(w) && w.run.pc == Rebinding && w.manifest.value.destination != w.run.target && w.run.target != ""
    requires w.manifest.value.phase == PhaseReadyToPublish && w.manifest.value.status == StatusFailed
    requires w.manifest.value.publication == PublicationPending
    ensures EngineStep(w, Calm) == Goto(w, Pausing).(manifest := Some(w.manifest.value.(
              revision := w.manifest.value.revision + 1, destination := w.run.target)))
  {
  }

  lemma TrackPublishesElsewhere(start: World, x: World, target: Basename)
    requires start.manifest.Some? && Inv(x) && x.manifest.Some? && Track(x, x) && x.manifest.value.destination == target
    requires x.manifest.value.staged == start.manifest.value.staged && IsReady(x.manifest.value)
    ensures exists k :: PublishedElsewhere(start, Calmly(x, k), target)
  {
    TrackFinishes(x, x);
    var k: nat :| var u := Calmly(x, k); Inv(u) && Track(x, u) && u.run.pc == Down;
    assert PublishedElsewhere(start, Calmly(x, k), target);
  }

  lemma RebindingPublishes(start: World, v: World, target: Basename)
    requires start.manifest.Some? && ResolvedInto(start, v, target) && !Agrees(v)
    requires target != "" && target != start.manifest.value.destination && target !in v.disk.dir
    ensures exists k :: PublishedElsewhere(start, Calmly(v, k), target)
  {
    var w := Next(v, Engine(Calm));
    FailedRebinds(start, v, target);
    RebindTracks(start, w, target);
    TrackPublishesElsewhere(start, Next(w, Engine(Calm)), target);
    var k: nat :| PublishedElsewhere(start, Calmly(Next(w, Engine(Calm)), k), target);
    assert Calmly(v, k + 2) == Calmly(w, k + 1) == Calmly(Next(w, Engine(Calm)), k);
  }

  /**
   A multi-track session asked for another free name resolves a demonstrably
   unpublished output and then publishes it under that name.
   */
  lemma {:induction false} MultiTrackPublishesElsewhere(es: seq<Event>, target: Basename)
    requires Run(es).run.pc == Down && Unresolved(Run(es)) && target != "" && Reconcilable(Run(es))
    requires !Agrees(Run(es)) && target != Run(es).manifest.value.destination && target !in Run(es).disk.dir
    ensures exists k :: PublishedElsewhere(Run(es), Calmly(Next(Run(es), Start(target, true)), k), target)
  {
    AlwaysInv(es);
    MultiTrackPublishesFrom(Run(es), target);
  }

  lemma MultiTrackPublishesFrom(w: World, target: Basename)
    requires Inv(w) && w.run.pc == Down && Unresolved(w) && target != "" && Reconcilable(w)
    requires !Agrees(w) && target != w.manifest.value.destination && target !in w.disk.dir
    ensures exists k :: PublishedElsewhere(w, Calmly(Next(w, Start(target, true)), k), target)
  {
    var begun := Next(w, Start(target, true));
    RestartResolves(w, target, true);
    var j: nat :| ResolvedInto(w, Calmly(begun, j), target);
    RebindingPublishes(w, Calmly(begun, j), target);
    var k: nat :| PublishedElsewhere(w, Calmly(Calmly(begun, j), k), target);
    CalmlyAdds(begun, j, k);
  }

  /** A restart that will change nothing. */
  predicate Refused(start: World, w: World) {
    && Unresolved(w)
    && w.manifest == start.manifest
    && w.journal == start.journal
    && w.disk == start.disk
    && !MayAct(w, w.run.target, w.run.multi)
    && match w.run.pc {
         case Down => true
         case Opened => true
         case ReadJournal => true
         case ProbeUnpublished => JournalFits(w) && !Absent(w)
         case CloseCommitted => w.manifest.value.publication == PublicationPending
         case _ => false
       }
  }

  lemma RefusedReads(start: World, w: World)
    requires Inv(w) && Refused(start, w) && w.run.pc == ReadJournal
    ensures Refused(start, WeighEvidence(w, Calm))
  {
  }

  lemma RefusedProbes(start: World, w: World)
    requires Inv(w) && Refused(start, w) && w.run.pc == ProbeUnpublished
    ensures Refused(start, WeighAbsence(w, Calm))
  {
  }

  lemma RefusedStep(start: World, w: World)
    requires Inv(w) && Refused(start, w)
    ensures Refused(start, EngineStep(w, Calm))
  {
    match w.run.pc {
      case Down => return;
      case Opened => return;
      case ReadJournal => RefusedReads(start, w); return;
      case ProbeUnpublished => RefusedProbes(start, w); return;
      case CloseCommitted => RefusesPendingAsCompleted(w); return;
    }
  }

  lemma RefusedStays(start: World, w: World)
    requires Inv(w) && Refused(start, w)
    ensures Refused(start, Next(w, Engine(Calm)))
  {
    RefusedStep(start, w);
    assert Refused(start, Observe(w, EngineStep(w, Calm)));
  }

  lemma {:induction false} RefusedForever(start: World, w: World, k: nat)
    requires Inv(w) && Refused(start, w)
    ensures Refused(start, Calmly(w, k))
    decreases k
  {
    if k > 0 {
      StepKeeps(w, Engine(Calm));
      RefusedStays(start, w);
      RefusedForever(start, Next(w, Engine(Calm)), k - 1);
    }
  }

  /** Without fitting evidence, or for a direct session and another name, a calm restart changes nothing durable. */
  lemma {:induction false} UnreconcilableStays(es: seq<Event>, target: Basename, multi: bool, k: nat)
    requires Run(es).run.pc == Down && Unresolved(Run(es)) && target != "" && !MayAct(Run(es), target, multi)
    ensures
      var w := Run(es);
      var v := Calmly(Next(w, Start(target, multi)), k);
      v.manifest == w.manifest && v.journal == w.journal && v.disk == w.disk
  {
    AlwaysInv(es);
    StepKeeps(Run(es), Start(target, multi));
    RefusedForever(Run(es), Next(Run(es), Start(target, multi)), k);
  }

  /** A calm restart leaves the unresolved state if and only if it may act on fitting evidence. */
  lemma {:induction false} ResolvedExactly(es: seq<Event>, target: Basename, multi: bool)
    requires Run(es).run.pc == Down && Unresolved(Run(es)) && target != ""
    ensures MayAct(Run(es), target, multi) <==>
            exists k :: !Unresolved(Calmly(Next(Run(es), Start(target, multi)), k))
  {
    AlwaysInv(es);
    ResolvedExactlyFrom(Run(es), target, multi);
  }

  lemma ResolvedExactlyFrom(w: World, target: Basename, multi: bool)
    requires Inv(w) && w.run.pc == Down && Unresolved(w) && target != ""
    ensures MayAct(w, target, multi) <==> exists k :: !Unresolved(Calmly(Next(w, Start(target, multi)), k))
  {
    var begun := Next(w, Start(target, multi));
    if MayAct(w, target, multi) {
      RestartResolves(w, target, multi);
      var k: nat :| ResolvedInto(w, Calmly(begun, k), target);
      assert !Unresolved(Calmly(begun, k));
    } else {
      StepKeeps(w, Start(target, multi));
      forall k: nat ensures Unresolved(Calmly(begun, k)) {
        RefusedForever(w, begun, k);
      }
    }
  }
}
