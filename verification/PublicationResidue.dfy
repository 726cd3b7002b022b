/**
 What a multi-track session cannot take up again: an output that was merged but not
 recorded. A crash, or a mere pause, between the two leaves one.
 */
module PublicationResidue {
  import opened Common
  import opened SessionManifest
  import opened PublicationProtocol
  import opened PublicationInvariant
  import opened PublicationHistory
  import opened PublicationRecovery
  import opened PublicationLimits

  // ---------------------------------------------------------------------
  // The residue blocks the session

  /** The points of a multi-track run up to the merge. */
  predicate BeforeMerge(pc: Pc) {
    pc.Opened? || pc.Reconciled? || pc.Rebinding? || pc.Pausing? || pc.Resuming? || pc.Resumed? || pc.Extracting?
    || pc.Fetching? || pc.ToProcessing? || pc.Merging?
  }

  /** An unrecorded output lies where a session that is not yet ready would stage its own. */
  predicate Blocked(w: World) {
    && w.manifest.Some?
    && !IsReady(w.manifest.value)
    && w.manifest.value.staged.None?
    && w.disk.stage.Some?
    && (w.run.pc == Down || ((BeforeMerge(w.run.pc) || w.run.pc.Interrupted?) && w.run.multi))
  }

  /** Neither a direct session nor a failed stat, which would read as absence. */
  predicate Ordinary(e: Event) {
    && (e.Start? ==> e.multi)
    && (e.Engine? ==> !e.fault.statFails)
  }

  predicate BlockedOrGone(w: World) {
    w.manifest.None? || Blocked(w)
  }

  lemma NotYetReady(m: Manifest, u: Mutation)
    requires !IsReady(m) && m.staged.None? && Apply(m, u).Some?
    requires u.Resume? || u.RebindDestination?
             || (u.Transition? && u.phase != PhaseReadyToPublish && u.phase != PhaseCompleted)
    ensures !IsReady(Apply(m, u).value) && Apply(m, u).value.staged.None?
  {
  }

  lemma BlockedWrite(w: World, needed: bool, u: Mutation, f: Fault, ok: Pc, failed: Pc)
    requires Blocked(w) && w.run.multi
    requires (ok == Down || BeforeMerge(ok)) && (failed == Down || BeforeMerge(failed))
    requires u.Resume? || u.RebindDestination?
             || (u.Transition? && u.phase != PhaseReadyToPublish && u.phase != PhaseCompleted)
    ensures Blocked(WriteIf(w, needed, u, f, ok, failed))
  {
    var v := WriteIf(w, needed, u, f, ok, failed);
    if Apply(w.manifest.value, u).Some? {
      NotYetReady(w.manifest.value, u);
    }
    assert v.disk == w.disk && v.run.multi && (v.run.pc == ok || v.run.pc == failed);
  }

  lemma BlockedPrepares(w: World, f: Fault)
    requires Inv(w) && Blocked(w) && w.run.pc != Down && PartOf(w.run.pc) == Preparing
    ensures Blocked(PrepareStep(w, f))
  {
    var m := w.manifest.value;
    match w.run.pc {
      case Reconciled => return;
      case Rebinding =>
        BlockedWrite(w, m.destination != w.run.target, RebindDestination(w.run.target), f, Pausing, Down);
        return;
      case Pausing =>
        BlockedWrite(w, m.status == StatusActive && !w.run.created,
                     Transition(m.phase, StatusPaused, DesiredPaused), f, Resuming, Down);
        return;
      case Resuming =>
        BlockedWrite(w, m.status == StatusPaused || m.status == StatusFailed, Resume, f, Resumed, Down);
        return;
      case Resumed =>
        BlockedWrite(w, m.phase == PhasePrepared, Transition(PhaseExtracting, StatusActive, DesiredRunning), f,
                     EntryOf(m.phase), Down);
        return;
    }
  }

  lemma BlockedBuilds(w: World, f: Fault)
    requires Inv(w) && Blocked(w) && w.run.pc != Down && PartOf(w.run.pc) == Building && !f.statFails
    ensures Blocked(BuildStep(w, f))
  {
    match w.run.pc {
      case Extracting =>
        BlockedWrite(w, true, Transition(PhaseDownloading, StatusActive, DesiredRunning), f, Fetching, Down);
        return;
      case Fetching => return;
      case ToProcessing =>
        BlockedWrite(w, w.manifest.value.phase == PhaseDownloading,
                     Transition(PhaseProcessing, StatusActive, DesiredRunning), f,
                     if w.run.multi then Merging else Staging, Down);
        return;
      case Merging => return;
    }
  }

  lemma BlockedStops(w: World, f: Fault)
    requires Inv(w) && Blocked(w) && w.run.pc.Interrupted?
    ensures BlockedOrGone(RecoverStep(w, f))
  {
    var m := w.manifest.value;
    BlockedWrite(w, m.status == StatusActive, Transition(m.phase, StatusPaused, DesiredPaused), f, Down, Down);
  }

  lemma BlockedOpens(w: World, f: Fault)
    requires Inv(w) && Blocked(w) && w.run.pc == Opened
    ensures Blocked(ReconcileStep(w, f))
  {
  }

  lemma BlockedEngine(w: World, f: Fault)
    requires Inv(w) && Blocked(w) && !f.statFails
    ensures BlockedOrGone(EngineStep(w, f))
  {
    if w.run.pc != Down {
      match PartOf(w.run.pc) {
        case Reconciling => BlockedOpens(w, f); return;
        case Preparing => BlockedPrepares(w, f); return;
        case Building => BlockedBuilds(w, f); return;
        case Recovering => BlockedStops(w, f); return;
      }
    }
  }

  lemma BlockedOutside(w: World, e: Event)
    requires Blocked(w) && !e.Engine? && Ordinary(e)
    ensures Blocked(RawStep(w, e))
  {
  }

  lemma BlockedStep(w: World, e: Event)
    requires Inv(w) && Blocked(w) && Ordinary(e)
    ensures BlockedOrGone(Next(w, e))
  {
    if e.Engine? {
      BlockedEngine(w, e.fault);
    } else {
      BlockedOutside(w, e);
    }
    assert BlockedOrGone(RawStep(w, e));
  }

  /** The workspace was discarded at some point of this continuation. */
  ghost predicate DiscardedIn(w: World, more: seq<Event>) {
    exists j :: 0 <= j <= |more| && After(w, more[..j]).manifest.None?
  }

  lemma {:induction false} BlockedAfter(w: World, more: seq<Event>)
    requires Inv(w) && Blocked(w)
    requires forall i :: 0 <= i < |more| ==> Ordinary(more[i])
    ensures Blocked(After(w, more)) || DiscardedIn(w, more)
    decreases |more|
  {
    if more != [] {
      var next, rest := Next(w, more[0]), more[1..];
      assert more == [more[0]] + rest;
      AfterFirst(w, more[0], rest);
      StepKeeps(w, more[0]);
      BlockedStep(w, more[0]);
      if next.manifest.None? {
        DiscardedAtOnce(w, more);
      } else {
        BlockedAfter(next, rest);
        if DiscardedIn(next, rest) {
          var j :| 0 <= j <= |rest| && After(next, rest[..j]).manifest.None?;
          assert more[..j + 1] == [more[0]] + rest[..j];
          AfterFirst(w, more[0], rest[..j]);
        }
      }
    }
  }

  lemma DiscardedAtOnce(w: World, more: seq<Event>)
    requires more != [] && Next(w, more[0]).manifest.None?
    ensures DiscardedIn(w, more)
  {
    AfterOne(w, more[0]);
    assert more[..1] == [more[0]];
    assert After(w, more[..1]).manifest.None?;
  }

  /**
   However often a multi-track session is restarted, paused, cancelled or crashed, a
   residue keeps it from ever staging an output, until the workspace is discarded;
   only a direct session or a stat that fails could get past it.
   */
  lemma {:induction false} ResidueBlocksForever(es: seq<Event>, more: seq<Event>)
    requires Blocked(Run(es))
    requires forall i :: 0 <= i < |more| ==> Ordinary(more[i])
    ensures Blocked(Run(es + more)) || DiscardedIn(Run(es), more)
  {
    AlwaysInv(es);
    BlockedAfter(Run(es), more);
    RunThenAfter(es, more);
  }

  // ---------------------------------------------------------------------
  // It occurs

  /** A first multi-track run on its way to the merge. */
  ghost predicate Merges(start: World, w: World)
    requires start.manifest.Some?
  {
    && Inv(w)
    && Track(start, w)
    && w.run.multi
    && BeforeMerge(w.run.pc)
    && !IsReady(w.manifest.value)
    && w.manifest.value.staged.None?
    && w.disk.stage.None?
  }

  lemma PrepareMerges(w: World)
    requires w.manifest.Some? && w.manifest.value.staged.None? && !IsReady(w.manifest.value) && w.disk.stage.None?
    requires w.run.multi && BeforeMerge(w.run.pc) && PartOf(w.run.pc) == Preparing
    ensures
      var v := PrepareStep(w, Calm);
      && v.manifest.Some? && v.manifest.value.staged.None? && !IsReady(v.manifest.value) && v.disk == w.disk
      && v.run.multi && (v.run.pc == Down || BeforeMerge(v.run.pc))
  {
    match w.run.pc {
      case Reconciled => return;
      case Rebinding => return;
      case Pausing => return;
      case Resuming => return;
      case Resumed => return;
    }
  }

  lemma BuildMerges(w: World)
    requires w.manifest.Some? && w.manifest.value.staged.None? && !IsReady(w.manifest.value) && w.disk.stage.None?
    requires w.run.multi && (w.run.pc == Extracting || w.run.pc == Fetching || w.run.pc == ToProcessing)
    ensures
      var v := BuildStep(w, Calm);
      && v.manifest.Some? && v.manifest.value.staged.None? && !IsReady(v.manifest.value) && v.disk.stage.None?
      && v.run.multi && (v.run.pc == Down || BeforeMerge(v.run.pc))
  {
    match w.run.pc {
      case Extracting => return;
      case Fetching => return;
      case ToProcessing => return;
    }
  }

  /** Still short of the merge, with nothing staged or recorded. */
  predicate Unstaged(w: World) {
    && w.manifest.Some?
    && w.manifest.value.staged.None?
    && !IsReady(w.manifest.value)
    && w.disk.stage.None?
    && w.run.multi
    && (w.run.pc == Down || BeforeMerge(w.run.pc))
  }

  lemma UnstagedStep(w: World)
    requires Inv(w) && Unstaged(w) && w.run.pc != Down && w.run.pc != Merging
    ensures Unstaged(EngineStep(w, Calm))
  {
    if w.run.pc == Opened {
      assert EngineStep(w, Calm) == Goto(w, Reconciled);
    } else if PartOf(w.run.pc) == Preparing {
      PrepareMerges(w);
    } else {
      BuildMerges(w);
    }
  }

  lemma MergesStep(start: World, w: World)
    requires start.manifest.Some? && Merges(start, w) && w.run.pc != Merging
    ensures Merges(start, Next(w, Engine(Calm))) && Rank(Next(w, Engine(Calm))) < Rank(w)
  {
    StepKeeps(w, Engine(Calm));
    TrackAdvances(start, w);
    UnstagedStep(w);
  }

  /** About to merge tracks into an output, with nothing in its place. */
  predicate AtMerge(w: World) {
    && w.run.pc == Merging
    && w.run.multi
    && w.manifest.Some?
    && w.manifest.value.phase == PhaseProcessing
    && w.manifest.value.staged.None?
    && w.disk.stage.None?
    && w.disk.payload.Some?
  }

  lemma {:induction false} MergeIsReached(start: World, w: World)
    requires start.manifest.Some? && Merges(start, w)
    ensures exists k :: AtMerge(Calmly(w, k))
    decreases Rank(w)
  {
    if w.run.pc == Merging {
      assert Calmly(w, 0) == w;
    } else {
      var next := Next(w, Engine(Calm));
      MergesStep(start, w);
      MergeIsReached(start, next);
      var k: nat :| AtMerge(Calmly(next, k));
      assert Calmly(w, k + 1) == Calmly(next, k);
    }
  }

  /** At the merge, a crash right after it and a pause during it each leave a residue. */
  lemma MergeLeavesResidue(w: World)
    requires AtMerge(w)
    ensures Blocked(Next(Next(w, Engine(Calm)), Crash))
    ensures Blocked(Next(w, Engine(Calm.(signal := PauseRequested))))
  {
    assert EngineStep(w, Calm) == Merge(w, Calm);
    assert EngineStep(w, Calm.(signal := PauseRequested)) == Merge(w, Calm.(signal := PauseRequested));
  }

  lemma PausedMergeBlocks(w: World)
    requires AtMerge(w)
    ensures Blocked(After(w, [Engine(Calm.(signal := PauseRequested))]))
  {
    MergeLeavesResidue(w);
    AfterOne(w, Engine(Calm.(signal := PauseRequested)));
  }

  lemma FirstRunMerges()
    ensures var w := Run([Start("out", true)]); w.manifest.Some? && Merges(w, w)
  {
    OpeningIsARun(true);
    OpeningTracks(true);
  }

  lemma PausedAfter(w: World, more: seq<Event>)
    requires AtMerge(After(w, more))
    ensures Blocked(After(w, more + [Engine(Calm.(signal := PauseRequested))]))
  {
    PausedMergeBlocks(After(w, more));
    AfterThenAfter(w, more, [Engine(Calm.(signal := PauseRequested))]);
  }

  lemma PausedAfterCalm(w: World, k: nat)
    requires AtMerge(Calmly(w, k))
    ensures exists more :: Blocked(After(w, more))
  {
    CalmlyIsAfter(w, k);
    PausedAfter(w, CalmSteps(k));
  }

  lemma MergeCanBlock(w: World)
    requires w.manifest.Some? && Merges(w, w)
    ensures exists more :: Blocked(After(w, more))
  {
    MergeIsReached(w, w);
    var k: nat :| AtMerge(Calmly(w, k));
    PausedAfterCalm(w, k);
  }

  lemma {:induction false} BlocksInARun(es: seq<Event>, more: seq<Event>)
    requires Blocked(After(Run(es), more))
    ensures exists fs :: Blocked(Run(fs))
  {
    RunThenAfter(es, more);
  }

  lemma ResidueOccurs()
    ensures exists es :: Blocked(Run(es))
  {
    FirstRunMerges();
    MergeCanBlock(Run([Start("out", true)]));
    var more :| Blocked(After(Run([Start("out", true)]), more));
    BlocksInARun([Start("out", true)], more);
  }
}
