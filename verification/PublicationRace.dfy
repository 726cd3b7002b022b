/**
 The race between comparing the staged file and linking it: a foreign write through
 another link of the staged file makes a committed output that nobody staged. Such
 another link exists once a session was published under one name and then rebound.
 */
module PublicationRace {
  import opened Common
  import opened SessionManifest
  import opened PublicationProtocol
  import opened PublicationInvariant
  import opened PublicationRecovery
  import opened PublicationReconciliation
  import opened PublicationLimits
  import A = ArbiterSpec

  // ---------------------------------------------------------------------
  // An altered file that is linked is committed unseen

  /** Past the link, with the destination showing other bytes than were staged. */
  ghost predicate Unseen(w: World) {
    && Inv(w)
    && w.manifest.Some?
    && !w.seen
    && Shows(w.disk, w.manifest.value.destination).Some?
    && !Agrees(w)
  }

  lemma LinkIsUnseen(w: World)
    requires Inv(w) && w.run.pc == Linking && w.altered && !w.seen && w.manifest.value.destination !in w.disk.dir
    requires w.disk.stage.Some?
    ensures var v := Next(w, Engine(Calm)); Unseen(v) && v.run.pc == Replaced
  {
    StepKeeps(w, Engine(Calm));
    LinkIsNext(w, Calm);
  }

  lemma ReplacedIsUnseen(w: World)
    requires Unseen(w) && w.run.pc == Replaced
    ensures var v := Next(w, Engine(Calm)); Unseen(v) && v.run.pc == PublishedJournal
  {
    StepKeeps(w, Engine(Calm));
  }

  lemma JournalIsUnseen(w: World)
    requires Unseen(w) && w.run.pc == PublishedJournal
    ensures var v := Next(w, Engine(Calm)); Unseen(v) && v.run.pc == SetCommitted
  {
    StepKeeps(w, Engine(Calm));
  }

  lemma CommitIsUnseen(w: World)
    requires Unseen(w) && w.run.pc == SetCommitted
    ensures CommittedUnseen(Next(w, Engine(Calm)))
  {
    StepKeeps(w, Engine(Calm));
    WritesCommit(w);
    assert EngineStep(w, Calm) == Commit(w, Calm);
  }

  lemma ReplacedCommitsUnseen(w: World)
    requires Unseen(w) && w.run.pc == Replaced
    ensures CanReach(UnseenCommitGoal, w)
  {
    ReplacedIsUnseen(w);
    var w1 := Next(w, Engine(Calm));
    JournalIsUnseen(w1);
    var w2 := Next(w1, Engine(Calm));
    CommitIsUnseen(w2);
    ReachedNow(UnseenCommitGoal, Next(w2, Engine(Calm)));
    ReachedLater(UnseenCommitGoal, w2, Engine(Calm));
    ReachedLater(UnseenCommitGoal, w1, Engine(Calm));
    ReachedLater(UnseenCommitGoal, w, Engine(Calm));
  }

  /** Every altered staged file that is about to be linked to a free destination can be committed unseen. */
  lemma AlteredLinkCommitsUnseen(w: World)
    requires Inv(w) && w.run.pc == Linking && w.altered && !w.seen && w.manifest.value.destination !in w.disk.dir
    requires w.disk.stage.Some?
    ensures CanReach(UnseenCommitGoal, w)
  {
    LinkIsUnseen(w);
    ReplacedCommitsUnseen(Next(w, Engine(Calm)));
    ReachedLater(UnseenCommitGoal, w, Engine(Calm));
  }

  lemma WriteAlters(w: World, name: Basename, content: Content)
    requires AtProbe(w) && name in w.disk.dir && w.disk.dir[name] == Regular(w.disk.stage.value)
    requires w.manifest.value.staged != Some(Sha256(content))
    ensures
      var v := Next(w, ForeignWrite(name, content));
      AtProbe(v) && v.altered
  {
    StepKeeps(w, ForeignWrite(name, content));
  }

  /** A foreign write through another link of the staged file, in the window, is enough. */
  lemma WriteInWindowCommitsUnseen(w: World, name: Basename, content: Content)
    requires AtProbe(w) && name in w.disk.dir && w.disk.dir[name] == Regular(w.disk.stage.value)
    requires w.manifest.value.staged != Some(Sha256(content))
    ensures CanReach(UnseenCommitGoal, w)
  {
    WriteAlters(w, name, content);
    var v := Next(w, ForeignWrite(name, content));
    FindsItFree(v);
    AlteredLinkCommitsUnseen(Next(v, Engine(Calm)));
    ReachedLater(UnseenCommitGoal, v, Engine(Calm));
    ReachedLater(UnseenCommitGoal, w, ForeignWrite(name, content));
  }

  // ---------------------------------------------------------------------
  // Another link of the staged file: published under one name, then rebound

  /** Ready and pending, with the staged file intact and already linked under a first name. */
  ghost predicate LinkedUnder(w: World, first: Basename) {
    && Inv(w)
    && w.raced == {}
    && w.manifest.Some?
    && w.manifest.value.phase == PhaseReadyToPublish
    && w.manifest.value.publication == PublicationPending
    && w.disk.stage.Some?
    && StageShows(w.disk) == w.manifest.value.staged
    && first in w.disk.dir
    && w.disk.dir[first] == Regular(w.disk.stage.value)
  }

  /** Everything but the process is as before. */
  predicate SameFiles(w: World, v: World) {
    v.manifest == w.manifest && v.disk == w.disk && v.raced == w.raced
  }

  lemma LinkIsClean(w: World)
    requires Inv(w) && w.run.pc == Linking && w.manifest.value.destination !in w.disk.dir && w.disk.stage.Some?
    requires !w.altered && w.raced == {} && w.manifest.value.publication == PublicationPending
    ensures
      var v := Link(w, Calm);
      && v.run.pc == Replaced && v.manifest == w.manifest && v.raced == {} && v.disk.stage == w.disk.stage
      && v.disk.dir == w.disk.dir[w.manifest.value.destination := Regular(w.disk.stage.value)]
      && StageShows(v.disk) == w.manifest.value.staged && w.manifest.value.phase == PhaseReadyToPublish
  {
  }

  lemma LinkingLinks(w: World)
    requires Inv(w) && w.run.pc == Linking && w.manifest.value.destination !in w.disk.dir && w.disk.stage.Some?
    requires !w.altered && w.raced == {} && w.manifest.value.publication == PublicationPending
    ensures
      var v := Next(w, Engine(Calm));
      LinkedUnder(v, w.manifest.value.destination) && v.run.pc == Replaced && v.manifest == w.manifest
  {
    StepKeeps(w, Engine(Calm));
    LinkIsClean(w);
    LinkIsNext(w, Calm);
  }

  lemma ProbeLinks(w: World)
    requires AtProbe(w) && !w.altered
    ensures
      var v := Next(Next(w, Engine(Calm)), Engine(Calm));
      LinkedUnder(v, w.manifest.value.destination) && v.run.pc == Replaced && v.manifest == w.manifest
  {
    FindsItFree(w);
    LinkingLinks(Next(w, Engine(Calm)));
  }

  lemma CrashLeaves(w: World, first: Basename)
    requires LinkedUnder(w, first)
    ensures var v := Next(w, Crash); LinkedUnder(v, first) && SameFiles(w, v) && v.run.pc == Down
  {
    StepKeeps(w, Crash);
  }

  lemma StartOpens(w: World, first: Basename, target: Basename)
    requires LinkedUnder(w, first) && w.run.pc == Down && target != ""
    ensures
      var v := Next(w, Start(target, false));
      LinkedUnder(v, first) && SameFiles(w, v) && v.run.pc == Opened && v.run.target == target && !v.run.created
      && !v.run.crashed && v.arbiter.state == A.Open
  {
    StepKeeps(w, Start(target, false));
  }

  /** Opened, for a stopped or active session that needs no reconciliation. */
  ghost predicate Opening(w: World, first: Basename) {
    && LinkedUnder(w, first)
    && w.manifest.value.status != StatusNeedsReconciliation
    && w.run.target != ""
    && !w.run.created
    && !w.run.crashed
    && w.arbiter.state == A.Open
  }

  lemma OpenedGoesOn(w: World, first: Basename)
    requires Opening(w, first) && w.run.pc == Opened
    ensures var v := Next(w, Engine(Calm)); Opening(v, first) && v == Observe(w, Goto(w, Reconciled))
  {
    StepKeeps(w, Engine(Calm));
    assert EngineStep(w, Calm) == Goto(w, Reconciled);
  }

  lemma ReconciledGoesOn(w: World, first: Basename)
    requires Opening(w, first) && w.run.pc == Reconciled
    ensures var v := Next(w, Engine(Calm)); Opening(v, first) && v == Observe(w, Goto(w, Rebinding))
  {
    StepKeeps(w, Engine(Calm));
    assert EngineStep(w, Calm) == Goto(w, Rebinding);
  }

  lemma OpenedComesToRebinding(w: World, first: Basename)
    requires Opening(w, first) && w.run.pc == Opened
    ensures
      var v := Next(Next(w, Engine(Calm)), Engine(Calm));
      Opening(v, first) && SameFiles(w, v) && v.run.pc == Rebinding && v.run.target == w.run.target
  {
    OpenedGoesOn(w, first);
    ReconciledGoesOn(Next(w, Engine(Calm)), first);
  }

  lemma BoundGoesOn(w: World, first: Basename)
    requires Opening(w, first) && w.run.pc == Rebinding && w.manifest.value.destination == w.run.target
    ensures var v := Next(w, Engine(Calm)); Opening(v, first) && SameFiles(w, v) && v.run.pc == Pausing
  {
    StepKeeps(w, Engine(Calm));
    assert EngineStep(w, Calm) == Goto(w, Pausing);
  }

  lemma ResiduePauses(w: World, first: Basename)
    requires Opening(w, first) && w.run.pc == Pausing && w.manifest.value.status == StatusActive
    ensures
      var v := Next(w, Engine(Calm));
      && LinkedUnder(v, first) && v.disk == w.disk && v.manifest.value.status == StatusPaused
      && v.manifest.value.destination == w.manifest.value.destination
      && v.manifest.value.staged == w.manifest.value.staged
  {
    StepKeeps(w, Engine(Calm));
    assert EngineStep(w, Calm) == PauseResidue(w, Calm);
  }

  lemma PausedRebinds(w: World, first: Basename)
    requires Opening(w, first) && w.run.pc == Rebinding && w.manifest.value.status == StatusPaused
    requires w.run.target !in w.disk.dir && w.run.target != w.manifest.value.destination
    ensures
      var v := Next(w, Engine(Calm));
      && Opening(v, first) && v.run.pc == Pausing && v.disk == w.disk
      && v.manifest.value.destination == v.run.target == w.run.target
  {
    StepKeeps(w, Engine(Calm));
    assert EngineStep(w, Calm) == Rebind(w, Calm);
  }

  lemma ReboundApproaches(w: World, first: Basename)
    requires Opening(w, first) && w.run.pc == Pausing && w.manifest.value.destination == w.run.target
    requires w.run.target !in w.disk.dir && !w.seen
    ensures Approaching(w, w)
  {
  }

  // Back from the end to the beginning.

  /** Bytes with another digest. */
  lemma OtherContent(staged: Fingerprint) returns (content: Content)
    ensures Sha256(content) != staged
  {
    content := staged.of + "x";
    assert |content| == |staged.of| + 1;
  }

  lemma LinkedProbeCommitsUnseen(w: World, first: Basename)
    requires AtProbe(w) && first in w.disk.dir && w.disk.dir[first] == Regular(w.disk.stage.value)
    ensures CanReach(UnseenCommitGoal, w)
  {
    var content := OtherContent(w.manifest.value.staged.value);
    WriteInWindowCommitsUnseen(w, first, content);
  }

  lemma ReboundCanCommitUnseen(w: World, first: Basename)
    requires Opening(w, first) && w.run.pc == Pausing && w.manifest.value.destination == w.run.target
    requires w.run.target !in w.disk.dir && !w.seen
    ensures CanReach(UnseenCommitGoal, w)
  {
    ReboundApproaches(w, first);
    ApproachContinues(w);
    var more :| ArrivesAfter(w, more);
    LinkedProbeCommitsUnseen(After(w, more), first);
    ReachedAfter(UnseenCommitGoal, w, more);
  }

  lemma PausedCanCommitUnseen(w: World, first: Basename, second: Basename)
    requires LinkedUnder(w, first) && w.run.pc == Down && w.manifest.value.status == StatusPaused
    requires second != "" && second !in w.disk.dir && second != w.manifest.value.destination
    ensures CanReach(UnseenCommitGoal, w)
  {
    StartOpens(w, first, second);
    var w1 := Next(w, Start(second, false));
    OpenedComesToRebinding(w1, first);
    var w2 := Next(w1, Engine(Calm));
    var w3 := Next(w2, Engine(Calm));
    PausedRebinds(w3, first);
    ReboundCanCommitUnseen(Next(w3, Engine(Calm)), first);
    ReachedLater(UnseenCommitGoal, w3, Engine(Calm));
    ReachedLater(UnseenCommitGoal, w2, Engine(Calm));
    ReachedLater(UnseenCommitGoal, w1, Engine(Calm));
    ReachedLater(UnseenCommitGoal, w, Start(second, false));
  }

  lemma ActiveCanCommitUnseen(w: World, second: Basename)
    requires w.manifest.Some? && LinkedUnder(w, w.manifest.value.destination)
    requires w.run.pc == Down && w.manifest.value.status == StatusActive
    requires second != "" && second !in w.disk.dir && second != w.manifest.value.destination
    ensures CanReach(UnseenCommitGoal, w)
  {
    var first := w.manifest.value.destination;
    StartOpens(w, first, first);
    var w1 := Next(w, Start(first, false));
    OpenedComesToRebinding(w1, first);
    var w2 := Next(w1, Engine(Calm));
    var w3 := Next(w2, Engine(Calm));
    BoundGoesOn(w3, first);
    var w4 := Next(w3, Engine(Calm));
    ResiduePauses(w4, first);
    var w5 := Next(w4, Engine(Calm));
    CrashLeaves(w5, first);
    PausedCanCommitUnseen(Next(w5, Crash), first, second);
    ReachedLater(UnseenCommitGoal, w5, Crash);
    ReachedLater(UnseenCommitGoal, w4, Engine(Calm));
    ReachedLater(UnseenCommitGoal, w3, Engine(Calm));
    ReachedLater(UnseenCommitGoal, w2, Engine(Calm));
    ReachedLater(UnseenCommitGoal, w1, Engine(Calm));
    ReachedLater(UnseenCommitGoal, w, Start(first, false));
  }

  lemma {:induction false} LengthBound(names: set<Basename>) returns (bound: nat)
    ensures forall n :: n in names ==> |n| < bound
  {
    if names == {} {
      bound := 1;
    } else {
      var n :| n in names;
      bound := LengthBound(names - {n});
      bound := if |n| < bound then bound else |n| + 1;
    }
  }

  lemma FreeName(names: set<Basename>) returns (name: Basename)
    ensures name != "" && name !in names
  {
    var bound := LengthBound(names);
    name := seq(bound + 1, i => 'x');
    assert |name| == bound + 1;
  }

  lemma LinkedCanCommitUnseen(w: World)
    requires w.manifest.Some? && LinkedUnder(w, w.manifest.value.destination) && w.run.pc == Replaced
    ensures CanReach(UnseenCommitGoal, w)
  {
    CrashLeaves(w, w.manifest.value.destination);
    var second := FreeName(w.disk.dir.Keys);
    ActiveCanCommitUnseen(Next(w, Crash), second);
    ReachedLater(UnseenCommitGoal, w, Crash);
  }

  /** From every look at a free destination a history leads to a committed output that was never shown. */
  lemma ProbeCanCommitUnseen(w: World)
    requires AtProbe(w)
    ensures CanReach(UnseenCommitGoal, w)
  {
    if w.altered {
      FindsItFree(w);
      AlteredLinkCommitsUnseen(Next(w, Engine(Calm)));
    } else {
      ProbeLinks(w);
      var linking := Next(w, Engine(Calm));
      LinkedCanCommitUnseen(Next(linking, Engine(Calm)));
      ReachedLater(UnseenCommitGoal, linking, Engine(Calm));
    }
    ReachedLater(UnseenCommitGoal, w, Engine(Calm));
  }

  lemma UnseenCommitOccurs()
    ensures exists es :: CommittedUnseen(Run(es))
  {
    FirstRunApproaches();
    forall w | AtProbe(w) && Evidenced(w) && !w.altered ensures CanReach(UnseenCommitGoal, w) {
      ProbeCanCommitUnseen(w);
    }
    FirstRunReaches(UnseenCommitGoal, [Start("out", false)]);
    var es :| Meets(UnseenCommitGoal, Run(es));
    assert CommittedUnseen(Run(es));
  }
}
