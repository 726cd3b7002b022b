/**
 Where the protocol stops short of what it is for, stated exactly: sessions that
 no future can resolve, and a cancel that wins over a link left in place.
 */
module PublicationLimits {
  import opened Common
  import opened SessionManifest
  import opened PublicationProtocol
  import opened PublicationInvariant
  import opened PublicationRecovery
  import opened PublicationReconciliation
  import opened PublicationHistory
  import opened PublicationSafety
  import A = ArbiterSpec

  // ---------------------------------------------------------------------
  // Histories that continue

  function After(w: World, more: seq<Event>): World {
    Fold(Next, w, more)
  }

  lemma AfterFirst(w: World, e: Event, more: seq<Event>)
    ensures After(w, [e] + more) == After(Next(w, e), more)
  {
    FoldTwice(Next, w, [e], more);
    FoldOne(Next, w, e);
  }

  lemma AfterOne(w: World, e: Event)
    ensures After(w, [e]) == Next(w, e)
  {
    FoldOne(Next, w, e);
  }

  lemma AfterTwo(w: World, e: Event, f: Event)
    ensures After(w, [e, f]) == Next(Next(w, e), f)
  {
    AfterOne(w, e);
    AfterOne(Next(w, e), f);
    AfterThenAfter(w, [e], [f]);
    assert [e] + [f] == [e, f];
  }

  lemma RunThenAfter(es: seq<Event>, more: seq<Event>)
    ensures Run(es + more) == After(Run(es), more)
  {
    FoldTwice(Next, Empty, es, more);
  }

  lemma AfterThenAfter(w: World, first: seq<Event>, second: seq<Event>)
    ensures After(w, first + second) == After(After(w, first), second)
  {
    FoldTwice(Next, w, first, second);
  }

  function CalmSteps(k: nat): seq<Event> {
    if k == 0 then [] else [Engine(Calm)] + CalmSteps(k - 1)
  }

  lemma {:induction false} CalmlyIsAfter(w: World, k: nat)
    ensures Calmly(w, k) == After(w, CalmSteps(k))
    decreases k
  {
    if k > 0 {
      CalmlyIsAfter(Next(w, Engine(Calm)), k - 1);
      AfterFirst(w, Engine(Calm), CalmSteps(k - 1));
    }
  }

  // ---------------------------------------------------------------------
  // Wedged sessions

  /**
   Reconciliation has nothing left to do for these: a publication already put
   back to pending, or an indeterminate one whose journal does not say so.
   */
  predicate Wedged(w: World) {
    && Unresolved(w)
    && (w.manifest.value.publication == PublicationPending
        || (w.manifest.value.publication == PublicationIndeterminate
            && !(w.journal.Some? && w.journal.value.state == JournalIndeterminate)))
    && match w.run.pc {
         case Down => true
         case Opened => true
         case ReadJournal => true
         case CloseCommitted => w.manifest.value.publication == PublicationPending
         case _ => false
       }
  }

  lemma WedgedWeighs(w: World, f: Fault)
    requires Wedged(w) && w.run.pc == ReadJournal
    ensures
      var v := EngineStep(w, f);
      v == Goto(w, Down) || (v == Goto(w, CloseCommitted) && w.manifest.value.publication == PublicationPending)
  {
    assert EngineStep(w, f) == WeighEvidence(w, f);
  }

  lemma WedgedEngine(w: World, f: Fault)
    requires Inv(w) && Wedged(w)
    ensures Wedged(EngineStep(w, f)) && EngineStep(w, f).manifest == w.manifest
  {
    if w.run.pc == CloseCommitted {
      RefusesPendingAsCompleted(w);
      assert EngineStep(w, Engine(f).fault) == Goto(w, Down);
    } else if w.run.pc == ReadJournal {
      WedgedWeighs(w, f);
    } else if w.run.pc == Opened {
      assert EngineStep(w, f) == Goto(w, ReadJournal);
    }
  }

  lemma WedgedOutside(w: World, e: Event)
    requires Wedged(w) && !e.Engine?
    ensures Wedged(RawStep(w, e)) && RawStep(w, e).manifest == w.manifest
  {
  }

  lemma WedgedStep(w: World, e: Event)
    requires Inv(w) && Wedged(w)
    ensures Wedged(Next(w, e)) && Next(w, e).manifest == w.manifest
  {
    if e.Engine? {
      WedgedEngine(w, e.fault);
    } else {
      WedgedOutside(w, e);
    }
    assert Wedged(RawStep(w, e));
  }

  lemma {:induction false} WedgedAfter(w: World, more: seq<Event>)
    requires Inv(w) && Wedged(w)
    ensures Inv(After(w, more)) && Wedged(After(w, more)) && After(w, more).manifest == w.manifest
    decreases |more|
  {
    if more != [] {
      var n := |more| - 1;
      WedgedAfter(w, more[..n]);
      StepKeeps(After(w, more[..n]), more[n]);
      WedgedStep(After(w, more[..n]), more[n]);
    }
  }

  /** A wedged session stays exactly as it is, whatever is tried, repaired or restarted afterwards. */
  lemma {:induction false} WedgedForever(es: seq<Event>, more: seq<Event>)
    requires Wedged(Run(es))
    ensures Wedged(Run(es + more)) && Run(es + more).manifest == Run(es).manifest
  {
    AlwaysInv(es);
    WedgedAfter(Run(es), more);
    RunThenAfter(es, more);
  }

  /** Putting the staged bytes at the destination by hand. */
  function Repair(w: World): seq<Event>
    requires Unresolved(w) && w.manifest.value.staged.Some?
  {
    var m := w.manifest.value;
    [ForeignRemove(m.destination), ForeignCreate(m.destination, m.staged.value.of)]
  }

  lemma RepairedIsReconcilable(w: World)
    requires Inv(w) && Evidenced(w) && w.run.pc == Down && Unresolved(w) && !Wedged(w)
    ensures
      var v := After(w, Repair(w));
      Inv(v) && v.run.pc == Down && v.manifest == w.manifest && Reconcilable(v)
  {
    var m := w.manifest.value;
    var removed := Next(w, ForeignRemove(m.destination));
    StepKeeps(w, ForeignRemove(m.destination));
    StepKeeps(removed, ForeignCreate(m.destination, m.staged.value.of));
    AfterTwo(w, Repair(w)[0], Repair(w)[1]);
    RepairReconciles(w);
  }

  lemma RepairReconciles(w: World)
    requires Inv(w) && Evidenced(w) && w.run.pc == Down && Unresolved(w) && !Wedged(w)
    ensures
      var m := w.manifest.value;
      var v := Next(Next(w, ForeignRemove(m.destination)), ForeignCreate(m.destination, m.staged.value.of));
      v.run.pc == Down && v.manifest == w.manifest && Reconcilable(v)
  {
  }

  /** Continuing by `more` ends with the output of this session published. */
  predicate PublishedAfter(w: World, more: seq<Event>) {
    Published(After(w, more)) && SameBinding(After(w, more).manifest, w.manifest)
  }

  lemma ReconcilableCanRecover(w: World)
    requires Inv(w) && w.run.pc == Down && Unresolved(w) && Reconcilable(w)
    ensures exists more :: PublishedAfter(w, more)
  {
    var start := Start(w.manifest.value.destination, false);
    ReconcilableConvergesFrom(w, w.manifest.value.destination, false);
    var k: nat :| PublishedAsStaged(w, Calmly(Next(w, start), k));
    CalmlyIsAfter(Next(w, start), k);
    AfterFirst(w, start, CalmSteps(k));
    assert PublishedAfter(w, [start] + CalmSteps(k));
  }

  lemma UnwedgedCanRecoverFrom(w: World)
    requires Inv(w) && Evidenced(w) && w.run.pc == Down && Unresolved(w) && !Wedged(w)
    ensures exists more :: PublishedAfter(w, more)
  {
    var fix := Repair(w);
    RepairedIsReconcilable(w);
    ReconcilableCanRecover(After(w, fix));
    var more :| PublishedAfter(After(w, fix), more);
    AfterThenAfter(w, fix, more);
    assert PublishedAfter(w, fix + more);
  }

  /** Every unresolved session that is not wedged can still be published, from every history. */
  lemma {:induction false} UnwedgedCanRecover(es: seq<Event>)
    requires Run(es).run.pc == Down && Unresolved(Run(es)) && !Wedged(Run(es))
    ensures exists more :: Published(Run(es + more)) && SameBinding(Run(es + more).manifest, Run(es).manifest)
  {
    AlwaysInv(es);
    AlwaysEvidenced(es);
    UnwedgedCanRecoverFrom(Run(es));
    var more :| PublishedAfter(Run(es), more);
    RunThenAfter(es, more);
  }

  // ---------------------------------------------------------------------
  // Ends that can be reached

  datatype Goal = WedgedGoal | PendingWedgeGoal | LinkedCancelGoal | UnseenCommitGoal

  /** The cancel has won and the link of this attempt is in place. */
  predicate CancelHasWonOverLink(w: World) {
    w.arbiter.state == A.CancelWon && InPlace(w)
  }

  /** The publication is recorded as committed, and the destination shows other bytes and has shown nothing else. */
  predicate CommittedUnseen(w: World) {
    && w.manifest.Some?
    && w.manifest.value.publication == PublicationCommitted
    && !w.seen
    && Shows(w.disk, w.manifest.value.destination).Some?
    && !Agrees(w)
  }

  predicate Meets(goal: Goal, w: World) {
    match goal
    case WedgedGoal => Wedged(w)
    case PendingWedgeGoal => WedgedPending(w)
    case LinkedCancelGoal => CancelHasWonOverLink(w)
    case UnseenCommitGoal => CommittedUnseen(w)
  }

  ghost predicate CanReach(goal: Goal, w: World) {
    exists more :: Meets(goal, After(w, more))
  }

  lemma ReachedNow(goal: Goal, w: World)
    requires Meets(goal, w)
    ensures CanReach(goal, w)
  {
    assert After(w, []) == w;
  }

  lemma ReachedLater(goal: Goal, w: World, e: Event)
    requires CanReach(goal, Next(w, e))
    ensures CanReach(goal, w)
  {
    var more :| Meets(goal, After(Next(w, e), more));
    AfterFirst(w, e, more);
  }

  lemma ReachedAfter(goal: Goal, w: World, first: seq<Event>)
    requires CanReach(goal, After(w, first))
    ensures CanReach(goal, w)
  {
    var more :| Meets(goal, After(After(w, first), more));
    AfterThenAfter(w, first, more);
  }

  lemma {:induction false} ReachedInARun(goal: Goal, es: seq<Event>)
    requires CanReach(goal, Run(es))
    ensures exists fs :: Meets(goal, Run(fs))
  {
    var more :| Meets(goal, After(Run(es), more));
    RunThenAfter(es, more);
  }

  // ---------------------------------------------------------------------
  // The way to the look at the destination

  /** About to look at a free destination, with the publication recorded as pending. */
  ghost predicate AtProbe(w: World) {
    && Inv(w)
    && w.run.pc == ProbeDestination
    && w.manifest.value.publication == PublicationPending
    && w.manifest.value.destination !in w.disk.dir
    && w.disk.stage.Some?
    && !w.seen
    && w.raced == {}
  }

  /** On the way to that look, in a session that has never shown an output. */
  ghost predicate Approaching(start: World, w: World)
    requires start.manifest.Some?
  {
    && Inv(w)
    && Track(start, w)
    && (Looking(w) || w.run.pc == ProbeDestination)
    && w.manifest.value.destination !in w.disk.dir
    && !w.seen
    && w.raced == {}
    && (IsReady(start.manifest.value) ==> w.disk == start.disk)
  }

  lemma LookingKeepsDisk(w: World)
    requires w.manifest.Some? && Looking(w)
    requires w.run.pc != Fetching && w.run.pc != Staging && w.run.pc != Merging
    ensures EngineStep(w, Calm).disk == w.disk
  {
    match PartOf(w.run.pc) {
      case Reconciling => return;
      case Preparing => return;
      case Building => return;
      case Announcing => return;
      case Replacing => return;
      case Settling =>
      case Recovering =>
    }
  }

  lemma ReadyIsBuilt(w: World)
    requires Inv(w) && w.run.pc != Down && IsReady(w.manifest.value)
    ensures w.run.pc != Fetching && w.run.pc != Staging && w.run.pc != Merging
  {
  }

  lemma ApproachStep(start: World, w: World)
    requires start.manifest.Some? && Approaching(start, w) && Looking(w)
    ensures Approaching(start, Next(w, Engine(Calm))) && Rank(Next(w, Engine(Calm))) < Rank(w)
  {
    StepKeeps(w, Engine(Calm));
    TrackAdvances(start, w);
    EngineExtends(w, Calm);
    assert w.run.pc != Linking;
    EngineRaces(w, Calm);
    if IsReady(start.manifest.value) {
      ReadyIsBuilt(w);
      LookingKeepsDisk(w);
    }
  }

  ghost predicate ArrivedUnaltered(w: World) {
    AtProbe(w) && !w.altered
  }

  lemma {:induction false} ApproachArrives(start: World, w: World)
    requires start.manifest.Some? && Approaching(start, w)
    ensures exists k :: ArrivedUnaltered(Calmly(w, k)) && Approaching(start, Calmly(w, k))
    decreases Rank(w)
  {
    if w.run.pc == ProbeDestination {
      assert Calmly(w, 0) == w;
      assert ArrivedUnaltered(w);
    } else {
      var next := Next(w, Engine(Calm));
      ApproachStep(start, w);
      ApproachArrives(start, next);
      var k: nat :| ArrivedUnaltered(Calmly(next, k)) && Approaching(start, Calmly(next, k));
      assert Calmly(w, k + 1) == Calmly(next, k);
    }
  }

  /** After this continuation the engine looks at a free destination, with the files of a ready session unchanged. */
  ghost predicate ArrivesAfter(w: World, more: seq<Event>) {
    var v := After(w, more);
    AtProbe(v) && !v.altered && (w.manifest.Some? && IsReady(w.manifest.value) ==> v.disk == w.disk)
  }

  lemma ApproachContinues(w: World)
    requires w.manifest.Some? && Approaching(w, w)
    ensures exists more :: ArrivesAfter(w, more)
  {
    ApproachArrives(w, w);
    var k: nat :| ArrivedUnaltered(Calmly(w, k)) && Approaching(w, Calmly(w, k));
    CalmlyIsAfter(w, k);
    assert ArrivesAfter(w, CalmSteps(k));
  }

  /** The first session ever opened. */
  function Opening(multi: bool): World {
    Next(Empty, Start("out", multi))
  }

  lemma OpeningIsARun(multi: bool)
    ensures Run([Start("out", multi)]) == Opening(multi) && Inv(Opening(multi))
  {
    FoldOne(Next, Empty, Start("out", multi));
    AlwaysInv([Start("out", multi)]);
  }

  lemma OpeningTracks(multi: bool)
    ensures
      var w := Opening(multi);
      && w.manifest.Some? && Track(w, w) && Looking(w) && w.run.pc == Opened && w.run.multi == multi
      && w.manifest.value.phase == PhasePrepared && w.manifest.value.staged.None?
      && w.disk == Empty.disk && !w.seen && w.raced == {}
  {
  }

  lemma FirstRunApproaches()
    ensures var w := Run([Start("out", false)]); w.manifest.Some? && Approaching(w, w)
  {
    OpeningIsARun(false);
    OpeningTracks(false);
  }

  lemma FirstRunReaches(goal: Goal, es: seq<Event>)
    requires Run(es).manifest.Some? && Approaching(Run(es), Run(es))
    requires forall w :: AtProbe(w) && Evidenced(w) && !w.altered ==> CanReach(goal, w)
    ensures exists fs :: Meets(goal, Run(fs))
  {
    ApproachContinues(Run(es));
    var more :| ArrivesAfter(Run(es), more);
    RunThenAfter(es, more);
    AlwaysEvidenced(es + more);
    ReachedInARun(goal, es + more);
  }

  // ---------------------------------------------------------------------
  // A wedge occurs

  // Each of the following steps is taken from a world at one program point.

  lemma SightIsLost(w: World)
    requires w.manifest.Some? && w.run.pc == ProbeDestination
    ensures EngineStep(w, Calm.(statFails := true)) == Goto(w, Doubtful)
  {
  }

  lemma LosesSight(w: World)
    requires AtProbe(w)
    ensures
      var v := Next(w, Engine(Calm.(statFails := true)));
      Inv(v) && v.run.pc == Doubtful && v.manifest == w.manifest && v.journal == w.journal && v.disk == w.disk
  {
    SightIsLost(w);
    StepKeeps(w, Engine(Calm.(statFails := true)));
  }

  lemma DoubtIsConcluded(w: World)
    requires w.manifest.Some? && w.run.pc == Doubtful
    ensures EngineStep(w, Calm) == Conclude(w, A.MarkIndeterminate, DoubtfulJournal)
  {
  }

  lemma GivesUp(w: World)
    requires Inv(w) && w.run.pc == Doubtful
    ensures
      var v := Next(w, Engine(Calm));
      Inv(v) && v.run.pc == DoubtfulJournal && v.manifest == w.manifest && v.journal == w.journal && v.disk == w.disk
  {
    DoubtIsConcluded(w);
    StepKeeps(w, Engine(Calm));
  }

  lemma JournalIsLost(w: World)
    requires w.manifest.Some? && w.run.pc == DoubtfulJournal
    ensures EngineStep(w, Calm.(lost := true)) == Goto(w, MarkDoubtful)
  {
  }

  lemma LosesTheJournal(w: World)
    requires Inv(w) && w.run.pc == DoubtfulJournal
    ensures
      var v := Next(w, Engine(Calm.(lost := true)));
      Inv(v) && v.run.pc == MarkDoubtful && v.manifest == w.manifest && v.journal == w.journal
  {
    JournalIsLost(w);
    StepKeeps(w, Engine(Calm.(lost := true)));
  }

  lemma DoubtIsWritten(w: World)
    requires Local(w) && w.run.pc == MarkDoubtful && w.manifest.value.publication == PublicationPending
    ensures
      var v := RecordDoubt(w, Calm);
      v.run.pc == Down && v.journal == w.journal && Unresolved(v)
      && v.manifest.value.publication == PublicationIndeterminate
  {
  }

  lemma RecordIsNext(w: World)
    requires w.manifest.Some? && w.run.pc == MarkDoubtful
    ensures EngineStep(w, Calm) == RecordDoubt(w, Calm)
  {
  }

  lemma WritesDoubt(w: World)
    requires Inv(w) && w.run.pc == MarkDoubtful && w.manifest.value.publication == PublicationPending
    ensures
      var v := Next(w, Engine(Calm));
      Unresolved(v) && v.run.pc == Down && v.journal == w.journal
      && v.manifest.value.publication == PublicationIndeterminate
  {
    DoubtIsWritten(w);
    RecordIsNext(w);
  }

  /** A doubtful outcome whose journal entry is lost wedges the session. */
  lemma LostDoubtWedges(w: World)
    requires Inv(w) && Evidenced(w) && w.run.pc == DoubtfulJournal && w.manifest.value.publication == PublicationPending
    ensures CanReach(WedgedGoal, w)
  {
    LosesTheJournal(w);
    var lost := Next(w, Engine(Calm.(lost := true)));
    WritesDoubt(lost);
    ReachedNow(WedgedGoal, Next(lost, Engine(Calm)));
    ReachedLater(WedgedGoal, lost, Engine(Calm));
    ReachedLater(WedgedGoal, w, Engine(Calm.(lost := true)));
  }

  lemma ProbeCanWedge(w: World)
    requires AtProbe(w) && Evidenced(w)
    ensures CanReach(WedgedGoal, w)
  {
    LosesSight(w);
    var doubtful := Next(w, Engine(Calm.(statFails := true)));
    GivesUp(doubtful);
    LostDoubtWedges(Next(doubtful, Engine(Calm)));
    ReachedLater(WedgedGoal, doubtful, Engine(Calm));
    ReachedLater(WedgedGoal, w, Engine(Calm.(statFails := true)));
  }

  lemma WedgeOccurs()
    ensures exists es :: Wedged(Run(es))
  {
    FirstRunApproaches();
    forall w | AtProbe(w) && Evidenced(w) && !w.altered ensures CanReach(WedgedGoal, w) {
      ProbeCanWedge(w);
    }
    FirstRunReaches(WedgedGoal, [Start("out", false)]);
    var es :| Meets(WedgedGoal, Run(es));
    assert Wedged(Run(es));
  }

  lemma PendingIsWritten(w: World)
    requires Inv(w) && w.run.pc == ResolvePending
    ensures var v := Next(w, Engine(Calm)); Unresolved(v) && v.manifest.value.publication == PublicationPending
  {
    WritesPending(w);
  }

  lemma CrashWedges(v: World)
    requires Unresolved(v) && v.manifest.value.publication == PublicationPending
    ensures
      var u := Next(v, Crash);
      Wedged(u) && u.manifest.value.publication == PublicationPending
  {
  }

  /** A wedge that a crashed reconciliation leaves: the publication is back to pending. */
  predicate WedgedPending(w: World) {
    Wedged(w) && w.manifest.value.publication == PublicationPending
  }

  lemma CrashAfterPendingWedges(w: World)
    requires Inv(w) && w.run.pc == ResolvePending
    ensures WedgedPending(Next(Next(w, Engine(Calm)), Crash))
  {
    PendingIsWritten(w);
    CrashWedges(Next(w, Engine(Calm)));
  }

  /** A crash between the two writes of a reconciliation wedges the session. */
  lemma {:induction false} CrashWhileReconcilingWedges(es: seq<Event>)
    requires Run(es).run.pc == ResolvePending
    ensures WedgedPending(Run(es + [Engine(Calm), Crash]))
  {
    AlwaysInv(es);
    CrashAfterPendingWedges(Run(es));
    RunThenAfter(es, [Engine(Calm), Crash]);
    AfterTwo(Run(es), Engine(Calm), Crash);
  }

  // The way to such a reconciliation: an outcome in doubt, duly recorded, and a restart.

  lemma JournalSaysDoubt(w: World)
    requires w.manifest.Some? && w.run.pc == DoubtfulJournal && JournalNames(w)
    requires w.run.target == w.manifest.value.destination
    ensures
      var v := WriteJournal(w, JournalIndeterminate, Calm, MarkDoubtful, MarkDoubtful);
      && v.run.pc == MarkDoubtful && v.manifest == w.manifest && v.disk == w.disk
      && JournalNames(v) && v.journal.value.state == JournalIndeterminate
  {
  }

  lemma DoubtJournalIsNext(w: World)
    requires w.manifest.Some? && w.run.pc == DoubtfulJournal
    ensures EngineStep(w, Calm) == WriteJournal(w, JournalIndeterminate, Calm, MarkDoubtful, MarkDoubtful)
  {
  }

  lemma DoubtIsJournalled(w: World)
    requires w.manifest.Some? && w.run.pc == DoubtfulJournal && JournalNames(w)
    requires w.run.target == w.manifest.value.destination
    ensures
      var v := Next(w, Engine(Calm));
      && v.run.pc == MarkDoubtful && v.manifest == w.manifest && v.disk == w.disk
      && JournalNames(v) && v.journal.value.state == JournalIndeterminate
  {
    JournalSaysDoubt(w);
    DoubtJournalIsNext(w);
  }

  lemma DoubtIsRecorded(w: World)
    requires Inv(w) && w.run.pc == MarkDoubtful && w.manifest.value.publication == PublicationPending
    requires JournalNames(w) && w.journal.value.state == JournalIndeterminate
    requires w.manifest.value.destination !in w.disk.dir && StageShows(w.disk) == w.manifest.value.staged
    ensures
      var v := RecordDoubt(w, Calm);
      && v.run.pc == Down && Unresolved(v) && Reconcilable(v) && Absent(v)
      && v.manifest.value.publication == PublicationIndeterminate
  {
    DoubtIsWritten(w);
    DoubtKeepsBinding(w);
  }

  lemma DoubtIsKept(w: World)
    requires Inv(w) && w.run.pc == MarkDoubtful && w.manifest.value.publication == PublicationPending
    requires JournalNames(w) && w.journal.value.state == JournalIndeterminate
    requires w.manifest.value.destination !in w.disk.dir && StageShows(w.disk) == w.manifest.value.staged
    ensures
      var v := Next(w, Engine(Calm));
      && Inv(v) && v.run.pc == Down && Unresolved(v) && Reconcilable(v) && Absent(v)
      && v.manifest.value.publication == PublicationIndeterminate
  {
    DoubtIsRecorded(w);
    StepKeeps(w, Engine(Calm));
    RecordIsNext(w);
  }

  lemma DoubtKeepsBinding(w: World)
    requires Local(w) && w.run.pc == MarkDoubtful
    ensures
      var v := RecordDoubt(w, Calm);
      SameBinding(w.manifest, v.manifest) && v.disk == w.disk && v.journal == w.journal
  {
  }

  /** Restarted with an absent output, about to put the publication back to pending. */
  lemma RestartComesToPending(w: World)
    requires Inv(w) && w.run.pc == Down && Unresolved(w) && Reconcilable(w) && Absent(w)
    requires w.manifest.value.publication == PublicationIndeterminate
    ensures CanReach(PendingWedgeGoal, w)
  {
    var start := Start(w.manifest.value.destination, false);
    var w1 := Next(w, start);
    StepKeeps(w, start);
    assert EngineStep(w1, Calm) == Goto(w1, ReadJournal);
    StepKeeps(w1, Engine(Calm));
    var w2 := Next(w1, Engine(Calm));
    EvidenceLeads(w2);
    StepKeeps(w2, Engine(Calm));
    var w3 := Next(w2, Engine(Calm));
    ProbedCanWedge(w3);
    ReachedLater(PendingWedgeGoal, w2, Engine(Calm));
    ReachedLater(PendingWedgeGoal, w1, Engine(Calm));
    ReachedLater(PendingWedgeGoal, w, start);
  }

  lemma ProbedCanWedge(w: World)
    requires Inv(w) && w.run.pc == ProbeUnpublished && JournalNames(w) && Absent(w)
    ensures CanReach(PendingWedgeGoal, w)
  {
    assert EngineStep(w, Calm) == Goto(w, ResolvePending);
    StepKeeps(w, Engine(Calm));
    var w1 := Next(w, Engine(Calm));
    CrashAfterPendingWedges(w1);
    var w2 := Next(w1, Engine(Calm));
    ReachedNow(PendingWedgeGoal, Next(w2, Crash));
    ReachedLater(PendingWedgeGoal, w2, Crash);
    ReachedLater(PendingWedgeGoal, w1, Engine(Calm));
    ReachedLater(PendingWedgeGoal, w, Engine(Calm));
  }

  lemma DoubtCanWedgePending(w: World)
    requires Inv(w) && Evidenced(w) && w.run.pc == DoubtfulJournal && w.manifest.value.publication == PublicationPending
    requires w.manifest.value.destination !in w.disk.dir && StageShows(w.disk) == w.manifest.value.staged
    ensures CanReach(PendingWedgeGoal, w)
  {
    DoubtIsJournalled(w);
    StepKeeps(w, Engine(Calm));
    var w1 := Next(w, Engine(Calm));
    DoubtIsKept(w1);
    RestartComesToPending(Next(w1, Engine(Calm)));
    ReachedLater(PendingWedgeGoal, w1, Engine(Calm));
    ReachedLater(PendingWedgeGoal, w, Engine(Calm));
  }

  lemma ProbeCanWedgePending(w: World)
    requires AtProbe(w) && Evidenced(w) && !w.altered
    ensures CanReach(PendingWedgeGoal, w)
  {
    LosesSight(w);
    var doubtful := Next(w, Engine(Calm.(statFails := true)));
    GivesUp(doubtful);
    DoubtCanWedgePending(Next(doubtful, Engine(Calm)));
    ReachedLater(PendingWedgeGoal, doubtful, Engine(Calm));
    ReachedLater(PendingWedgeGoal, w, Engine(Calm.(statFails := true)));
  }

  /** A reconciliation that crashes between its two writes does occur, and wedges the session. */
  lemma ReconcilingWedgeOccurs()
    ensures exists es :: WedgedPending(Run(es))
  {
    FirstRunApproaches();
    forall w | AtProbe(w) && Evidenced(w) && !w.altered ensures CanReach(PendingWedgeGoal, w) {
      ProbeCanWedgePending(w);
    }
    FirstRunReaches(PendingWedgeGoal, [Start("out", false)]);
    var es :| Meets(PendingWedgeGoal, Run(es));
    assert WedgedPending(Run(es));
  }

  // ---------------------------------------------------------------------
  // A cancel can win over a link, in both ways

  lemma FindsItFree(w: World)
    requires AtProbe(w)
    ensures
      var v := Next(w, Engine(Calm));
      Inv(v) && v == Goto(w, Linking)
  {
    StepKeeps(w, Engine(Calm));
    assert LookAtDestination(w, Calm) == Goto(w, Linking);
  }

  lemma FailingLinkApplies(w: World, exist: bool)
    requires w.manifest.Some? && w.manifest.value.destination !in w.disk.dir && w.disk.stage.Some?
    ensures
      var v := Link(w, Calm.(err := true, eexist := exist));
      InPlace(v) && v.disk.stage.Some? && v.run.pc == if exist then CompareDestination else RecheckContent
  {
  }

  /** This attempt's link is in place and its reservation is live. */
  predicate LinkedAndLive(w: World) {
    && w.manifest.Some?
    && InPlace(w)
    && w.disk.stage.Some?
    && w.arbiter.state == A.PublicationReserved
    && w.run.guard.Some?
    && w.arbiter.active == w.run.guard
  }

  lemma LinkIsNext(w: World, f: Fault)
    requires w.manifest.Some? && w.run.pc == Linking
    ensures EngineStep(w, f) == Link(w, f)
  {
  }

  lemma LinkingIsLive(w: World)
    requires Inv(w) && w.run.pc == Linking
    ensures w.arbiter.state == A.PublicationReserved && w.run.guard.Some? && w.arbiter.active == w.run.guard
  {
  }

  lemma LinksWithAnError(w: World, exist: bool)
    requires w.manifest.Some? && w.run.pc == Linking
    requires w.manifest.value.destination !in w.disk.dir && w.disk.stage.Some?
    requires w.arbiter.state == A.PublicationReserved && w.run.guard.Some? && w.arbiter.active == w.run.guard
    ensures
      var v := Next(w, Engine(Calm.(err := true, eexist := exist)));
      LinkedAndLive(v) && v.run.pc == if exist then CompareDestination else RecheckContent
  {
    FailingLinkApplies(w, exist);
    LinkIsNext(w, Calm.(err := true, eexist := exist));
  }

  lemma ReadFails(w: World)
    requires w.manifest.Some? && (w.run.pc == RecheckContent || w.run.pc == CompareDestination)
    ensures
      var f := Calm.(unreadable := true);
      EngineStep(w, f) == if w.run.pc == RecheckContent then Goto(w, RecheckNames) else CompareBytes(w, f)
  {
  }

  lemma CannotReadIt(w: World)
    requires LinkedAndLive(w) && (w.run.pc == RecheckContent || w.run.pc == CompareDestination)
    ensures
      var v := Next(w, Engine(Calm.(unreadable := true)));
      LinkedAndLive(v) && v.run.pc == if w.run.pc == RecheckContent then RecheckNames else Collided
  {
    ReadFails(w);
  }

  lemma StatFails(w: World)
    requires w.manifest.Some? && w.run.pc == RecheckNames && w.disk.stage.Some?
    ensures EngineStep(w, Calm.(statFails := true)) == RecheckBoth(w, Calm.(statFails := true))
    ensures RecheckBoth(w, Calm.(statFails := true)).run.pc == Precommitted
  {
  }

  lemma TakesItForAbsent(w: World)
    requires LinkedAndLive(w) && w.run.pc == RecheckNames
    ensures
      var v := Next(w, Engine(Calm.(statFails := true)));
      LinkedAndLive(v) && v.run.pc == Precommitted
  {
    StatFails(w);
  }

  lemma AbortConcludes(w: World)
    requires w.manifest.Some? && (w.run.pc == Precommitted || w.run.pc == Collided)
    ensures EngineStep(w, Calm) == Conclude(w, A.AbortBeforeReplace, if w.run.pc == Precommitted then Down
                                                                      else CollisionJournal)
  {
  }

  lemma AbortOpens(w: World)
    requires LinkedAndLive(w) && (w.run.pc == Precommitted || w.run.pc == Collided)
    ensures
      var v := Next(w, Engine(Calm));
      InPlace(v) && v.arbiter.state == A.Open
  {
    AbortConcludes(w);
  }

  lemma CancelWins(w: World)
    requires w.arbiter.state == A.Open && InPlace(w)
    ensures CanReach(LinkedCancelGoal, w)
  {
    var reserved := Next(w, BeginCancel(false));
    var win := EndCancel(true, reserved.arbiter.active);
    assert reserved.arbiter.state == A.CancelReserved && InPlace(reserved);
    assert Next(reserved, win).arbiter.state == A.CancelWon && InPlace(Next(reserved, win));
    ReachedNow(LinkedCancelGoal, Next(reserved, win));
    ReachedLater(LinkedCancelGoal, reserved, win);
    ReachedLater(LinkedCancelGoal, w, BeginCancel(false));
  }

  lemma AbortCanLose(w: World)
    requires LinkedAndLive(w) && (w.run.pc == Precommitted || w.run.pc == Collided)
    ensures CanReach(LinkedCancelGoal, w)
  {
    AbortOpens(w);
    CancelWins(Next(w, Engine(Calm)));
    ReachedLater(LinkedCancelGoal, w, Engine(Calm));
  }

  /** A link that reported an error can lose to a cancel, whatever the error says. */
  lemma FailedLinkCanLose(w: World, exist: bool)
    requires LinkedAndLive(w)
    requires w.run.pc == if exist then CompareDestination else RecheckContent
    ensures CanReach(LinkedCancelGoal, w)
  {
    var unreadable := Engine(Calm.(unreadable := true));
    CannotReadIt(w);
    var v := Next(w, unreadable);
    if exist {
      AbortCanLose(v);
    } else {
      TakesItForAbsent(v);
      AbortCanLose(Next(v, Engine(Calm.(statFails := true))));
      ReachedLater(LinkedCancelGoal, v, Engine(Calm.(statFails := true)));
    }
    ReachedLater(LinkedCancelGoal, w, unreadable);
  }

  /** From every look at a free destination, each of the two errors can lead to a cancel that wins over the link. */
  lemma CancelCanWinOverALink(w: World, exist: bool)
    requires AtProbe(w)
    ensures
      var linked := Next(Next(w, Engine(Calm)), Engine(Calm.(err := true, eexist := exist)));
      InPlace(linked) && CanReach(LinkedCancelGoal, linked)
    ensures CanReach(LinkedCancelGoal, w)
  {
    FindsItFree(w);
    var w1 := Next(w, Engine(Calm));
    var failing := Engine(Calm.(err := true, eexist := exist));
    LinkingIsLive(w1);
    LinksWithAnError(w1, exist);
    FailedLinkCanLose(Next(w1, failing), exist);
    ReachedLater(LinkedCancelGoal, w1, failing);
    ReachedLater(LinkedCancelGoal, w, Engine(Calm));
  }

  lemma ProbeCanLose(w: World)
    requires AtProbe(w)
    ensures CanReach(LinkedCancelGoal, w)
  {
    CancelCanWinOverALink(w, true);
  }

  lemma BlindCancelOccurs()
    ensures exists es :: CancelHasWonOverLink(Run(es))
  {
    FirstRunApproaches();
    forall w | AtProbe(w) && Evidenced(w) && !w.altered ensures CanReach(LinkedCancelGoal, w) {
      ProbeCanLose(w);
    }
    FirstRunReaches(LinkedCancelGoal, [Start("out", false)]);
    var es :| Meets(LinkedCancelGoal, Run(es));
    assert CancelHasWonOverLink(Run(es));
  }
}
