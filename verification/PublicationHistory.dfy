/** What the history flags of the publication protocol record, as facts about earlier events. */
module PublicationHistory {
  import opened Common
  import opened SessionManifest
  import opened PublicationProtocol
  import opened PublicationInvariant

  lemma RunNext(es: seq<Event>, e: Event)
    ensures Run(es + [e]) == Next(Run(es), e)
  {
    assert (es + [e])[..|es|] == es;
  }

  /** A step that touches none of the flags and does not come to the link. */
  predicate IsQuiet(w: World, next: World) {
    && !InWindow(next.run.pc)
    && next.altered == w.altered
    && next.raced == w.raced
    && next.run.blind == w.run.blind
  }

  lemma WriteIsQuiet(w: World, needed: bool, u: Mutation, f: Fault, ok: Pc, failed: Pc)
    requires w.manifest.Some? && !InWindow(ok) && !InWindow(failed)
    ensures IsQuiet(w, WriteIf(w, needed, u, f, ok, failed))
  {
  }

  lemma ReconcileIsQuiet(w: World, f: Fault)
    requires w.manifest.Some? && w.run.pc != Down && PartOf(w.run.pc) == Reconciling
    ensures IsQuiet(w, ReconcileStep(w, f))
  {
  }

  lemma EnterPhaseIsQuiet(w: World, f: Fault)
    requires w.manifest.Some?
    ensures IsQuiet(w, EnterPhase(w, f))
  {
    var phase := w.manifest.value.phase;
    WriteIsQuiet(w, phase == PhasePrepared, Transition(PhaseExtracting, StatusActive, DesiredRunning), f,
                 EntryOf(phase), Down);
  }

  lemma PrepareIsQuiet(w: World, f: Fault)
    requires w.manifest.Some? && w.run.pc != Down && PartOf(w.run.pc) == Preparing
    ensures IsQuiet(w, PrepareStep(w, f))
  {
    var m := w.manifest.value;
    match w.run.pc
    case Rebinding =>
      WriteIsQuiet(w, m.destination != w.run.target, RebindDestination(w.run.target), f, Pausing, Down);
    case Pausing =>
      WriteIsQuiet(w, m.status == StatusActive && !w.run.created,
                   Transition(m.phase, StatusPaused, DesiredPaused), f, Resuming, Down);
    case Resuming =>
      WriteIsQuiet(w, m.status == StatusPaused || m.status == StatusFailed, Resume, f, Resumed, Down);
    case Resumed => EnterPhaseIsQuiet(w, f);
    case _ =>
  }

  lemma BuildIsQuiet(w: World, f: Fault)
    requires w.manifest.Some? && w.run.pc != Down && PartOf(w.run.pc) == Building
    ensures IsQuiet(w, BuildStep(w, f))
  {
  }

  lemma AnnounceIsQuiet(w: World, f: Fault)
    requires w.manifest.Some? && w.run.pc != Down && PartOf(w.run.pc) == Announcing
    ensures IsQuiet(w, ReserveStep(w, f))
  {
  }

  lemma SettleIsQuiet(w: World, f: Fault)
    requires w.manifest.Some? && w.run.pc != Down && PartOf(w.run.pc) == Settling
    ensures IsQuiet(w, SettleStep(w, f))
  {
  }

  lemma RecoverIsQuiet(w: World, f: Fault)
    requires w.manifest.Some? && w.run.pc != Down && PartOf(w.run.pc) == Recovering
    ensures IsQuiet(w, RecoverStep(w, f))
  {
    var m := w.manifest.value;
    var active := m.status == StatusActive;
    match w.run.pc
    case MarkCollision =>
      WriteIsQuiet(w, active && m.phase == PhaseReadyToPublish,
                   Transition(PhaseReadyToPublish, StatusFailed, DesiredRunning), f, Down, Down);
    case MarkDoubtful =>
      WriteIsQuiet(w, active && m.publication == PublicationPending,
                   SetPublication(PublicationIndeterminate), f, Down, Down);
    case Interrupted(_) => WriteIsQuiet(w, active, Transition(m.phase, StatusPaused, DesiredPaused), f, Down, Down);
    case _ =>
  }

  lemma EngineIsQuiet(w: World, f: Fault)
    ensures w.manifest.Some? && w.run.pc != Down ==> PartOf(w.run.pc) == Replacing || IsQuiet(w, EngineStep(w, f))
    ensures PartOf(w.run.pc) == Replacing && !w.run.pc.Linking? ==> EngineStep(w, f).raced == w.raced
    ensures PartOf(w.run.pc) == Replacing && !w.run.pc.CompareDestination? && !w.run.pc.RecheckNames? ==>
              EngineStep(w, f).run.blind == w.run.blind
  {
    if w.manifest.Some? && w.run.pc != Down {
      match PartOf(w.run.pc) {
        case Reconciling => ReconcileIsQuiet(w, f); return;
        case Preparing => PrepareIsQuiet(w, f); return;
        case Building => BuildIsQuiet(w, f); return;
        case Announcing => AnnounceIsQuiet(w, f); return;
        case Settling => SettleIsQuiet(w, f); return;
        case Recovering => RecoverIsQuiet(w, f); return;
        case Replacing =>
      }
    }
  }

  // ---------------------------------------------------------------------
  // seen

  /** The event leaves the destination showing exactly the staged fingerprint. */
  predicate Shown(w: World, e: Event) {
    Agrees(Next(w, e))
  }

  /** The event binds the manifest to another destination or output. */
  predicate Rebinds(w: World, e: Event) {
    !SameBinding(w.manifest, Next(w, e).manifest)
  }

  lemma SeenStep(w: World, e: Event)
    ensures Next(w, e).seen <==> Shown(w, e) || (w.seen && !Rebinds(w, e))
  {
    var raw := RawStep(w, e);
    assert Agrees(Observe(w, raw)) == Agrees(raw);
  }

  predicate IsSeen(w: World) {
    w.seen
  }

  /** `seen`: the destination showed the staged output at some moment since the manifest was bound to the two. */
  lemma SeenExactly(es: seq<Event>)
    ensures Run(es).seen <==> exists i :: 0 <= i < |es| && StandsSince(Next, Empty, es, Shown, Rebinds, i)
  {
    forall w, e ensures IsSeen(Next(w, e)) <==> Shown(w, e) || (IsSeen(w) && !Rebinds(w, e)) {
      SeenStep(w, e);
    }
    FlagExactly(Next, Empty, es, w => true, IsSeen, Shown, Rebinds);
  }

  // ---------------------------------------------------------------------
  // altered

  /** Between the comparison of the staged file and its link. */
  predicate InWindow(pc: Pc) {
    pc.ProbeDestination? || pc.Linking?
  }

  /** A foreign write that reaches the staged inode, through another link of it. */
  predicate WritesStage(w: World, e: Event) {
    && e.ForeignWrite?
    && w.disk.stage.Some?
    && e.name in w.disk.dir
    && w.disk.dir[e.name] == Regular(w.disk.stage.value)
  }

  /** In the window, the event leaves other bytes in the staged file than were staged. */
  predicate Alters(w: World, e: Event) {
    && InWindow(w.run.pc)
    && WritesStage(w, e)
    && w.manifest.Some?
    && w.manifest.value.staged != Some(Sha256(e.content))
  }

  /** The event puts the staged bytes back, or ends the window. */
  predicate Settles(w: World, e: Event) {
    !InWindow(Next(w, e).run.pc) || (WritesStage(w, e) && !Alters(w, e))
  }

  lemma EngineStaysOut(w: World, f: Fault)
    requires !InWindow(w.run.pc) && !w.run.pc.CheckStage?
    ensures !InWindow(EngineStep(w, f).run.pc) && EngineStep(w, f).altered == w.altered
  {
    EngineIsQuiet(w, f);
    if w.manifest.Some? && w.run.pc != Down && PartOf(w.run.pc) == Replacing {
      ReplacingStaysOut(w, f);
    }
  }

  lemma ReplacingStaysOut(w: World, f: Fault)
    requires w.manifest.Some?
    requires w.run.pc.CompareDestination? || w.run.pc.RecheckContent? || w.run.pc.RecheckNames?
    ensures !InWindow(LinkStep(w, f).run.pc) && LinkStep(w, f).altered == w.altered
  {
  }

  lemma WindowAltersNothing(w: World, f: Fault)
    requires InWindow(w.run.pc)
    ensures EngineStep(w, f).altered == w.altered
  {
  }

  lemma ForeignAlters(w: World, e: Event)
    requires Inv(w) && !e.Engine? && !e.Start? && InWindow(w.run.pc) && InWindow(RawStep(w, e).run.pc)
    ensures RawStep(w, e).altered <==> Alters(w, e) || (w.altered && !WritesStage(w, e))
  {
  }

  lemma AlteredByEngine(w: World, f: Fault)
    ensures
      var next := EngineStep(w, f);
      InWindow(next.run.pc) && next.altered <==> InWindow(w.run.pc) && w.altered && InWindow(next.run.pc)
  {
    if w.run.pc.CheckStage? {
      assert EngineStep(w, f) == w || EngineStep(w, f) == CompareStage(w, f);
    } else if InWindow(w.run.pc) {
      WindowAltersNothing(w, f);
    } else {
      EngineStaysOut(w, f);
    }
  }

  lemma AlteredStep(w: World, e: Event)
    requires Inv(w)
    ensures
      var next := Next(w, e);
      InWindow(next.run.pc) && next.altered <==>
      Alters(w, e) || (InWindow(w.run.pc) && w.altered && InWindow(next.run.pc) && !WritesStage(w, e))
  {
    if e.Engine? {
      AlteredByEngine(w, e.fault);
    } else if !e.Start? && InWindow(w.run.pc) && InWindow(RawStep(w, e).run.pc) {
      ForeignAlters(w, e);
    }
  }

  predicate IsAltered(w: World) {
    InWindow(w.run.pc) && w.altered
  }

  /** In the window, `altered`: some foreign write left other bytes there that nothing put right since. */
  lemma AlteredExactly(es: seq<Event>)
    ensures IsAltered(Run(es)) <==> exists i :: 0 <= i < |es| && StandsSince(Next, Empty, es, Alters, Settles, i)
  {
    AlwaysInv([]);
    forall w, e | Inv(w) ensures Inv(Next(w, e)) {
      StepKeeps(w, e);
    }
    forall w, e | Inv(w) ensures IsAltered(Next(w, e)) <==> Alters(w, e) || (IsAltered(w) && !Settles(w, e)) {
      AlteredStep(w, e);
    }
    FlagExactly(Next, Empty, es, Inv, IsAltered, Alters, Settles);
  }

  // ---------------------------------------------------------------------
  // raced

  /** The event links this destination and output while the staged file is altered. */
  predicate LinksAltered(w: World, e: Event, destination: Basename, staged: Option<Fingerprint>) {
    && e.Engine?
    && w.run.pc == Linking
    && w.altered
    && w.manifest.Some?
    && w.manifest.value.destination == destination
    && w.manifest.value.staged == staged
    && destination !in w.disk.dir
    && destination in Link(w, e.fault).disk.dir
  }

  lemma EngineRaces(w: World, f: Fault)
    requires !w.run.pc.Linking?
    ensures EngineStep(w, f).raced == w.raced
  {
    EngineIsQuiet(w, f);
  }

  lemma RacedStep(w: World, e: Event, destination: Basename, staged: Option<Fingerprint>)
    ensures (destination, staged) in Next(w, e).raced <==>
            LinksAltered(w, e, destination, staged) || (destination, staged) in w.raced
  {
    if e.Engine? {
      if w.run.pc == Linking {
        assert EngineStep(w, e.fault) == if w.manifest.Some? then Link(w, e.fault) else w;
      } else {
        EngineRaces(w, e.fault);
      }
    }
  }

  function LinksAlteredFor(destination: Basename, staged: Option<Fingerprint>): (World, Event) -> bool {
    (w, e) => LinksAltered(w, e, destination, staged)
  }

  predicate Never(w: World, e: Event) {
    false
  }

  /** `raced`: the destinations and outputs linked while the staged file was altered. */
  lemma RacedExactly(es: seq<Event>, destination: Basename, staged: Option<Fingerprint>)
    ensures (destination, staged) in Run(es).raced <==>
            exists i :: 0 <= i < |es| && StandsSince(Next, Empty, es, LinksAlteredFor(destination, staged), Never, i)
  {
    var flag := (w: World) => (destination, staged) in w.raced;
    var sets := LinksAlteredFor(destination, staged);
    forall w, e ensures flag(Next(w, e)) <==> sets(w, e) || (flag(w) && !Never(w, e)) {
      RacedStep(w, e, destination, staged);
    }
    FlagExactly(Next, Empty, es, w => true, flag, sets, Never);
  }

  // ---------------------------------------------------------------------
  // blind

  /**
   The reservation is given up over a link in place: the re-check of the two names
   could not stat the destination, or the link reported that the name exists and
   the destination then could not be read or no longer held the staged bytes.
   */
  predicate GivesUpOverLink(w: World, e: Event) {
    && e.Engine?
    && InPlace(w)
    && ((w.run.pc == RecheckNames && w.disk.stage.Some? && e.fault.statFails && !e.fault.unreadable)
        || (w.run.pc == CompareDestination && (e.fault.unreadable || !Agrees(w))))
  }

  /** The event opens a new run. */
  predicate Begins(w: World, e: Event) {
    e.Start? && w.run.pc == Down && e.target != ""
  }

  lemma EngineBlinds(w: World, f: Fault)
    requires !w.run.pc.CompareDestination? && !w.run.pc.RecheckNames?
    ensures EngineStep(w, f).run.blind == w.run.blind
  {
    EngineIsQuiet(w, f);
  }

  lemma CompareBlinds(w: World, f: Fault)
    requires Inv(w) && (w.run.pc.CompareDestination? || w.run.pc.RecheckNames?)
    ensures LinkStep(w, f).run.blind <==> GivesUpOverLink(w, Engine(f)) || w.run.blind
  {
  }

  lemma BlindStep(w: World, e: Event)
    requires Inv(w)
    ensures Next(w, e).run.blind <==> GivesUpOverLink(w, e) || (w.run.blind && !Begins(w, e))
  {
    if e.Engine? {
      if w.run.pc.CompareDestination? || w.run.pc.RecheckNames? {
        CompareBlinds(w, e.fault);
      } else {
        EngineBlinds(w, e.fault);
      }
    }
  }

  predicate IsBlind(w: World) {
    w.run.blind
  }

  /** `blind`: the present attempt gave its reservation up over its own link. */
  lemma BlindExactly(es: seq<Event>)
    ensures Run(es).run.blind <==>
            exists i :: 0 <= i < |es| && StandsSince(Next, Empty, es, GivesUpOverLink, Begins, i)
  {
    AlwaysInv([]);
    forall w, e | Inv(w) ensures Inv(Next(w, e)) {
      StepKeeps(w, e);
    }
    forall w, e | Inv(w) ensures IsBlind(Next(w, e)) <==> GivesUpOverLink(w, e) || (IsBlind(w) && !Begins(w, e)) {
      BlindStep(w, e);
    }
    FlagExactly(Next, Empty, es, Inv, IsBlind, GivesUpOverLink, Begins);
  }
}
