/** Safety of the publication protocol over every history of runs, crashes, faults, cancels and foreign files. */
module PublicationSafety {
  import opened Common
  import opened SessionManifest
  import opened PublicationProtocol
  import opened PublicationInvariant
  import opened PublicationHistory
  import A = ArbiterSpec

  // ---------------------------------------------------------------------
  // The engine never alters what is already at a destination

  /** Every entry and every byte of `d` is still there in `e`. */
  ghost predicate Extends(d: Disk, e: Disk) {
    && (forall n :: n in d.dir ==> n in e.dir && e.dir[n] == d.dir[n])
    && (forall i :: i in d.data ==> i in e.data && e.data[i] == d.data[i])
  }

  /** The only entry the engine can add is its own destination, while it holds the reservation. */
  ghost predicate AddsOnlyTheLink(w: World, next: World) {
    forall n :: n in next.disk.dir && n !in w.disk.dir ==>
      && w.run.pc == Linking
      && w.manifest.Some?
      && n == w.manifest.value.destination
      && w.disk.stage.Some?
      && next.disk.dir[n] == Regular(w.disk.stage.value)
  }

  lemma BuildExtends(w: World, f: Fault)
    requires w.manifest.Some? && DiskOk(w.disk)
    ensures Extends(w.disk, BuildStep(w, f).disk) && AddsOnlyTheLink(w, BuildStep(w, f))
  {
    assert w.disk.next !in w.disk.data;
  }

  lemma LinkExtends(w: World, f: Fault)
    requires w.manifest.Some?
    ensures Extends(w.disk, LinkStep(w, f).disk) && AddsOnlyTheLink(w, LinkStep(w, f))
  {
  }

  lemma OthersKeepFiles(w: World, f: Fault)
    requires w.manifest.Some? && w.run.pc != Down && PartOf(w.run.pc) != Building && PartOf(w.run.pc) != Replacing
    ensures EngineStep(w, f).disk.dir == w.disk.dir && EngineStep(w, f).disk.data == w.disk.data
  {
    match PartOf(w.run.pc) {
      case Reconciling => return;
      case Preparing => return;
      case Announcing => return;
      case Settling => return;
      case Recovering => return;
    }
  }

  lemma EngineExtends(w: World, f: Fault)
    requires DiskOk(w.disk)
    ensures Extends(w.disk, EngineStep(w, f).disk) && AddsOnlyTheLink(w, EngineStep(w, f))
  {
    if w.manifest.Some? && w.run.pc != Down {
      if PartOf(w.run.pc) == Building {
        BuildExtends(w, f);
      } else if PartOf(w.run.pc) == Replacing {
        LinkExtends(w, f);
      } else {
        OthersKeepFiles(w, f);
      }
    }
  }

  /** An event that is not a foreign process acting on the directory. */
  predicate Own(e: Event) {
    e.Start? || e.Engine? || e.Crash? || e.BeginCancel? || e.EndCancel?
  }

  /**
   Whatever has happened before, no step of the engine removes, replaces or
   rewrites a file that is already at a destination, not even through the hard
   link it shares with the staged file.
   */
  lemma {:induction false} EngineNeverAltersDestinations(es: seq<Event>, e: Event, name: Basename)
    requires Own(e) && name in Run(es).disk.dir
    ensures
      var w, next := Run(es), Run(es + [e]);
      && name in next.disk.dir
      && next.disk.dir[name] == w.disk.dir[name]
      && Shows(next.disk, name) == Shows(w.disk, name)
  {
    AlwaysInv(es);
    assert (es + [e])[..|es|] == es;
    if e.Engine? {
      EngineExtends(Run(es), e.fault);
    }
  }

  lemma EngineLinks(w: World, f: Fault, name: Basename)
    requires Inv(w) && name !in w.disk.dir && name in EngineStep(w, f).disk.dir
    ensures w.run.pc == Linking && w.manifest.Some? && name == w.manifest.value.destination
    ensures EngineStep(w, f) == Link(w, f)
  {
    EngineExtends(w, f);
  }

  /**
   A file appears at a destination by the engine's hand only as the reserved link of
   its staged output, and shows that output exactly if the staged file is unaltered.
   */
  lemma {:induction false} EngineLinksOnlyWhileReserved(es: seq<Event>, e: Event, name: Basename)
    requires Own(e) && name !in Run(es).disk.dir && name in Run(es + [e]).disk.dir
    ensures
      var w, next := Run(es), Run(es + [e]);
      && w.manifest.Some?
      && name == w.manifest.value.destination
      && w.arbiter.state == A.PublicationReserved
      && w.run.guard.Some?
      && w.arbiter.active == w.run.guard
      && (Shows(next.disk, name) == w.manifest.value.staged <==> !w.altered)
  {
    AlwaysInv(es);
    RunNext(es, e);
    var w := Run(es);
    assert e.Engine?;
    EngineLinks(w, e.fault, name);
    LinkShows(w, e.fault);
  }

  // ---------------------------------------------------------------------
  // Committed only after the destination was seen to agree

  /**
   A manifest records a committed publication only if its destination held exactly
   the fingerprint it staged at some moment since the two were bound, or its link
   was made while a foreign write had altered the staged file after the engine
   compared it.
   */
  lemma {:induction false} CommittedOnlyAfterSeen(es: seq<Event>)
    requires Run(es).manifest.Some? && Run(es).manifest.value.publication == PublicationCommitted
    ensures
      var m := Run(es).manifest.value;
      || (exists i :: 0 <= i < |es| && StandsSince(Next, Empty, es, Shown, Rebinds, i))
      || (exists i :: 0 <= i < |es| && StandsSince(Next, Empty, es, LinksAlteredFor(m.destination, m.staged), Never, i))
  {
    AlwaysInv(es);
    SeenExactly(es);
    var m := Run(es).manifest.value;
    RacedExactly(es, m.destination, m.staged);
  }

  /**
   A link that takes effect shows the staged fingerprint if and only if, since the
   engine compared the staged file, no foreign write left other bytes in it that
   a later one did not put right.
   */
  lemma {:induction false} LinkShowsStagedExactly(es: seq<Event>, f: Fault)
    requires
      var w := Run(es);
      && w.run.pc == Linking
      && w.manifest.Some?
      && w.manifest.value.destination !in w.disk.dir
      && w.manifest.value.destination in Run(es + [Engine(f)]).disk.dir
    ensures
      var m, next := Run(es).manifest.value, Run(es + [Engine(f)]);
      Shows(next.disk, m.destination) != m.staged <==>
      exists i :: 0 <= i < |es| && StandsSince(Next, Empty, es, Alters, Settles, i)
  {
    AlwaysInv(es);
    AlteredExactly(es);
    RunNext(es, Engine(f));
    EngineLinks(Run(es), f, Run(es).manifest.value.destination);
    LinkShows(Run(es), f);
  }

  lemma LinkShows(w: World, f: Fault)
    requires Inv(w) && w.run.pc == Linking && w.manifest.value.destination !in w.disk.dir
    requires w.manifest.value.destination in Link(w, f).disk.dir
    ensures Shows(Link(w, f).disk, w.manifest.value.destination) == w.manifest.value.staged <==> !w.altered
  {
  }

  // ---------------------------------------------------------------------
  // The reservation

  /**
   On every path of every run the reservation calls never panic; a reservation is
   granted at most once, is live at every point between the grant and its
   terminal call, and a run that returns has terminalised exactly what it got.
   */
  lemma {:induction false} ReservationIsTerminalisedOnce(es: seq<Event>)
    ensures
      var w := Run(es);
      && !w.run.panicked
      && w.run.releases <= w.run.grants <= 1
      && (w.run.releases < w.run.grants && !w.run.crashed ==>
            && w.run.guard.Some?
            && w.arbiter.active == w.run.guard
            && (w.arbiter.state == A.PublicationReserved || w.arbiter.state == A.PublicationWon))
      && (w.run.pc == Down && !w.run.crashed ==> w.run.grants == w.run.releases)
  {
    AlwaysInv(es);
  }

  lemma ComparingGivesUp(w: World, f: Fault)
    requires Inv(w) && InPlace(w)
    requires w.run.pc == CompareDestination || w.run.pc == RecheckContent || w.run.pc == RecheckNames
    ensures
      var pc := LinkStep(w, f).run.pc;
      pc == Precommitted || pc == Collided <==> GivesUpOverLink(w, Engine(f))
  {
  }

  lemma LinkedPoints(w: World)
    requires Inv(w) && InPlace(w) && TraitsOf(w.run.pc).region == Held
    requires w.run.pc != Precommitted && w.run.pc != Collided
    ensures w.run.pc == CompareDestination || w.run.pc == RecheckContent || w.run.pc == RecheckNames
            || w.run.pc == Replaced || w.run.pc == Doubtful
  {
  }

  lemma SettlingGoesOn(w: World, f: Fault)
    requires w.manifest.Some? && (w.run.pc == Replaced || w.run.pc == Doubtful)
    ensures EngineStep(w, f).run.pc == if w.run.pc == Replaced then PublishedJournal else DoubtfulJournal
  {
  }

  lemma GivesUpStep(w: World, f: Fault)
    requires Inv(w) && InPlace(w) && TraitsOf(w.run.pc).region == Held
    requires w.run.pc != Precommitted && w.run.pc != Collided
    ensures
      var pc := EngineStep(w, f).run.pc;
      pc == Precommitted || pc == Collided <==> GivesUpOverLink(w, Engine(f))
  {
    LinkedPoints(w);
    if w.run.pc == Replaced || w.run.pc == Doubtful {
      SettlingGoesOn(w, f);
    } else {
      ComparingGivesUp(w, f);
      ComparingIsLinkStep(w, f);
    }
  }

  lemma ComparingIsLinkStep(w: World, f: Fault)
    requires w.manifest.Some?
    requires w.run.pc == CompareDestination || w.run.pc == RecheckContent || w.run.pc == RecheckNames
    ensures EngineStep(w, f) == LinkStep(w, f)
  {
  }

  /** With a link in place, the attempt moves to giving the reservation up in exactly these two ways. */
  lemma {:induction false} GivesUpExactly(es: seq<Event>, f: Fault)
    requires
      var w := Run(es);
      InPlace(w) && TraitsOf(w.run.pc).region == Held && w.run.pc != Precommitted && w.run.pc != Collided
    ensures
      var w, next := Run(es), Run(es + [Engine(f)]);
      next.run.pc == Precommitted || next.run.pc == Collided <==> GivesUpOverLink(w, Engine(f))
  {
    AlwaysInv(es);
    GivesUpStep(Run(es), f);
    RunNext(es, Engine(f));
  }

  /**
   A cancel that wins leaves a link of this attempt behind only if the attempt
   gave its reservation up over that link, in one of the two ways.
   */
  lemma {:induction false} CancelWonLeavesNoLink(es: seq<Event>)
    requires Run(es).arbiter.state == A.CancelWon && InPlace(Run(es))
    ensures exists i :: 0 <= i < |es| && StandsSince(Next, Empty, es, GivesUpOverLink, Begins, i)
  {
    AlwaysInv(es);
    BlindExactly(es);
  }
}
