/**
 The cancel/publish arbiter as a value, and every interleaving of its callers.

 Each event is one critical section under the arbiter's mutex. A reservation is
 known only by the identity of its guard, so copies of a reservation share it,
 and a caller may present any guard, live, stale or nil, to any operation.
 */
module ArbiterSpec {
  import opened Common

  datatype State =
    | Open
    | CancelReserved
    | CancelWon
    | PublicationReserved
    | PublicationWon
    | Indeterminate

  datatype Kind = Cancel | Publication

  datatype Op =
    | WinCancel
    | AbortCancel
    | MarkDestinationReplaced
    | FinishPublication
    | MarkIndeterminate
    | AbortBeforeReplace

  /** `issued` counts the guards allocated so far and `epoch` the `changed` channels closed so far. */
  datatype Arbiter = Arbiter(state: State, active: Option<nat>, issued: nat, epoch: nat)

  datatype Begun =
    | Acquired(guard: nat)
    | CancelAlreadyAccepted
    | CancelHasWon
    | AlreadyPublished
    | NeedsReconciliation
    | Expired
    | MustWait

  const Fresh := Arbiter(Open, None, 0, 0)

  predicate Reserved(s: State) {
    s == CancelReserved || s == PublicationReserved
  }

  predicate Decided(s: State) {
    s == CancelWon || s == PublicationWon || s == Indeterminate
  }

  /** One locked section of BeginCancel or BeginPublication. */
  function Begin(a: Arbiter, kind: Kind, expired: bool): (Arbiter, Begun) {
    match a.state
    case Open =>
      if expired then (a, Expired)
      else
        (Arbiter(if kind == Cancel then CancelReserved else PublicationReserved,
                 Some(a.issued), a.issued + 1, a.epoch + 1), Acquired(a.issued))
    case CancelWon => (a, if kind == Cancel then CancelAlreadyAccepted else CancelHasWon)
    case PublicationWon => (a, AlreadyPublished)
    case Indeterminate => (a, NeedsReconciliation)
    case _ => (a, MustWait)
  }

  function Required(op: Op): State {
    match op
    case WinCancel => CancelReserved
    case AbortCancel => CancelReserved
    case FinishPublication => PublicationWon
    case _ => PublicationReserved
  }

  function Next(op: Op): State {
    match op
    case WinCancel => CancelWon
    case MarkDestinationReplaced => PublicationWon
    case FinishPublication => PublicationWon
    case MarkIndeterminate => Indeterminate
    case _ => Open
  }

  /** Every operation but MarkDestinationReplaced gives the reservation up. */
  predicate Releases(op: Op) {
    op != MarkDestinationReplaced
  }

  /** The operations that decide the outcome of the run. */
  predicate Decisive(op: Op) {
    op == WinCancel || op == MarkDestinationReplaced || op == MarkIndeterminate
  }

  predicate Accepts(a: Arbiter, op: Op, guard: Option<nat>) {
    guard.Some? && a.active == guard && a.state == Required(op)
  }

  /** A refused operation panics in the engine and changes nothing. */
  function Call(a: Arbiter, op: Op, guard: Option<nat>): Arbiter {
    if !Accepts(a, op, guard) then a
    else Arbiter(Next(op), if Releases(op) then None else a.active, a.issued, a.epoch + 1)
  }

  // ---------------------------------------------------------------------
  // All callers together

  /** A caller blocked on the channel of `epoch`, having observed `seen`. */
  datatype Sleeper = Sleeper(kind: Kind, epoch: nat, seen: State)

  datatype System = System(arbiter: Arbiter, asleep: map<nat, Sleeper>)

  datatype Event =
    | Enter(caller: nat, kind: Kind, expiredBefore: bool, expiredLocked: bool)
    | Wake(caller: nat)
    | GiveUp(caller: nat)
    | Invoke(op: Op, guard: Option<nat>)

  const Initial := System(Fresh, map[])

  /** A caller that entered and obtained a reservation. */
  function Outcome(s: System, e: Event): Begun
    requires e.Enter?
  {
    if e.expiredBefore then Expired else Begin(s.arbiter, e.kind, e.expiredLocked).1
  }

  /** A sleeping caller can run again exactly when its channel has been closed. */
  predicate Awakened(s: System, caller: nat) {
    caller in s.asleep && s.asleep[caller].epoch < s.arbiter.epoch
  }

  function Step(s: System, e: Event): System {
    match e
    case Enter(c, kind, before, locked) =>
      if c in s.asleep || before then s
      else
        var (a, begun) := Begin(s.arbiter, kind, locked);
        System(a, if begun.MustWait? then s.asleep[c := Sleeper(kind, a.epoch, a.state)] else s.asleep)
    case Wake(c) => if Awakened(s, c) then s.(asleep := s.asleep - {c}) else s
    case GiveUp(c) => s.(asleep := s.asleep - {c})
    case Invoke(op, g) => s.(arbiter := Call(s.arbiter, op, g))
  }

  function Run(es: seq<Event>): System {
    if es == [] then Initial else Step(Run(es[..|es| - 1]), es[|es| - 1])
  }

  /** The state just before event `i`. */
  function At(es: seq<Event>, i: nat): System
    requires i <= |es|
  {
    Run(es[..i])
  }

  predicate Acquires(es: seq<Event>, i: nat, g: nat)
    requires i < |es|
  {
    es[i].Enter? && es[i].caller !in At(es, i).asleep && Outcome(At(es, i), es[i]) == Acquired(g)
  }

  predicate Succeeds(es: seq<Event>, i: nat)
    requires i < |es|
  {
    es[i].Invoke? && Accepts(At(es, i).arbiter, es[i].op, es[i].guard)
  }

  lemma AtNext(es: seq<Event>, i: nat)
    requires i < |es|
    ensures At(es, i + 1) == Step(At(es, i), es[i])
  {
    assert es[..i + 1][..i] == es[..i];
  }

  /** Only an issued guard is active, a reserved state has one, and an open or lost state has none. */
  predicate Coherent(a: Arbiter) {
    && (a.active.Some? ==> a.active.value < a.issued)
    && (Reserved(a.state) ==> a.active.Some?)
    && (a.state == Open || a.state == CancelWon || a.state == Indeterminate ==> a.active.None?)
  }

  ghost predicate Consistent(s: System) {
    && Coherent(s.arbiter)
    && forall c :: c in s.asleep ==>
         && s.asleep[c].epoch <= s.arbiter.epoch
         && Reserved(s.asleep[c].seen)
         && (s.asleep[c].epoch == s.arbiter.epoch ==> s.asleep[c].seen == s.arbiter.state)
  }

  lemma {:induction false} AlwaysConsistent(es: seq<Event>)
    ensures Consistent(Run(es))
  {
    if es != [] {
      AlwaysConsistent(es[..|es| - 1]);
    }
  }

  /**
   No lost wakeup. At every moment of every interleaving, a caller asleep in
   BeginCancel or BeginPublication either has already been woken, or the arbiter
   is still in the reserved state that caller observed, with a live guard whose
   next operation will wake it.
   */
  lemma NoLostWakeup(es: seq<Event>, caller: nat)
    requires caller in Run(es).asleep
    ensures
      var s := Run(es);
      Awakened(s, caller) ||
      (Reserved(s.arbiter.state) && s.arbiter.state == s.asleep[caller].seen && s.arbiter.active.Some?)
    ensures
      var s := Run(es);
      forall e :: Step(s, e).arbiter != s.arbiter ==>
        caller in Step(s, e).asleep && Awakened(Step(s, e), caller)
  {
    AlwaysConsistent(es);
  }

  /** A guard that was issued and is no longer active can never act again. */
  ghost predicate Spent(a: Arbiter, g: nat) {
    g < a.issued && a.active != Some(g)
  }

  lemma {:induction false} SpentStaysSpent(es: seq<Event>, i: nat, j: nat, g: nat)
    requires i <= j <= |es|
    requires Spent(At(es, i).arbiter, g)
    ensures Spent(At(es, j).arbiter, g)
    decreases j - i
  {
    if i < j {
      AtNext(es, i);
      SpentStaysSpent(es, i + 1, j, g);
    }
  }

  /** Once a reservation has been given up, no copy of it succeeds or changes anything. */
  lemma StaleReservationIsInert(es: seq<Event>, i: nat, j: nat)
    requires i < j < |es|
    requires Succeeds(es, i) && Releases(es[i].op)
    requires es[j].Invoke? && es[j].guard == es[i].guard
    ensures !Succeeds(es, j) && At(es, j + 1) == At(es, j)
  {
    AtNext(es, i);
    AtNext(es, j);
    AlwaysConsistent(es[..i]);
    SpentStaysSpent(es, i + 1, j, es[i].guard.value);
  }

  lemma {:induction false} DecidedIsAbsorbing(es: seq<Event>, i: nat, j: nat)
    requires i <= j <= |es|
    requires Decided(At(es, i).arbiter.state)
    ensures At(es, j).arbiter.state == At(es, i).arbiter.state
    decreases j - i
  {
    if i < j {
      AtNext(es, i);
      AlwaysConsistent(es[..i]);
      DecidedIsAbsorbing(es, i + 1, j);
    }
  }

  /** In every interleaving at most one of WinCancel, MarkDestinationReplaced and MarkIndeterminate succeeds. */
  lemma AtMostOneWinner(es: seq<Event>, i: nat, j: nat)
    requires i < |es| && j < |es|
    requires Succeeds(es, i) && Decisive(es[i].op)
    requires Succeeds(es, j) && Decisive(es[j].op)
    ensures i == j
  {
    if i != j {
      var first, second := if i < j then i else j, if i < j then j else i;
      AtNext(es, first);
      DecidedIsAbsorbing(es, first + 1, second);
    }
  }

  lemma {:induction false} HeldUntilReleased(es: seq<Event>, i: nat, j: nat, g: nat)
    requires i < j <= |es|
    requires At(es, i + 1).arbiter.active == Some(g)
    requires forall k :: i < k < j ==> !(Succeeds(es, k) && Releases(es[k].op))
    ensures At(es, j).arbiter.active == Some(g)
    decreases j
  {
    if i + 1 < j {
      HeldUntilReleased(es, i, j - 1, g);
      AtNext(es, j - 1);
      AlwaysConsistent(es[..j - 1]);
    }
  }

  /** Two reservations never overlap: the earlier one is given up, by its own guard, in between. */
  lemma ReservationsNeverOverlap(es: seq<Event>, i: nat, j: nat, g: nat, h: nat)
    requires i < j < |es|
    requires Acquires(es, i, g) && Acquires(es, j, h)
    ensures g != h
    ensures exists k :: i < k < j && Succeeds(es, k) && Releases(es[k].op) && es[k].guard == Some(g)
  {
    AtNext(es, i);
    AlwaysConsistent(es[..j]);
    if forall k :: i < k < j ==> !(Succeeds(es, k) && Releases(es[k].op)) {
      HeldUntilReleased(es, i, j, g);
      assert false;
    }
    var k := FirstRelease(es, i, j);
    HeldUntilReleased(es, i, k, g);
    AtNext(es, k);
    AlwaysConsistent(es[..k]);
    SpentStaysSpent(es, k + 1, j, g);
  }

  lemma {:induction false} FirstRelease(es: seq<Event>, i: nat, j: nat) returns (k: nat)
    requires i < j <= |es|
    requires exists k :: i < k < j && Succeeds(es, k) && Releases(es[k].op)
    ensures i < k < j && Succeeds(es, k) && Releases(es[k].op)
    ensures forall l :: i < l < k ==> !(Succeeds(es, l) && Releases(es[l].op))
    decreases j
  {
    if exists k :: i < k < j - 1 && Succeeds(es, k) && Releases(es[k].op) {
      k := FirstRelease(es, i, j - 1);
    } else {
      k := j - 1;
    }
  }
}
