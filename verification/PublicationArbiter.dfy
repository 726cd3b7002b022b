/**
 The arbiter object: the fields the engine updates under its mutex. Each method
 is one critical section and is proved to take the corresponding step of
 ArbiterSpec, so the interleaving theorems there speak about these bodies.
 */
module PublicationArbiter {
  import opened Common
  import opened ArbiterSpec

  /** A heap object so that distinct live reservations have distinct addresses. */
  class ReservationGuard {
    ghost const id: nat

    constructor (ghost id: nat)
      ensures this.id == id
    {
      this.id := id;
    }
  }

  /** What the caller is told: a reservation, or why there is none. */
  datatype Reply = Granted | Refused(why: Begun)

  /** A channel that is only ever closed. */
  class Channel {
    var closed: bool

    constructor ()
      ensures !closed
    {
      closed := false;
    }
  }

  class PublicationArbiter {
    var state: State
    var activeGuard: ReservationGuard?
    var changed: Channel?
    ghost var guards: seq<ReservationGuard>
    ghost var channels: seq<Channel>

    /** Every channel handed out before the current one is closed, and the current one is open. */
    ghost predicate Valid()
      reads this, channels
    {
      && (forall i :: 0 <= i < |guards| ==> guards[i].id == i)
      && (activeGuard != null ==> activeGuard in guards)
      && (changed == null ==> channels == [] && guards == [] && state == Open)
      && (changed != null ==>
            channels != [] && channels[|channels| - 1] == changed && !changed.closed)
      && forall i :: 0 <= i < |channels| - 1 ==> channels[i].closed
    }

    ghost function Value(): Arbiter
      reads this
    {
      Arbiter(state, IdOf(activeGuard), |guards|, if channels == [] then 0 else |channels| - 1)
    }

    static ghost function IdOf(guard: ReservationGuard?): Option<nat> {
      if guard == null then None else Some(guard.id)
    }

    ghost predicate Issued(guard: ReservationGuard?)
      reads this
    {
      guard == null || guard in guards
    }

    constructor ()
      ensures Valid() && Value() == ArbiterSpec.Fresh
    {
      state, activeGuard, guards := Open, null, [];
      var channel := new Channel();
      changed, channels := channel, [channel];
    }

    method SignalChange()
      requires Valid() && changed != null
      modifies this`changed, this`channels, changed
      ensures Valid() && changed != null && old(changed).closed
      ensures channels == old(channels) + [changed] && fresh(changed)
    {
      changed.closed := true;
      changed := new Channel();
      channels := channels + [changed];
    }

    method Initialize()
      requires Valid()
      modifies this`changed, this`channels
      ensures Valid() && changed != null && Value() == old(Value())
      ensures old(changed) != null ==> changed == old(changed) && channels == old(channels)
      ensures old(changed) == null ==> fresh(changed)
    {
      if changed == null {
        changed := new Channel();
        channels := [changed];
      }
    }

    /** One pass of BeginCancel or BeginPublication; on MustWait the caller sleeps on `channel`. */
    method TryBegin(kind: Kind, expired: bool)
      returns (reply: Reply, guard: ReservationGuard?, channel: Channel?)
      requires Valid()
      modifies this, changed
      ensures Valid()
      ensures var (value, outcome) := Begin(old(Value()), kind, expired);
        && Value() == value
        && reply == (if outcome.Acquired? then Granted else Refused(outcome))
        && (outcome.Acquired? ==> IdOf(guard) == Some(outcome.guard))
      ensures reply.Granted? ==> guard != null && fresh(guard) && guard in guards
      ensures reply == Refused(MustWait) ==> channel == changed != null && !channel.closed
      ensures reply.Granted? && old(changed) != null ==> old(changed).closed
    {
      guard, channel := null, null;
      Initialize();
      match state {
        case Open =>
          if expired {
            return Refused(Expired), null, null;
          }
          state := if kind == Cancel then CancelReserved else PublicationReserved;
          guard := new ReservationGuard(|guards|);
          reply := Granted;
          activeGuard, guards := guard, guards + [guard];
          SignalChange();
        case CancelWon =>
          reply := Refused(if kind == Cancel then CancelAlreadyAccepted else CancelHasWon);
        case PublicationWon =>
          reply := Refused(AlreadyPublished);
        case Indeterminate =>
          reply := Refused(NeedsReconciliation);
        case CancelReserved =>
          reply, channel := Refused(MustWait), changed;
        case PublicationReserved =>
          reply, channel := Refused(MustWait), changed;
      }
    }

    /** Gives the live reservation up on the way from one state to another. */
    method Terminal(wanted: State, next: State) returns (ok: bool)
      requires Valid() && activeGuard != null
      modifies this, changed
      ensures Valid() && guards == old(guards) && ok == (old(state) == wanted)
      ensures ok ==> state == next && activeGuard == null && |channels| == |old(channels)| + 1 && old(changed).closed
      ensures !ok ==> Value() == old(Value())
    {
      if state != wanted {
        return false;
      }
      state := next;
      activeGuard := null;
      SignalChange();
      ok := true;
    }

    /** The six terminal and marking operations; `ok` is false where the engine panics. */
    method Perform(op: Op, guard: ReservationGuard?) returns (ok: bool)
      requires Valid() && Issued(guard)
      modifies this, changed
      ensures Valid()
      ensures ok == Accepts(old(Value()), op, IdOf(guard))
      ensures Value() == Call(old(Value()), op, IdOf(guard))
      ensures ok && old(changed) != null ==> old(changed).closed
    {
      if guard == null || activeGuard != guard {
        return false;
      }
      match op {
        case WinCancel =>
          ok := Terminal(CancelReserved, CancelWon);
        case AbortCancel =>
          ok := Terminal(CancelReserved, Open);
        case MarkDestinationReplaced =>
          if state != PublicationReserved {
            return false;
          }
          state := PublicationWon;
          SignalChange();
          ok := true;
        case FinishPublication =>
          ok := Terminal(PublicationWon, PublicationWon);
        case MarkIndeterminate =>
          ok := Terminal(PublicationReserved, Indeterminate);
        case AbortBeforeReplace =>
          ok := Terminal(PublicationReserved, Open);
      }
    }
  }
}
