/**
 Shared refresh flights. Callers of one group share one extraction; each event is
 one critical section of the coordinator, one closing of a flight's channel, or
 one caller leaving. A flight's identity is its index in order of creation.
 */
module RefreshFlight {
  import opened Common

  type Group = string
  type Identity = string
  type Material = string

  const MaxAttempts := 2

  /** `finished`: the worker took its entry out of the table; `done`: its channel is closed. */
  datatype Flight = Flight(
    group: Group,
    waiters: int,
    abandoned: bool,
    cancelled: bool,
    finished: bool,
    done: bool,
    failed: bool)

  datatype State = State(
    attempts: nat,
    materials: map<Identity, Material>,
    table: map<Group, nat>,
    flights: seq<Flight>)

  datatype Error = ContextEnded | RefreshRejected | RefreshBudget

  datatype Entered = Answered(material: Material) | Refused(error: Error) | Joined(flight: nat) | Led(flight: nat)

  const Initial := State(0, map[], map[], [])

  /** runFlight up to the wait. */
  function Enter(s: State, identity: Identity, group: Group, expired: bool): (State, Entered) {
    if expired then (s, Refused(ContextEnded))
    else if identity == "" || group == "" then (s, Refused(RefreshRejected))
    else if identity in s.materials then (s, Answered(s.materials[identity]))
    else if group in s.table && s.table[group] < |s.flights| && !s.flights[s.table[group]].abandoned then
      var f := s.table[group];
      (s.(flights := s.flights[f := s.flights[f].(waiters := s.flights[f].waiters + 1)]), Joined(f))
    else Begin(s, group)
  }

  /** A new flight for the group, within the budget; an abandoned one is forgotten either way. */
  function Begin(s: State, group: Group): (State, Entered) {
    if s.attempts >= MaxAttempts then (s.(table := s.table - {group}), Refused(RefreshBudget))
    else
      var f := |s.flights|;
      (State(s.attempts + 1, s.materials, s.table[group := f],
             s.flights + [Flight(group, 1, false, false, false, false, false)]), Led(f))
  }

  /** storeExtraction: what the worker learnt becomes visible before the flight is done. */
  function Store(s: State, found: map<Identity, Material>): State {
    s.(materials := s.materials + found)
  }

  /** The worker's last critical section: only its own entry may go. */
  function Finish(s: State, f: nat, failed: bool): State
    requires f < |s.flights|
  {
    var g := s.flights[f].group;
    s.(table := if g in s.table && s.table[g] == f then s.table - {g} else s.table,
       flights := s.flights[f := s.flights[f].(finished := true, failed := failed)])
  }

  function Close(s: State, f: nat): State
    requires f < |s.flights|
  {
    s.(flights := s.flights[f := s.flights[f].(done := true)])
  }

  /** A caller whose context ended leaves; the last one to leave cancels the shared work. */
  function Leave(s: State, f: nat): State
    requires f < |s.flights|
  {
    var left := s.flights[f].waiters - 1;
    s.(flights := s.flights[f := s.flights[f].(waiters := left,
                                               abandoned := s.flights[f].abandoned || left == 0,
                                               cancelled := s.flights[f].cancelled || left == 0)])
  }

  // ---------------------------------------------------------------------
  // All callers and workers together

  datatype Caller = Waiting(flight: nat) | Returned

  datatype System = System(state: State, callers: map<nat, Caller>)

  datatype Event =
    | Call(caller: nat, identity: Identity, group: Group, expired: bool)
    | Learn(flight: nat, found: map<Identity, Material>)
    | FinishWork(flight: nat, failed: bool)
    | CloseDone(flight: nat)
    | Wake(caller: nat)
    | GiveUp(caller: nat)

  function After(outcome: Entered): Caller {
    match outcome
    case Joined(f) => Waiting(f)
    case Led(f) => Waiting(f)
    case _ => Returned
  }

  /** Events that cannot happen in a system leave it as it is. */
  function Step(y: System, e: Event): System {
    var s := y.state;
    match e
    case Call(c, identity, group, expired) =>
      if c in y.callers then y
      else
        var (t, outcome) := Enter(s, identity, group, expired);
        System(t, y.callers[c := After(outcome)])
    case Learn(f, found) =>
      if f < |s.flights| && !s.flights[f].finished then y.(state := Store(s, found)) else y
    case FinishWork(f, failed) =>
      if f < |s.flights| && !s.flights[f].finished then y.(state := Finish(s, f, failed)) else y
    case CloseDone(f) =>
      if f < |s.flights| && s.flights[f].finished then y.(state := Close(s, f)) else y
    case Wake(c) =>
      if c in y.callers && y.callers[c].Waiting? && y.callers[c].flight < |s.flights|
         && s.flights[y.callers[c].flight].done
      then y.(callers := y.callers[c := Returned]) else y
    case GiveUp(c) =>
      if c in y.callers && y.callers[c].Waiting? && y.callers[c].flight < |s.flights|
      then System(Leave(s, y.callers[c].flight), y.callers[c := Returned]) else y
  }

  function Run(es: seq<Event>): System {
    if es == [] then System(Initial, map[]) else Step(Run(es[..|es| - 1]), es[|es| - 1])
  }

  function WaitingOn(y: System, f: nat): set<nat> {
    Holders(y.callers, Waiting(f))
  }

  /** Exactly the unfinished, unabandoned flight of a group can be joined. */
  predicate Joinable(s: State, f: nat) {
    f < |s.flights| && !s.flights[f].finished && !s.flights[f].abandoned
  }

  ghost predicate TableOk(s: State) {
    && s.attempts == |s.flights| <= MaxAttempts
    && (forall g :: g in s.table ==>
          s.table[g] < |s.flights| && s.flights[s.table[g]].group == g && !s.flights[s.table[g]].finished)
    && (forall f :: 0 <= f < |s.flights| && Joinable(s, f) ==>
          s.flights[f].group in s.table && s.table[s.flights[f].group] == f)
    && (forall f :: 0 <= f < |s.flights| && s.flights[f].done ==> s.flights[f].finished)
  }

  /** Before its channel closes, a flight's count is its callers, and it is given up exactly when they are none. */
  ghost predicate CountOk(y: System, f: nat)
    requires f < |y.state.flights|
  {
    var it, n := y.state.flights[f], |WaitingOn(y, f)|;
    && n <= it.waiters
    && (it.abandoned <==> it.cancelled)
    && (!it.done ==> it.waiters == n && (it.abandoned <==> n == 0))
  }

  ghost predicate Inv(y: System) {
    && TableOk(y.state)
    && (forall c :: c in y.callers && y.callers[c].Waiting? ==> y.callers[c].flight < |y.state.flights|)
    && (forall f :: 0 <= f < |y.state.flights| ==> CountOk(y, f))
  }

  lemma JoinKeeps(s: State, f: nat)
    requires TableOk(s) && f < |s.flights|
    ensures TableOk(s.(flights := s.flights[f := s.flights[f].(waiters := s.flights[f].waiters + 1)]))
  {
  }

  lemma LeadKeeps(s: State, group: Group)
    requires TableOk(s) && (group in s.table ==> s.flights[s.table[group]].abandoned)
    ensures TableOk(Begin(s, group).0)
  {
  }

  lemma EnterKeeps(s: State, identity: Identity, group: Group, expired: bool)
    requires TableOk(s)
    ensures TableOk(Enter(s, identity, group, expired).0)
  {
    if group in s.table && !s.flights[s.table[group]].abandoned {
      JoinKeeps(s, s.table[group]);
    } else {
      LeadKeeps(s, group);
    }
  }

  lemma CallKeeps(y: System, e: Event)
    requires Inv(y) && e.Call?
    ensures Inv(Step(y, e))
  {
    if e.caller !in y.callers {
      var (t, outcome) := Enter(y.state, e.identity, e.group, e.expired);
      var next := Step(y, e);
      EnterKeeps(y.state, e.identity, e.group, e.expired);
      forall f | 0 <= f < |t.flights| ensures CountOk(next, f) {
        HoldersAfterMove(y.callers, e.caller, After(outcome), Waiting(f));
        if f < |y.state.flights| {
          assert CountOk(y, f);
        } else {
          assert WaitingOn(y, f) == {};
        }
      }
    }
  }

  lemma WorkerKeeps(y: System, e: Event)
    requires Inv(y) && (e.Learn? || e.FinishWork? || e.CloseDone?)
    ensures Inv(Step(y, e))
  {
    var next := Step(y, e);
    forall f | 0 <= f < |next.state.flights| ensures CountOk(next, f) {
      assert CountOk(y, f);
    }
  }

  lemma WakeKeeps(y: System, e: Event)
    requires Inv(y) && (e.Wake? || e.GiveUp?)
    ensures Inv(Step(y, e))
  {
    if Step(y, e) != y {
      var next := Step(y, e);
      forall f | 0 <= f < |next.state.flights| ensures CountOk(next, f) {
        assert CountOk(y, f);
        HoldersAfterMove(y.callers, e.caller, Returned, Waiting(f));
      }
    }
  }

  lemma {:induction false} AlwaysInv(es: seq<Event>)
    ensures Inv(Run(es))
  {
    if es != [] {
      var before, e := Run(es[..|es| - 1]), es[|es| - 1];
      AlwaysInv(es[..|es| - 1]);
      if e.Call? {
        CallKeeps(before, e);
      } else if e.Wake? || e.GiveUp? {
        WakeKeeps(before, e);
      } else {
        WorkerKeeps(before, e);
      }
    }
  }

  // ---------------------------------------------------------------------
  // What every interleaving guarantees

  /** Extractions started are counted by `attempts` and never exceed the budget. */
  lemma BudgetIsKept(es: seq<Event>)
    ensures |Run(es).state.flights| == Run(es).state.attempts <= MaxAttempts
  {
    AlwaysInv(es);
  }

  /** A group never has two flights that can be joined, and a call to it joins the one it has. */
  lemma OneJoinableFlight(es: seq<Event>, f: nat, g: nat)
    requires
      var s := Run(es).state;
      Joinable(s, f) && Joinable(s, g) && s.flights[f].group == s.flights[g].group
    ensures f == g
  {
    AlwaysInv(es);
  }

  /** A table entry leaves only with its own worker, or after everyone gave its flight up. */
  lemma OnlyItsWorkerRemovesAnEntry(es: seq<Event>, e: Event, group: Group)
    requires group in Run(es).state.table
    ensures
      var s, t := Run(es).state, Run(es + [e]).state;
      var f := s.table[group];
      (group in t.table && t.table[group] == f) || (e.FinishWork? && e.flight == f)
      || (e.Call? && f < |s.flights| && s.flights[f].abandoned)
  {
    AlwaysInv(es);
    assert (es + [e])[..|es|] == es;
  }

  /** Before completion, shared work is cancelled exactly when no caller waits for it any more. */
  lemma CancelledExactlyWhenDeserted(es: seq<Event>, f: nat)
    requires f < |Run(es).state.flights| && !Run(es).state.flights[f].done
    ensures Run(es).state.flights[f].cancelled <==>
            forall c :: c in Run(es).callers ==> Run(es).callers[c] != Waiting(f)
  {
    AlwaysInv(es);
    var y := Run(es);
    assert CountOk(y, f);
    assert WaitingOn(y, f) == {} <==> forall c :: c in y.callers ==> y.callers[c] != Waiting(f) by {
      forall c | c in y.callers && y.callers[c] == Waiting(f) ensures c in WaitingOn(y, f) {
      }
      if forall c :: c in y.callers ==> y.callers[c] != Waiting(f) {
        assert forall c :: c !in WaitingOn(y, f);
      }
    }
  }

  // ---------------------------------------------------------------------
  // The coordinator

  class Coordinator {
    var attempts: nat
    var materials: map<Identity, Material>
    var table: map<Group, nat>
    var flights: seq<Flight>

    ghost function Value(): State
      reads this
    {
      State(attempts, materials, table, flights)
    }

    ghost predicate Valid()
      reads this
    {
      TableOk(Value())
    }

    constructor ()
      ensures Valid() && Value() == Initial
    {
      attempts, materials, table, flights := 0, map[], map[], [];
    }

    /** The critical section of runFlight. */
    method RunFlight(identity: Identity, group: Group, expired: bool) returns (outcome: Entered)
      requires Valid()
      modifies this
      ensures Valid() && (Value(), outcome) == Enter(old(Value()), identity, group, expired)
    {
      if expired {
        return Refused(ContextEnded);
      }
      if identity == "" || group == "" {
        return Refused(RefreshRejected);
      }
      if identity in materials {
        return Answered(materials[identity]);
      }
      if group in table && !flights[table[group]].abandoned {
        var existing := table[group];
        JoinKeeps(Value(), existing);
        flights := flights[existing := flights[existing].(waiters := flights[existing].waiters + 1)];
        return Joined(existing);
      }
      outcome := Lead(group);
    }

    /** The tail of that section: forgets an abandoned flight and leads a new one, within the budget. */
    method Lead(group: Group) returns (outcome: Entered)
      requires Valid() && (group in table ==> flights[table[group]].abandoned)
      modifies this
      ensures Valid() && (Value(), outcome) == Begin(old(Value()), group)
    {
      LeadKeeps(Value(), group);
      table := table - {group};
      if attempts >= MaxAttempts {
        return Refused(RefreshBudget);
      }
      attempts := attempts + 1;
      var flight := |flights|;
      flights := flights + [Flight(group, 1, false, false, false, false, false)];
      table := table[group := flight];
      assert table == old(table)[group := flight];
      return Led(flight);
    }

    /** The tail of the worker, up to the closing of the channel. */
    method FinishFlight(flight: nat, failed: bool)
      requires Valid() && flight < |flights|
      modifies this`table, this`flights
      ensures Value() == Finish(old(Value()), flight, failed)
    {
      var group := flights[flight].group;
      flights := flights[flight := flights[flight].(failed := failed)];
      if group in table && table[group] == flight {
        table := table - {group};
      }
      flights := flights[flight := flights[flight].(finished := true)];
      assert flights == old(flights)[flight := old(flights)[flight].(finished := true, failed := failed)];
    }

    /** The branch of waitFlight taken when the caller's own context ends. */
    method LeaveFlight(flight: nat)
      requires Valid() && flight < |flights|
      modifies this`flights
      ensures Value() == Leave(old(Value()), flight)
    {
      var it := flights[flight].(waiters := flights[flight].waiters - 1);
      if it.waiters == 0 {
        it := it.(abandoned := true, cancelled := true);
      }
      flights := flights[flight := it];
    }
  }
}
