/**
 The lazily started challenge solver and its draining Close. A solve is a locked
 section that may start the helper, a run of the helper outside the lock, and its
 completion; a Close is a locked section, a wait until no solve is in flight, and
 the helper's own Close.
 */
module LazySolver {
  import opened Common

  /** A helper is known by the order in which helpers were started. */
  datatype Solver = Solver(configured: bool, helper: Option<nat>, closer: Option<nat>, active: nat, closed: bool)

  datatype Begun = Running(helper: nat) | Unavailable

  /**
   SolvePlayer under the lock: `started` is the helper a factory call would give, if
   it succeeds, and `closable` whether it comes with a closer.
   */
  function Begin(s: Solver, started: Option<nat>, closable: bool): (Solver, Begun) {
    if s.closed then (s, Unavailable)
    else if s.helper.Some? then (s.(active := s.active + 1), Running(s.helper.value))
    else if !s.configured || started.None? then (s, Unavailable)
    else
      (s.(helper := started, closer := if closable then started else None, active := s.active + 1),
       Running(started.value))
  }

  function Done(s: Solver): Solver
    requires s.active > 0
  {
    s.(active := s.active - 1)
  }

  /** Close under the lock: takes the closer over, so that only one Close ever has it. */
  function Shut(s: Solver): (Solver, Option<nat>) {
    (s.(closed := true, closer := None, helper := None), s.closer)
  }

  // ---------------------------------------------------------------------
  // All callers together

  datatype Caller =
    | Solving(helper: nat)
    | Draining(closer: Option<nat>)
    | Finished

  /** `started`, `closers` and `shut` count the helpers started, the closers they came with and those run. */
  datatype System = System(solver: Solver, callers: map<nat, Caller>, started: nat, closers: nat, shut: nat)

  datatype Event =
    | Solve(caller: nat, factoryFails: bool, closable: bool)
    | SolveReturns(caller: nat)
    | CloseBegins(caller: nat)
    | CloseDrained(caller: nat)

  function Step(y: System, e: Event): System {
    var c := e.caller;
    match e
    case Solve(_, factoryFails, closable) =>
      if c in y.callers then y
      else
        var (s, begun) := Begin(y.solver, if factoryFails then None else Some(y.started), closable);
        y.(solver := s,
           callers := y.callers[c := if begun.Running? then Solving(begun.helper) else Finished],
           started := if s.helper != y.solver.helper then y.started + 1 else y.started,
           closers := if s.closer != y.solver.closer then y.closers + 1 else y.closers)
    case SolveReturns(_) =>
      if c in y.callers && y.callers[c].Solving? && y.solver.active > 0
      then y.(solver := Done(y.solver), callers := y.callers[c := Finished]) else y
    case CloseBegins(_) =>
      if c in y.callers then y
      else
        var (s, closer) := Shut(y.solver);
        y.(solver := s, callers := y.callers[c := Draining(closer)])
    case CloseDrained(_) =>
      if c in y.callers && y.callers[c].Draining? && y.solver.active == 0
      then y.(callers := y.callers[c := Finished],
              shut := if y.callers[c].closer.Some? then y.shut + 1 else y.shut) else y
  }

  function Run(configured: bool, es: seq<Event>): System {
    if es == [] then System(Solver(configured, None, None, 0, false), map[], 0, 0, 0)
    else Step(Run(configured, es[..|es| - 1]), es[|es| - 1])
  }

  function InFlight(y: System): set<nat> {
    set c | c in y.callers && y.callers[c].Solving?
  }

  /** The Closes that took the closer over and have not run it yet. */
  function Charged(y: System): set<nat> {
    set c | c in y.callers && y.callers[c].Draining? && y.callers[c].closer.Some?
  }

  ghost predicate Inv(y: System) {
    var s := y.solver;
    && s.active == |InFlight(y)|
    && (s.closer.Some? ==> s.closer == s.helper)
    && (s.helper.Some? ==> s.helper == Some(0) && y.started == 1)
    && (s.helper.None? && !s.closed ==> y.started == 0 && s.active == 0)
    && y.closers <= y.started <= 1
    && (s.closed ==> s.helper.None? && y.shut + |Charged(y)| == y.closers)
    && (!s.closed ==> Charged(y) == {} && y.shut == 0 && y.closers == if s.closer.Some? then 1 else 0)
    && (forall c :: c in InFlight(y) ==> y.callers[c] == Solving(0))
    && (y.shut > 0 ==> s.closed && s.active == 0)
  }

  lemma SolveKeeps(y: System, e: Event)
    requires Inv(y) && e.Solve?
    ensures Inv(Step(y, e))
  {
    if e.caller !in y.callers {
      var next := Step(y, e);
      assert Charged(next) == Charged(y);
      if next.callers[e.caller].Solving? {
        assert InFlight(next) == InFlight(y) + {e.caller};
      } else {
        assert InFlight(next) == InFlight(y);
      }
    }
  }

  lemma ReturnKeeps(y: System, e: Event)
    requires Inv(y) && e.SolveReturns?
    ensures Inv(Step(y, e))
  {
    if e.caller in y.callers && y.callers[e.caller].Solving? && y.solver.active > 0 {
      var next := Step(y, e);
      assert Charged(next) == Charged(y);
      assert InFlight(next) == InFlight(y) - {e.caller};
    }
  }

  lemma CloseKeeps(y: System, e: Event)
    requires Inv(y) && e.CloseBegins?
    ensures Inv(Step(y, e))
  {
    if e.caller !in y.callers {
      var next := Step(y, e);
      assert InFlight(next) == InFlight(y);
      if y.solver.closer.Some? {
        assert Charged(next) == Charged(y) + {e.caller};
      } else {
        assert Charged(next) == Charged(y);
      }
    }
  }

  lemma DrainKeeps(y: System, e: Event)
    requires Inv(y) && e.CloseDrained?
    ensures Inv(Step(y, e))
  {
    if e.caller in y.callers && y.callers[e.caller].Draining? && y.solver.active == 0 {
      var next := Step(y, e);
      assert InFlight(next) == InFlight(y);
      assert Charged(next) == Charged(y) - {e.caller};
    }
  }

  lemma {:induction false} AlwaysInv(configured: bool, es: seq<Event>)
    ensures Inv(Run(configured, es))
  {
    if es != [] {
      var before, e := Run(configured, es[..|es| - 1]), es[|es| - 1];
      AlwaysInv(configured, es[..|es| - 1]);
      match e
      case Solve(_, _, _) => SolveKeeps(before, e);
      case SolveReturns(_) => ReturnKeeps(before, e);
      case CloseBegins(_) => CloseKeeps(before, e);
      case CloseDrained(_) => DrainKeeps(before, e);
    }
  }

  /** At most one helper is ever started, and the closer it came with, if any, runs at most once. */
  lemma OneHelperClosedOnce(configured: bool, es: seq<Event>)
    ensures Run(configured, es).shut <= Run(configured, es).closers <= Run(configured, es).started <= 1
  {
    AlwaysInv(configured, es);
    var y := Run(configured, es);
    assert y.solver.closed ==> y.shut + |Charged(y)| == y.closers;
  }

  /** The helper is shut down only with no solve in flight, and no solve is in flight ever after. */
  lemma ClosedOnlyWhenDrained(configured: bool, es: seq<Event>)
    requires Run(configured, es).shut > 0
    ensures InFlight(Run(configured, es)) == {}
  {
    AlwaysInv(configured, es);
  }

  /** Once marked closed the solver stays closed and no further solve begins. */
  lemma NoSolveAfterClose(configured: bool, es: seq<Event>, e: Event)
    requires Run(configured, es).solver.closed
    ensures
      var y, next := Run(configured, es), Run(configured, es + [e]);
      next.solver.closed && InFlight(next) <= InFlight(y) && next.started == y.started
  {
    assert (es + [e])[..|es|] == es;
  }

  /** When every Close has returned after the last solve did, every closer a helper came with has run. */
  lemma EveryCloseDrainedShutsTheHelper(configured: bool, es: seq<Event>)
    requires
      var y := Run(configured, es);
      y.solver.closed && forall c :: c in y.callers ==> y.callers[c] == Finished
    ensures Run(configured, es).shut == Run(configured, es).closers
  {
    AlwaysInv(configured, es);
    assert Charged(Run(configured, es)) == {};
  }

  // ---------------------------------------------------------------------
  // The solver object

  class LazyChallengeSolver {
    const configured: bool
    var helper: Option<nat>
    var closer: Option<nat>
    var active: nat
    var closed: bool

    ghost function Value(): Solver
      reads this
    {
      Solver(configured, helper, closer, active, closed)
    }

    constructor (configured: bool)
      ensures Value() == Solver(configured, None, None, 0, false)
    {
      this.configured := configured;
      helper, closer, active, closed := None, None, 0, false;
    }

    /** SolvePlayer up to the call of the helper. */
    method BeginSolve(started: Option<nat>, closable: bool) returns (begun: Begun)
      modifies this
      ensures (Value(), begun) == Begin(old(Value()), started, closable)
    {
      if closed {
        return Unavailable;
      }
      if helper.None? {
        if !configured || started.None? {
          return Unavailable;
        }
        helper, closer := started, if closable then started else None;
      }
      active := active + 1;
      return Running(helper.value);
    }

    method EndSolve()
      requires active > 0
      modifies this`active
      ensures Value() == Done(old(Value()))
    {
      active := active - 1;
    }

    /** Close up to the wait. */
    method BeginClose() returns (taken: Option<nat>)
      modifies this
      ensures (Value(), taken) == Shut(old(Value()))
    {
      closed := true;
      taken := closer;
      closer := None;
      helper := None;
    }
  }
}
