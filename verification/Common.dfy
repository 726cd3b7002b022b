/** Small value types and counting facts shared by the other modules. */
module Common {

  datatype Option<+T> = None | Some(value: T)

  datatype Result<+T, +E> = Ok(value: T) | Err(error: E)

  /** The keys that a map sends to `v`: the callers that are in the state `v`. */
  function Holders<S(==)>(m: map<nat, S>, v: S): (r: set<nat>)
  {
    set c | c in m && m[c] == v
  }

  /** Moving one caller from one state to another moves it between exactly two holder sets. */
  lemma HoldersAfterMove<S>(m: map<nat, S>, c: nat, to: S, v: S)
    ensures c in m && m[c] == v && to != v ==>
              c in Holders(m, v) && Holders(m[c := to], v) == Holders(m, v) - {c}
    ensures !(c in m && m[c] == v) && to == v ==>
              c !in Holders(m, v) && Holders(m[c := to], v) == Holders(m, v) + {c}
    ensures (c in m && m[c] == v) == (to == v) ==> Holders(m[c := to], v) == Holders(m, v)
  {
  }

  function Iterate<T>(f: T -> T, x: T, k: nat): T {
    if k == 0 then x else Iterate(f, f(x), k - 1)
  }

  lemma {:induction false} IterateAdds<T>(f: T -> T, x: T, j: nat, k: nat)
    ensures Iterate(f, x, j + k) == Iterate(f, Iterate(f, x, j), k)
    decreases j
  {
    if j > 0 {
      IterateAdds(f, f(x), j - 1, k);
    }
  }

  // ---------------------------------------------------------------------
  // Histories of any state machine

  /** The state after a history of events. */
  function Fold<T, E>(step: (T, E) -> T, start: T, es: seq<E>): T {
    if es == [] then start else step(Fold(step, start, es[..|es| - 1]), es[|es| - 1])
  }

  lemma FoldOne<T, E>(step: (T, E) -> T, start: T, e: E)
    ensures Fold(step, start, [e]) == step(start, e)
  {
    var es := [e];
    assert es[..|es| - 1] == [] && es[|es| - 1] == e;
  }

  lemma {:induction false} FoldTwice<T, E>(step: (T, E) -> T, start: T, first: seq<E>, second: seq<E>)
    ensures Fold(step, start, first + second) == Fold(step, Fold(step, start, first), second)
    decreases |second|
  {
    if second == [] {
      assert first + second == first;
    } else {
      var n := |second| - 1;
      FoldTwice(step, start, first, second[..n]);
      assert (first + second)[..|first + second| - 1] == first + second[..n];
    }
  }

  /** Event `i` of the history sets the flag, and no later event clears it. */
  ghost predicate StandsSince<T, E>(
      step: (T, E) -> T, start: T, es: seq<E>, sets: (T, E) -> bool, clears: (T, E) -> bool, i: nat)
    requires i < |es|
  {
    && sets(Fold(step, start, es[..i]), es[i])
    && forall j :: i < j < |es| ==> !clears(Fold(step, start, es[..j]), es[j])
  }

  /**
   A flag of the state that starts down, and that each event sets, clears or keeps in
   every state of an invariant, is up after a history exactly if some event set it
   and no later one cleared it.
   */
  lemma {:induction false} FlagExactly<T(!new), E(!new)>(
      step: (T, E) -> T, start: T, es: seq<E>, inv: T -> bool, flag: T -> bool,
      sets: (T, E) -> bool, clears: (T, E) -> bool)
    requires inv(start) && !flag(start)
    requires forall t, e :: inv(t) ==>
               inv(step(t, e)) && (flag(step(t, e)) <==> sets(t, e) || (flag(t) && !clears(t, e)))
    ensures inv(Fold(step, start, es))
    ensures flag(Fold(step, start, es)) <==>
            exists i :: 0 <= i < |es| && StandsSince(step, start, es, sets, clears, i)
  {
    if es != [] {
      var n := |es| - 1;
      var before := es[..n];
      FlagExactly(step, start, before, inv, flag, sets, clears);
      StandsLonger(step, start, es, sets, clears);
    }
  }

  lemma StandsLonger<T, E>(step: (T, E) -> T, start: T, es: seq<E>, sets: (T, E) -> bool, clears: (T, E) -> bool)
    requires es != []
    ensures
      var n := |es| - 1;
      var before, t, e := es[..n], Fold(step, start, es[..n]), es[n];
      (exists i :: 0 <= i < |es| && StandsSince(step, start, es, sets, clears, i)) <==>
      sets(t, e) || (!clears(t, e) && exists i :: 0 <= i < n && StandsSince(step, start, before, sets, clears, i))
  {
    var n := |es| - 1;
    var before, t, e := es[..n], Fold(step, start, es[..n]), es[n];
    assert forall i :: 0 <= i <= n ==> before[..i] == es[..i];
    if i :| 0 <= i < n && StandsSince(step, start, before, sets, clears, i) {
      assert !clears(t, e) ==> StandsSince(step, start, es, sets, clears, i);
    }
    if i :| 0 <= i < |es| && StandsSince(step, start, es, sets, clears, i) {
      assert i < n ==> StandsSince(step, start, before, sets, clears, i) && !clears(t, e);
    }
    assert sets(t, e) ==> StandsSince(step, start, es, sets, clears, n);
  }
}
