/** Reading only as much of the source as the selection can need. */
module PlaylistPrefetch {
  import opened Common
  import opened PlaylistItems

  // ---------------------------------------------------------------------
  // How far a spec reaches

  /** An ascending spec with no bound counted from the end. */
  predicate Bounded(spec: Spec) {
    && spec.step > 0
    && !spec.endInfinite
    && (spec.start.Some? ==> spec.start.value >= 0)
    && spec.end.Some?
    && spec.end.value >= 0
  }

  /** The first selected position that is not before the source. */
  function FirstInside(first: int, step: int): int
    requires step > 0
  {
    if first < 0 then first + ((-first + step - 1) / step) * step else first
  }

  /** The highest index a bounded spec can select, or 0. */
  function Highest(spec: Spec): int
    requires Bounded(spec)
  {
    var inside, stop := FirstInside(First(spec, 0), spec.step), spec.end.value;
    if inside >= stop then 0 else inside + ((stop - 1 - inside) / spec.step) * spec.step + 1
  }

  lemma MultipleBetween(x: int, m: int)
    requires m > 0 && x % m == 0 && x > -m
    ensures x >= 0
  {
    assert x == m * (x / m);
    ProductIsFarFromZero(m, x / m);
  }

  lemma SameClass(x: int, k: int, m: int)
    requires m > 0
    ensures (x - k * m) % m == x % m
  {
    assert x - k * m == m * (x / m - k) + x % m;
    DivisionIsUnique(x - k * m, m, x / m - k, x % m);
  }

  /** FirstInside is the least non-negative position of its class. */
  lemma FirstInsideIsLeast(first: int, step: int, position: int)
    requires step > 0 && first >= -1
    ensures var inside := FirstInside(first, step); 0 <= inside && (first < 0 ==> inside < step)
    ensures (position - first) % step == (position - FirstInside(first, step)) % step
  {
    if first < 0 {
      DivisionIsUnique(step, step, 1, 0);
      assert FirstInside(first, step) == first + step;
      SameClass(position - first, 1, step);
    }
  }

  lemma FloorReaches(inside: int, stop: int, step: int, position: int)
    requires step > 0 && 0 <= inside < stop && position < stop && (position - inside) % step == 0
    ensures position <= inside + ((stop - 1 - inside) / step) * step
  {
    var q, r := (stop - 1 - inside) / step, (stop - 1 - inside) % step;
    var over := inside + q * step - position;
    SameClass(inside - position, -q, step);
    assert over == inside - position - -q * step;
    NegatedMultiple(position - inside, step);
    assert stop - 1 - inside == step * q + r;
    MultipleBetween(over, step);
  }

  lemma NegatedMultiple(x: int, m: int)
    requires m > 0 && x % m == 0
    ensures -x % m == 0
  {
    assert x == m * (x / m);
    DivisionIsUnique(-x, m, -(x / m), 0);
  }

  /** Nothing past the highest index is selected, in a source of any length. */
  lemma NothingBeyondHighest(spec: Spec, length: nat, position: nat)
    requires Bounded(spec) && Selects(spec, length, position)
    ensures position < Highest(spec)
  {
    var first := First(spec, 0);
    var inside, stop := FirstInside(first, spec.step), spec.end.value;
    assert First(spec, length) == first && Stop(spec, length) == stop;
    FirstInsideIsLeast(first, spec.step, position);
    if inside >= stop {
      NegatedMultiple(position - inside, spec.step);
      if first < 0 {
        NegatedMultiple(inside - position, spec.step);
        MultipleBetween(position - inside, spec.step);
      }
    } else {
      FloorReaches(inside, stop, spec.step, position);
    }
  }

  /** Rounding a length down to whole steps stays inside it. */
  lemma FloorIsInside(room: int, step: int)
    requires room >= 0 && step > 0
    ensures var k := (room / step) * step; 0 <= k <= room && k % step == 0
  {
    var q, r := room / step, room % step;
    assert room == step * q + r;
    assert q >= 0;
    DivisionIsUnique(q * step, step, q, 0);
  }

  /** The highest index is itself selected, in every source that has it. */
  lemma HighestIsSelected(spec: Spec, length: nat)
    requires Bounded(spec) && Highest(spec) > 0
    ensures Selects(spec, length, Highest(spec) - 1)
  {
    var first, step := First(spec, 0), spec.step;
    var inside, stop := FirstInside(first, step), spec.end.value;
    var k := ((stop - 1 - inside) / step) * step;
    assert First(spec, length) == first && Stop(spec, length) == stop && Highest(spec) - 1 == inside + k;
    FloorIsInside(stop - 1 - inside, step);
    FirstInsideIsLeast(first, step, inside + k);
    InsideIsAfterFirst(first, step);
  }

  lemma InsideIsAfterFirst(first: int, step: int)
    requires step > 0 && first >= -1
    ensures first <= FirstInside(first, step)
  {
    if first < 0 {
      DivisionIsUnique(step, step, 1, 0);
    }
  }

  // ---------------------------------------------------------------------
  // The collection limit

  /** Every spec is bounded and reaches no further than the entry cap. */
  predicate Short(specs: seq<Spec>) {
    forall i :: 0 <= i < |specs| ==> Bounded(specs[i]) && Highest(specs[i]) <= MaxPlaylistEntries
  }

  /** The limit is the highest index that any of the specs can select, or 0 when none selects anything. */
  ghost predicate IsReach(specs: seq<Spec>, limit: int) {
    && 0 <= limit
    && (forall i :: 0 <= i < |specs| ==> Bounded(specs[i]) && Highest(specs[i]) <= limit)
    && (limit > 0 ==> exists i :: 0 <= i < |specs| && Bounded(specs[i]) && Highest(specs[i]) == limit)
  }

  /** The arithmetic of one bounded spec. */
  method LastIndex(spec: Spec) returns (last: int)
    requires Bounded(spec)
    ensures last == Highest(spec)
  {
    var start := 0;
    if spec.start.Some? {
      start := spec.start.value - 1;
    }
    if start < 0 {
      start := start + ((-start + spec.step - 1) / spec.step) * spec.step;
    }
    var stop := spec.end.value;
    if start >= stop {
      return 0;
    }
    return start + ((stop - 1 - start) / spec.step) * spec.step + 1;
  }

  /**
   finitePlaylistItemCollectionLimit: stops at the first spec that is not bounded
   or reaches past the cap; one past the cap then stands for all of the source.
   */
  method CollectionLimit(specs: seq<Spec>, context: Context)
    returns (limit: int, finite: bool, ended: bool, after: Context)
    requires WellFormed(specs)
    ensures ended ==> after.Ended()
    ensures context.left.None? ==> after == context
    ensures !ended ==> (Short(specs) <==> finite && limit <= MaxPlaylistEntries)
    ensures !ended && Short(specs) ==> IsReach(specs, limit)
    ensures !ended && !Short(specs) && finite ==> limit == MaxPlaylistEntries + 1
    ensures !ended && !finite ==> exists i :: 0 <= i < |specs| && !Bounded(specs[i])
  {
    limit, after := 0, context;
    for n := 0 to |specs|
      invariant 0 <= limit <= MaxPlaylistEntries
      invariant Short(specs[..n]) && IsReach(specs[..n], limit)
      invariant context.left.None? ==> after == context
    {
      if after.Ended() {
        return 0, false, true, after;
      }
      after := after.Checked();
      var spec := specs[n];
      if spec.step <= 0 || spec.endInfinite || (spec.start.Some? && spec.start.value < 0)
         || spec.end.None? || spec.end.value < 0 {
        return 0, false, false, after;
      }
      ghost var before := limit;
      var last := LastIndex(spec);
      if last > MaxPlaylistEntries {
        return MaxPlaylistEntries + 1, true, false, after;
      }
      if last > limit {
        limit := last;
      }
      ReachGrows(specs, n, before, limit);
    }
    finite, ended := true, false;
    assert specs[..|specs|] == specs;
  }

  lemma {:induction false} ReachExists(specs: seq<Spec>)
    ensures Short(specs) ==> exists limit: nat :: IsReach(specs, limit)
  {
    if specs == [] {
      assert IsReach(specs, 0);
    } else if Short(specs) {
      var n := |specs| - 1;
      ReachExists(specs[..n]);
      var before: nat :| IsReach(specs[..n], before);
      var limit := if Highest(specs[n]) > before then Highest(specs[n]) else before;
      ReachGrows(specs, n, before, limit);
      assert specs[..n + 1] == specs;
    }
  }

  lemma ReachGrows(specs: seq<Spec>, n: nat, before: int, limit: int)
    requires n < |specs| && IsReach(specs[..n], before) && Bounded(specs[n])
    requires limit == if Highest(specs[n]) > before then Highest(specs[n]) else before
    ensures IsReach(specs[..n + 1], limit)
  {
    var longer := specs[..n + 1];
    assert longer[n] == specs[n] && forall i :: 0 <= i < n ==> longer[i] == specs[..n][i];
    if limit > 0 && limit == before {
      var i :| 0 <= i < n && Bounded(specs[..n][i]) && Highest(specs[..n][i]) == before;
      assert Highest(longer[i]) == limit;
    }
  }

  // ---------------------------------------------------------------------
  // The prefetch refines the full read

  lemma {:induction false} WithinIsMonotone(positions: seq<int>, shorter: nat, length: nat)
    requires shorter <= length
    requires forall i :: 0 <= i < |positions| ==> positions[i] < shorter || positions[i] >= length
    ensures Within(positions, shorter) == Within(positions, length)
  {
    if positions != [] {
      WithinIsMonotone(positions[1..], shorter, length);
    }
  }

  lemma PrefetchedProgression(spec: Spec, limit: nat, length: nat)
    requires Bounded(spec) && Highest(spec) <= limit <= length
    ensures Progression(spec, limit) == Progression(spec, length)
  {
    assert First(spec, limit) == First(spec, length) && Stop(spec, limit) == Stop(spec, length);
    var positions := Rising(First(spec, length), Stop(spec, length), spec.step);
    forall i | 0 <= i < |positions| ensures positions[i] < limit || positions[i] >= length {
      RisingMembers(First(spec, length), Stop(spec, length), spec.step, positions[i]);
      if positions[i] >= 0 {
        NothingBeyondHighest(spec, length, positions[i]);
      }
    }
    WithinIsMonotone(positions, limit, length);
  }

  lemma PrefetchedConcatenation(specs: seq<Spec>, limit: nat, length: nat)
    requires WellFormed(specs) && limit <= length
    requires forall i :: 0 <= i < |specs| ==> Bounded(specs[i]) && Highest(specs[i]) <= limit
    ensures Concatenated(specs, limit) == Concatenated(specs, length)
  {
    forall i | 0 <= i < |specs| ensures Parts(specs, limit)[i] == Parts(specs, length)[i] {
      PrefetchedProgression(specs[i], limit, length);
    }
    assert Parts(specs, limit) == Parts(specs, length);
  }

  /** Expanding over the prefetched prefix selects what expanding over the whole source selects, in the same order. */
  lemma PrefetchRefinesFullRead(specs: seq<Spec>, limit: nat, length: nat)
    requires WellFormed(specs) && IsReach(specs, limit)
    ensures Expand(specs, if limit < length then limit else length) == Expand(specs, length)
  {
    if limit < length {
      PrefetchedConcatenation(specs, limit, length);
    }
  }

  /** No shorter prefix would do: the entry at the limit is selected whenever the source has it. */
  lemma LimitIsTight(specs: seq<Spec>, limit: nat, length: nat)
    requires WellFormed(specs) && IsReach(specs, limit) && 0 < limit <= length
    ensures limit in Expand(specs, length)
  {
    var i :| 0 <= i < |specs| && Bounded(specs[i]) && Highest(specs[i]) == limit;
    HighestIsSelected(specs[i], length);
    ExpandSelectsExactly(specs, length, limit);
  }

  // ---------------------------------------------------------------------
  // The iterator

  datatype Indexed<E> = Indexed(entry: E, sourceIndex: int)

  /** How the source ends once its entries are used up. */
  datatype Ending = Exhausted | SourceFails

  datatype Error = PlaylistLimit | SourceError | ContextEnded

  function Pick<E>(source: seq<E>, indexes: seq<int>): seq<Indexed<E>>
    requires forall i :: 0 <= i < |indexes| ==> 1 <= indexes[i] <= |source|
  {
    seq(|indexes|, i requires 0 <= i < |indexes| => Indexed(source[indexes[i] - 1], indexes[i]))
  }

  /** Every index an expansion gives is one of the source. */
  lemma ExpandIsInside(specs: seq<Spec>, length: nat)
    requires WellFormed(specs)
    ensures forall i :: 0 <= i < |Expand(specs, length)| ==> 1 <= Expand(specs, length)[i] <= length
  {
    forall i | 0 <= i < |Expand(specs, length)| ensures 1 <= Expand(specs, length)[i] <= length {
      ExpandSelectsExactly(specs, length, Expand(specs, length)[i]);
    }
  }

  ghost function Selected<E>(source: seq<E>, specs: seq<Spec>): seq<Indexed<E>>
    requires WellFormed(specs)
  {
    ExpandIsInside(specs, |source|);
    Pick(source, Expand(specs, |source|))
  }

  /** Reading all of the source first, within the entry cap. */
  ghost function FullRead<E>(source: seq<E>, ending: Ending, specs: seq<Spec>): Result<seq<Indexed<E>>, Error>
    requires WellFormed(specs)
  {
    if |source| > MaxPlaylistEntries then Err(PlaylistLimit)
    else if ending == SourceFails then Err(SourceError)
    else Ok(Selected(source, specs))
  }

  /**
   What loading must give. Short selections do not depend on what lies beyond
   their reach, not even on the entry cap or a failing source; all others are
   those of the full read.
   */
  ghost predicate IsSelection<E>(source: seq<E>, ending: Ending, specs: seq<Spec>,
                                       r: Result<seq<Indexed<E>>, Error>)
    requires WellFormed(specs)
  {
    if Short(specs) then
      exists limit: nat :: IsReach(specs, limit)
                           && r == if limit <= |source| then Ok(Selected(source, specs))
                                   else FullRead(source, ending, specs)
    else r == FullRead(source, ending, specs)
  }

  /**
   load, up to the storing of the entries; `read` counts the entries taken from the
   source. A context that ends on the way gives its error and no selection.
   */
  method Collect<E>(source: seq<E>, ending: Ending, specs: seq<Spec>, context: Context)
    returns (r: Result<seq<Indexed<E>>, Error>, read: nat)
    requires WellFormed(specs)
    ensures r == Err(ContextEnded) ==> context.left.Some?
    ensures r != Err(ContextEnded) ==> IsSelection(source, ending, specs, r)
    ensures Short(specs) ==> exists limit: nat :: IsReach(specs, limit) && read <= limit
  {
    read := 0;
    ReachExists(specs);
    var limit, finite, ended, after := CollectionLimit(specs, context);
    if ended {
      return Err(ContextEnded), read;
    }
    var entries: seq<E> := [];
    while !finite || |entries| < limit
      invariant |entries| <= |source| && entries == source[..|entries|]
      invariant |entries| == read <= MaxPlaylistEntries
      invariant finite ==> |entries| <= limit
      decreases |source| - |entries|
    {
      if |entries| == |source| {
        if ending == SourceFails {
          return Err(SourceError), read;
        }
        break;
      }
      if |entries| >= MaxPlaylistEntries {
        return Err(PlaylistLimit), read;
      }
      entries := entries + [source[|entries|]];
      read := read + 1;
    }
    var expanded, last := ExpandSpecs(specs, |entries|, after);
    if expanded.None? {
      return Err(ContextEnded), read;
    }
    ExpandIsInside(specs, |entries|);
    var picked := PickAll(entries, expanded.value);
    if Short(specs) {
      PrefixIsSelection(source, ending, specs, limit, |entries|);
    } else {
      assert entries == source;
    }
    r := Ok(picked);
  }

  method PickAll<E>(entries: seq<E>, indexes: seq<int>) returns (picked: seq<Indexed<E>>)
    requires forall i :: 0 <= i < |indexes| ==> 1 <= indexes[i] <= |entries|
    ensures picked == Pick(entries, indexes)
  {
    picked := [];
    for i := 0 to |indexes|
      invariant picked == Pick(entries, indexes)[..i]
    {
      picked := picked + [Indexed(entries[indexes[i] - 1], indexes[i])];
    }
  }

  /** For a short selection, what lies within its reach is enough. */
  lemma PrefixIsSelection<E>(source: seq<E>, ending: Ending, specs: seq<Spec>, limit: nat, n: nat)
    requires WellFormed(specs) && Short(specs) && IsReach(specs, limit)
    requires n <= |source| && n <= limit
    requires n < limit ==> n == |source| <= MaxPlaylistEntries && ending == Exhausted
    ensures IsSelection(source, ending, specs, Ok(Selected(source[..n], specs)))
  {
    PrefetchRefinesFullRead(specs, limit, |source|);
    PrefixSelects(source, n, specs);
  }

  lemma PrefixSelects<E>(source: seq<E>, n: nat, specs: seq<Spec>)
    requires WellFormed(specs) && n <= |source| && Expand(specs, n) == Expand(specs, |source|)
    ensures Selected(source[..n], specs) == Selected(source, specs)
  {
    ExpandIsInside(specs, n);
  }

  class ItemsIterator<E> {
    const source: seq<E>
    const ending: Ending
    const specs: seq<Spec>
    var entries: seq<Indexed<E>>
    var position: nat
    var loaded: bool
    var done: bool

    ghost predicate Valid()
      reads this
    {
      && WellFormed(specs)
      && position <= |entries|
      && (!loaded ==> entries == [] && position == 0)
      && (loaded && !done ==> IsSelection(source, ending, specs, Ok(entries)))
    }

    constructor (source: seq<E>, ending: Ending, specs: seq<Spec>)
      requires WellFormed(specs)
      ensures Valid() && !loaded && !done
      ensures this.source == source && this.ending == ending && this.specs == specs
    {
      this.source, this.ending, this.specs := source, ending, specs;
      entries, position, loaded, done := [], 0, false, false;
    }

    /**
     Hands out the selection entry by entry: after a load, exactly the entries not
     yet handed out, in order; after the last one, an error or the end of the
     caller's context, nothing for ever.
     */
    method Next(context: Context) returns (r: Result<Option<Indexed<E>>, Error>)
      requires Valid()
      modifies this
      ensures Valid()
      ensures old(loaded) ==> loaded && entries == old(entries)
      ensures old(done) ==> done
      ensures context.Ended() ==> r == Err(ContextEnded) && done
      ensures !context.Ended() && old(done) ==> r == Ok(None)
      ensures !context.Ended() && !old(done) ==>
                loaded && match r {
                  case Err(e) =>
                    && done
                    && !old(loaded)
                    && (if e == ContextEnded then context.left.Some? else IsSelection(source, ending, specs, Err(e)))
                  case Ok(None) => done && old(position) == |entries| && IsSelection(source, ending, specs, Ok(entries))
                  case Ok(Some(it)) =>
                    && !done
                    && old(position) < |entries|
                    && it == entries[old(position)]
                    && position == old(position) + 1
                }
    {
      if context.Ended() {
        done := true;
        return Err(ContextEnded);
      }
      if done {
        return Ok(None);
      }
      if !loaded {
        loaded := true;
        var collected, read := Collect(source, ending, specs, context.Checked());
        if collected.Err? {
          done := true;
          return Err(collected.error);
        }
        entries := collected.value;
      }
      if position >= |entries| {
        done := true;
        return Ok(None);
      }
      var entry := entries[position];
      position := position + 1;
      return Ok(Some(entry));
    }
  }
}
