/** Playlist item selection: what a list of index ranges selects, and how little of the source it must read. */
module PlaylistItems {
  import opened Common

  const MaxPlaylistEntries := 10000
  const MaxMagnitude := 1_000_000_000

  /** One comma-separated segment; the parser admits no zero step. */
  datatype Spec = Spec(start: Option<int>, end: Option<int>, endInfinite: bool, step: int)

  predicate WellFormed(specs: seq<Spec>) {
    forall i :: 0 <= i < |specs| ==> specs[i].step != 0
  }

  /** A positive index counts from one, a negative one from the end; the result counts from zero. */
  function Resolve(index: int, length: nat): int {
    if index >= 0 then index - 1 else length + index
  }

  function First(spec: Spec, length: nat): int {
    if spec.start.None? then if spec.step > 0 then 0 else length - 1
    else Resolve(spec.start.value, length)
  }

  /** The first position past the end, in the direction of the step. */
  function Stop(spec: Spec, length: nat): int {
    if spec.endInfinite then MaxMagnitude + 1
    else if spec.end.None? then if spec.step > 0 then MaxMagnitude + 1 else -1
    else Resolve(spec.end.value, length) + if spec.step > 0 then 1 else -1
  }

  // ---------------------------------------------------------------------
  // What a list of specs means

  /** from, from + step, from + 2 * step, … while below the stop. */
  function Rising(from: int, stop: int, step: int): seq<int>
    requires step > 0
    decreases stop - from
  {
    if from >= stop then [] else [from] + Rising(from + step, stop, step)
  }

  function Falling(from: int, stop: int, step: int): seq<int>
    requires step > 0
    decreases from - stop
  {
    if from <= stop then [] else [from] + Falling(from - step, stop, step)
  }

  /** The positions that exist in a source of this length, as the indexes users see. */
  function Within(positions: seq<int>, length: nat): seq<int> {
    if positions == [] then []
    else (if 0 <= positions[0] < length then [positions[0] + 1] else []) + Within(positions[1..], length)
  }

  function Progression(spec: Spec, length: nat): seq<int>
    requires spec.step != 0
  {
    Within(if spec.step > 0 then Rising(First(spec, length), Stop(spec, length), spec.step)
           else Falling(First(spec, length), Stop(spec, length), -spec.step), length)
  }

  function Parts(specs: seq<Spec>, length: nat): seq<seq<int>>
    requires WellFormed(specs)
  {
    seq(|specs|, i requires 0 <= i < |specs| => Progression(specs[i], length))
  }

  function Flattened(parts: seq<seq<int>>): seq<int> {
    if parts == [] then [] else Flattened(parts[..|parts| - 1]) + parts[|parts| - 1]
  }

  function Concatenated(specs: seq<Spec>, length: nat): seq<int>
    requires WellFormed(specs)
  {
    Flattened(Parts(specs, length))
  }

  /** Every value at its first occurrence only. */
  function Distinct(s: seq<int>): seq<int> {
    if s == [] then []
    else
      var d, x := Distinct(s[..|s| - 1]), s[|s| - 1];
      if x in d then d else d + [x]
  }

  function Expand(specs: seq<Spec>, length: nat): seq<int>
    requires WellFormed(specs)
  {
    Distinct(Concatenated(specs, length))
  }

  // ---------------------------------------------------------------------
  // Modular facts

  lemma ProductIsFarFromZero(m: int, d: int)
    requires m > 0
    ensures d >= 1 ==> m * d >= m
    ensures d <= -1 ==> m * d <= -m
  {
    assert m * d == m + m * (d - 1) == m * (d + 1) - m;
  }

  lemma RemainderIsUnique(m: int, q: int, r: int, p: int, s: int)
    requires m > 0 && m * q + r == m * p + s && 0 <= r < m && 0 <= s < m
    ensures q == p && r == s
  {
    assert m * (q - p) == s - r;
    ProductIsFarFromZero(m, q - p);
  }

  lemma DivisionIsUnique(x: int, m: int, q: int, r: int)
    requires m > 0 && x == m * q + r && 0 <= r < m
    ensures x % m == r && x / m == q
  {
    RemainderIsUnique(m, q, r, x / m, x % m);
  }

  lemma ModShift(x: int, m: int)
    requires m > 0
    ensures (x - m) % m == x % m
  {
    DivisionIsUnique(x - m, m, x / m - 1, x % m);
  }

  lemma SmallMod(x: int, m: int)
    requires 0 < x < m
    ensures x % m != 0
  {
    DivisionIsUnique(x, m, 0, x);
  }

  // ---------------------------------------------------------------------
  // Progressions by membership

  lemma {:induction false} RisingMembers(from: int, stop: int, step: int, x: int)
    requires step > 0
    ensures x in Rising(from, stop, step) <==> from <= x < stop && (x - from) % step == 0
    decreases stop - from
  {
    if from < stop {
      RisingMembers(from + step, stop, step, x);
      ModShift(x - from, step);
      if from < x < from + step {
        SmallMod(x - from, step);
      }
    }
  }

  lemma {:induction false} FallingMembers(from: int, stop: int, step: int, x: int)
    requires step > 0
    ensures x in Falling(from, stop, step) <==> stop < x <= from && (from - x) % step == 0
    decreases from - stop
  {
    if from > stop {
      FallingMembers(from - step, stop, step, x);
      ModShift(from - x, step);
      if from - step < x < from {
        SmallMod(from - x, step);
      }
    }
  }

  lemma {:induction false} WithinMembers(positions: seq<int>, length: nat, x: int)
    ensures x in Within(positions, length) <==> 1 <= x <= length && (x - 1) in positions
  {
    if positions != [] {
      WithinMembers(positions[1..], length, x);
      assert positions == [positions[0]] + positions[1..];
    }
  }

  /** Strictly ascending, or strictly descending. */
  ghost predicate Ordered(s: seq<int>, up: bool) {
    forall i, j :: 0 <= i < j < |s| ==> if up then s[i] < s[j] else s[i] > s[j]
  }

  lemma {:induction false} RisingOrdered(from: int, stop: int, step: int)
    requires step > 0
    ensures Ordered(Rising(from, stop, step), true)
    decreases stop - from
  {
    if from < stop {
      RisingOrdered(from + step, stop, step);
      var rest := Rising(from + step, stop, step);
      forall i | 0 <= i < |rest| ensures from < rest[i] {
        RisingMembers(from + step, stop, step, rest[i]);
      }
    }
  }

  lemma {:induction false} FallingOrdered(from: int, stop: int, step: int)
    requires step > 0
    ensures Ordered(Falling(from, stop, step), false)
    decreases from - stop
  {
    if from > stop {
      FallingOrdered(from - step, stop, step);
      var rest := Falling(from - step, stop, step);
      forall i | 0 <= i < |rest| ensures from > rest[i] {
        FallingMembers(from - step, stop, step, rest[i]);
      }
    }
  }

  lemma {:induction false} WithinOrdered(positions: seq<int>, length: nat, up: bool)
    requires Ordered(positions, up)
    ensures Ordered(Within(positions, length), up)
  {
    if positions != [] {
      var rest := positions[1..];
      WithinOrdered(rest, length, up);
      var kept := Within(rest, length);
      forall k | 0 <= k < |kept|
        ensures if up then positions[0] + 1 < kept[k] else positions[0] + 1 > kept[k]
      {
        WithinMembers(rest, length, kept[k]);
        var i :| 0 <= i < |rest| && rest[i] == kept[k] - 1;
        assert positions[i + 1] == rest[i];
      }
    }
  }

  lemma TailMembers(s: seq<int>, up: bool)
    requires Ordered(s, up) && s != []
    ensures forall x :: x in s[1..] <==> x in s && x != s[0]
  {
    forall i | 0 <= i < |s[1..]| ensures s[1..][i] != s[0] && s[1..][i] in s {
      assert s[1..][i] == s[i + 1];
    }
    assert s == [s[0]] + s[1..];
  }

  /** Two sequences ordered the same way with the same members are the same. */
  lemma {:induction false} OrderedAreEqual(s: seq<int>, t: seq<int>, up: bool)
    requires Ordered(s, up) && Ordered(t, up)
    requires forall x :: x in s <==> x in t
    ensures s == t
  {
    assert t != [] ==> t[0] in t;
    if s != [] {
      assert s[0] in s && s[0] in t;
      var k :| 0 <= k < |t| && t[k] == s[0];
      assert t[0] in t && t[0] in s;
      var l :| 0 <= l < |s| && s[l] == t[0];
      assert s[0] == t[0];
      TailMembers(s, up);
      TailMembers(t, up);
      OrderedAreEqual(s[1..], t[1..], up);
    }
  }

  // ---------------------------------------------------------------------
  // The scans of the source, and the first occurrences they keep

  predicate Hits(first: int, stop: int, step: int, position: int)
    requires step != 0
  {
    if step > 0 then first <= position < stop && (position - first) % step == 0
    else stop < position <= first && (first - position) % -step == 0
  }

  predicate Selects(spec: Spec, length: nat, position: int)
    requires spec.step != 0
  {
    Hits(First(spec, length), Stop(spec, length), spec.step, position)
  }

  /** The selected positions below `to`, upwards from zero. */
  function ScanUp(spec: Spec, length: nat, to: nat): seq<int>
    requires spec.step != 0
  {
    if to == 0 then []
    else ScanUp(spec, length, to - 1) + if Selects(spec, length, to - 1) then [to] else []
  }

  /** The selected positions from the end of the source down to `from`. */
  function ScanDown(spec: Spec, length: nat, from: nat): seq<int>
    requires spec.step != 0
    decreases length - from
  {
    if from >= length then []
    else ScanDown(spec, length, from + 1) + if Selects(spec, length, from) then [from + 1] else []
  }

  lemma {:induction false} ScanUpMembers(spec: Spec, length: nat, to: nat)
    requires spec.step != 0
    ensures Ordered(ScanUp(spec, length, to), true)
    ensures forall x :: x in ScanUp(spec, length, to) <==> 1 <= x <= to && Selects(spec, length, x - 1)
  {
    if to > 0 {
      ScanUpMembers(spec, length, to - 1);
      var before := ScanUp(spec, length, to - 1);
      forall i | 0 <= i < |before| ensures before[i] < to {
        assert before[i] in before;
      }
    }
  }

  lemma {:induction false} ScanDownMembers(spec: Spec, length: nat, from: nat)
    requires spec.step != 0
    ensures Ordered(ScanDown(spec, length, from), false)
    ensures forall x :: x in ScanDown(spec, length, from) <==> from < x <= length && Selects(spec, length, x - 1)
    decreases length - from
  {
    if from < length {
      ScanDownMembers(spec, length, from + 1);
      var before := ScanDown(spec, length, from + 1);
      forall i | 0 <= i < |before| ensures before[i] > from + 1 {
        assert before[i] in before;
      }
    }
  }

  lemma RisingWithin(first: int, stop: int, step: int, length: nat)
    requires step > 0
    ensures
      var s := Within(Rising(first, stop, step), length);
      Ordered(s, true) && forall x :: x in s <==> 1 <= x <= length && Hits(first, stop, step, x - 1)
  {
    var s := Rising(first, stop, step);
    RisingOrdered(first, stop, step);
    WithinOrdered(s, length, true);
    forall x ensures x in Within(s, length) <==> 1 <= x <= length && Hits(first, stop, step, x - 1) {
      WithinMembers(s, length, x);
      RisingMembers(first, stop, step, x - 1);
    }
  }

  lemma FallingWithin(first: int, stop: int, step: int, length: nat)
    requires step > 0
    ensures
      var s := Within(Falling(first, stop, step), length);
      Ordered(s, false) && forall x :: x in s <==> 1 <= x <= length && Hits(first, stop, -step, x - 1)
  {
    var s := Falling(first, stop, step);
    FallingOrdered(first, stop, step);
    WithinOrdered(s, length, false);
    forall x ensures x in Within(s, length) <==> 1 <= x <= length && Hits(first, stop, -step, x - 1) {
      WithinMembers(s, length, x);
      FallingMembers(first, stop, step, x - 1);
    }
  }

  lemma ProgressionMembers(spec: Spec, length: nat)
    requires spec.step != 0
    ensures Ordered(Progression(spec, length), spec.step > 0)
    ensures forall x :: x in Progression(spec, length) <==> 1 <= x <= length && Selects(spec, length, x - 1)
  {
    var first, stop := First(spec, length), Stop(spec, length);
    if spec.step > 0 {
      RisingWithin(first, stop, spec.step, length);
    } else {
      FallingWithin(first, stop, -spec.step, length);
    }
  }

  /** Testing every position of the source finds the progression, in its order. */
  lemma ScanIsProgression(spec: Spec, length: nat)
    requires spec.step != 0
    ensures spec.step > 0 ==> ScanUp(spec, length, length) == Progression(spec, length)
    ensures spec.step < 0 ==> ScanDown(spec, length, 0) == Progression(spec, length)
  {
    ProgressionMembers(spec, length);
    if spec.step > 0 {
      ScanUpMembers(spec, length, length);
      OrderedAreEqual(ScanUp(spec, length, length), Progression(spec, length), true);
    } else {
      ScanDownMembers(spec, length, 0);
      OrderedAreEqual(ScanDown(spec, length, 0), Progression(spec, length), false);
    }
  }

  lemma {:induction false} DistinctMembers(s: seq<int>)
    ensures forall x :: x in Distinct(s) <==> x in s
    ensures forall i, j :: 0 <= i < j < |Distinct(s)| ==> Distinct(s)[i] != Distinct(s)[j]
  {
    if s != [] {
      DistinctMembers(s[..|s| - 1]);
      assert s == s[..|s| - 1] + [s[|s| - 1]];
    }
  }

  lemma {:induction false} FlattenedMembers(parts: seq<seq<int>>, x: int)
    ensures x in Flattened(parts) <==> exists i :: 0 <= i < |parts| && x in parts[i]
  {
    if parts != [] {
      FlattenedMembers(parts[..|parts| - 1], x);
    }
  }

  lemma ConcatenatedMembers(specs: seq<Spec>, length: nat, x: int)
    requires WellFormed(specs)
    ensures x in Concatenated(specs, length) <==>
            exists i :: 0 <= i < |specs| && x in Progression(specs[i], length)
  {
    var parts := Parts(specs, length);
    FlattenedMembers(parts, x);
    assert forall i :: 0 <= i < |specs| ==> parts[i] == Progression(specs[i], length);
  }

  lemma ConcatenatedGrows(specs: seq<Spec>, n: nat, length: nat)
    requires WellFormed(specs) && n < |specs|
    ensures Concatenated(specs[..n + 1], length) == Concatenated(specs[..n], length) + Progression(specs[n], length)
  {
    var longer, shorter := Parts(specs[..n + 1], length), Parts(specs[..n], length);
    assert longer[..n] == shorter && longer[n] == Progression(specs[n], length);
  }

  /** No index twice, none outside the source, and exactly those that some spec selects. */
  lemma ExpandSelectsExactly(specs: seq<Spec>, length: nat, x: int)
    requires WellFormed(specs)
    ensures x in Expand(specs, length) <==>
            1 <= x <= length && exists i :: 0 <= i < |specs| && Selects(specs[i], length, x - 1)
    ensures forall i, j :: 0 <= i < j < |Expand(specs, length)| ==> Expand(specs, length)[i] != Expand(specs, length)[j]
  {
    DistinctMembers(Concatenated(specs, length));
    ConcatenatedMembers(specs, length, x);
    forall i | 0 <= i < |specs|
      ensures x in Progression(specs[i], length) <==> 1 <= x <= length && Selects(specs[i], length, x - 1)
    {
      ProgressionMembers(specs[i], length);
    }
  }

  lemma DistinctStep(s: seq<int>, more: seq<int>, x: int)
    ensures Distinct(s + (more + [x])) ==
            if x in Distinct(s + more) then Distinct(s + more) else Distinct(s + more) + [x]
  {
    var t := s + (more + [x]);
    assert t[..|t| - 1] == s + more && t[|t| - 1] == x;
  }

  /** The indexes taken so far, and the set of positions they stand for. */
  ghost predicate Taken(result: seq<int>, seen: set<int>, s: seq<int>) {
    result == Distinct(s) && forall x :: x in result <==> x - 1 in seen
  }

  method Take(taken: seq<int>, had: set<int>, index: nat, hit: bool, ghost s: seq<int>, ghost more: seq<int>)
    returns (result: seq<int>, seen: set<int>)
    requires Taken(taken, had, s + more)
    ensures Taken(result, seen, s + (more + if hit then [index + 1] else []))
  {
    result, seen := taken, had;
    DistinctStep(s, more, index + 1);
    assert more + [] == more;
    if hit && index !in had {
      seen := seen + {index};
      result := result + [index + 1];
    }
  }

  /** A context: how many more times a check finds it alive, if it ever ends. */
  datatype Context = Context(left: Option<nat>) {
    predicate Ended() {
      left == Some(0)
    }

    function Checked(): Context {
      if left.Some? && left.value > 0 then Context(Some(left.value - 1)) else this
    }
  }

  /**
   expandPlaylistItemSpecs: scan the whole source once per spec, skipping what was
   already taken. The context is checked before each spec and every 256 positions.
   */
  method ExpandSpecs(specs: seq<Spec>, length: nat, context: Context)
    returns (result: Option<seq<int>>, after: Context)
    requires WellFormed(specs)
    ensures result.Some? ==> result.value == Expand(specs, length)
    ensures result.None? ==> after.Ended()
    ensures context.left.None? ==> after == context
  {
    var seen: set<int> := {};
    var indexes: seq<int> := [];
    after := context;
    for n := 0 to |specs|
      invariant Taken(indexes, seen, Concatenated(specs[..n], length))
      invariant context.left.None? ==> after == context
    {
      if after.Ended() {
        return None, after;
      }
      after := after.Checked();
      var scanned: bool;
      scanned, indexes, seen, after := Scan(specs[n], length, after, indexes, seen, Concatenated(specs[..n], length));
      if !scanned {
        return None, after;
      }
      ConcatenatedGrows(specs, n, length);
    }
    assert specs[..|specs|] == specs;
    return Some(indexes), after;
  }

  /** One spec's pass over the source, in the direction of its step. */
  method Scan(spec: Spec, length: nat, context: Context, taken: seq<int>, had: set<int>, ghost done: seq<int>)
    returns (scanned: bool, result: seq<int>, seen: set<int>, after: Context)
    requires spec.step != 0 && Taken(taken, had, done)
    ensures scanned ==> Taken(result, seen, done + Progression(spec, length))
    ensures !scanned ==> after.Ended()
    ensures context.left.None? ==> after == context
  {
    result, seen, after := taken, had, context;
    var first, stop := First(spec, length), Stop(spec, length);
    assert done + [] == done;
    if spec.step > 0 {
      for index := 0 to length
        invariant Taken(result, seen, done + ScanUp(spec, length, index))
        invariant context.left.None? ==> after == context
      {
        if index % 256 == 0 {
          if after.Ended() {
            return false, result, seen, after;
          }
          after := after.Checked();
        }
        var hit := Hits(first, stop, spec.step, index);
        result, seen := Take(result, seen, index, hit, done, ScanUp(spec, length, index));
      }
    } else {
      for index := length downto 0
        invariant Taken(result, seen, done + ScanDown(spec, length, index))
        invariant context.left.None? ==> after == context
      {
        if index % 256 == 0 {
          if after.Ended() {
            return false, result, seen, after;
          }
          after := after.Checked();
        }
        var hit := Hits(first, stop, spec.step, index);
        result, seen := Take(result, seen, index, hit, done, ScanDown(spec, length, index + 1));
      }
    }
    ScanIsProgression(spec, length);
    scanned := true;
  }
}
