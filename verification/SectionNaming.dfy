/** Collision-free destinations for the sections of one output. */
module SectionNaming {
  import opened Common

  // ---------------------------------------------------------------------
  // Decimal numbers and candidate names

  function Digit(d: nat): char
    requires d < 10
  {
    "0123456789"[d]
  }

  function Decimal(n: nat): string {
    if n < 10 then [Digit(n)] else Decimal(n / 10) + [Digit(n % 10)]
  }

  lemma {:induction false} DecimalIsInjective(m: nat, n: nat)
    requires Decimal(m) == Decimal(n)
    ensures m == n
    decreases m
  {
    var s, t := Decimal(m), Decimal(n);
    assert s[|s| - 1] == Digit(m % 10) && t[|t| - 1] == Digit(n % 10);
    DecimalIsLong(m);
    DecimalIsLong(n);
    if m >= 10 {
      assert s[..|s| - 1] == Decimal(m / 10) && t[..|t| - 1] == Decimal(n / 10);
      DecimalIsInjective(m / 10, n / 10);
    }
  }

  lemma DecimalIsLong(n: nat)
    ensures |Decimal(n)| >= 2 <==> n >= 10
    ensures |Decimal(n)| >= 1
  {
  }

  /** The length of the extension: from the last dot of the last path element to the end. */
  function ExtensionLength(path: string, k: nat): (r: nat)
    requires k <= |path|
    ensures r <= |path|
    decreases |path| - k
  {
    if k == |path| then 0
    else
      var c := path[|path| - 1 - k];
      if c == '/' then 0 else if c == '.' then k + 1 else ExtensionLength(path, k + 1)
  }

  function Stem(path: string): string {
    path[..|path| - ExtensionLength(path, 0)]
  }

  function Extension(path: string): string {
    path[|path| - ExtensionLength(path, 0)..]
  }

  /** The mechanically suffixed name: stem, dot, number, extension. */
  function Candidate(base: string, number: nat): string {
    Stem(base) + "." + Decimal(number) + Extension(base)
  }

  lemma CandidatesDiffer(base: string, m: nat, n: nat)
    requires Candidate(base, m) == Candidate(base, n)
    ensures m == n
  {
    var s, x := Candidate(base, m), |Stem(base)| + 1;
    var end := |s| - |Extension(base)|;
    assert s[x..end] == Decimal(m) && s[x..end] == Decimal(n);
    DecimalIsInjective(m, n);
  }

  // ---------------------------------------------------------------------
  // The search

  /** The names in the way of the search from a number on. */
  ghost function Blocking(base: string, number: nat, used: set<string>): set<string> {
    set u | u in used && exists k: nat :: k >= number && u == Candidate(base, k)
  }

  lemma BlockingShrinks(base: string, number: nat, used: set<string>)
    requires Candidate(base, number) in used
    ensures Candidate(base, number) in Blocking(base, number, used)
    ensures Blocking(base, number + 1, used) == Blocking(base, number, used) - {Candidate(base, number)}
  {
    var c, next := Candidate(base, number), Blocking(base, number + 1, used);
    if c in next {
      var k: nat :| k >= number + 1 && c == Candidate(base, k);
      CandidatesDiffer(base, number, k);
    }
    forall u | u in Blocking(base, number, used) && u != c ensures u in next {
      var k: nat :| k >= number && u == Candidate(base, k);
      assert k >= number + 1;
    }
  }

  /** The first free candidate, found after at most as many tries as there are used names. */
  ghost predicate FirstFree(base: string, number: nat, used: set<string>, destination: string) {
    exists k: nat :: number <= k <= number + |used|
      && destination == Candidate(base, k)
      && destination !in used
      && (forall j :: number <= j < k ==> Candidate(base, j) in used)
  }

  method RenderDestination(base: string, number: nat, used: set<string>)
    returns (destination: string, taken: set<string>)
    ensures destination !in used && taken == used + {destination}
    ensures base !in used ==> destination == base
    ensures base in used ==> FirstFree(base, number, used, destination)
  {
    if base !in used {
      return base, used + {base};
    }
    var n := number;
    destination := Candidate(base, n);
    ghost var all := Blocking(base, number, used);
    SubsetIsSmaller(all, used);
    while destination in used
      invariant number <= n && destination == Candidate(base, n)
      invariant forall j :: number <= j < n ==> Candidate(base, j) in used
      invariant n - number + |Blocking(base, n, used)| == |all|
      decreases |Blocking(base, n, used)|
    {
      BlockingShrinks(base, n, used);
      n := n + 1;
      destination := Candidate(base, n);
    }
    taken := used + {destination};
  }

  lemma {:induction false} SubsetIsSmaller(a: set<string>, b: set<string>)
    requires a <= b
    ensures |a| <= |b|
  {
    if a != {} {
      var x :| x in a;
      SubsetIsSmaller(a - {x}, b - {x});
    }
  }

  /** A section to be named: the path its template renders to, unless rendering fails, and its number. */
  datatype Section = Section(base: Option<string>, number: nat)

  ghost predicate AllDifferent(names: seq<string>) {
    forall i, j :: 0 <= i < j < |names| ==> names[i] != names[j]
  }

  function Members(names: seq<string>): set<string> {
    set x | x in names
  }

  /** The rendered path, or its first free candidate when an earlier section has it. */
  ghost predicate IsNameOf(section: Section, earlier: seq<string>, name: string) {
    && section.base.Some?
    && if section.base.value !in earlier then name == section.base.value
       else FirstFree(section.base.value, section.number, Members(earlier), name)
  }

  /** One destination per section, pairwise different; a rendering error is the only way to fail. */
  method BuildDestinations(sections: seq<Section>) returns (r: Option<seq<string>>)
    ensures r.None? <==> exists i :: 0 <= i < |sections| && sections[i].base.None?
    ensures r.Some? ==> |r.value| == |sections| && AllDifferent(r.value)
    ensures r.Some? ==> forall i :: 0 <= i < |sections| ==> IsNameOf(sections[i], r.value[..i], r.value[i])
  {
    var names: seq<string> := [];
    var used: set<string> := {};
    for n := 0 to |sections|
      invariant |names| == n && used == Members(names)
      invariant AllDifferent(names)
      invariant forall i :: 0 <= i < n ==> IsNameOf(sections[i], names[..i], names[i])
    {
      if sections[n].base.None? {
        return None;
      }
      var destination, taken := RenderDestination(sections[n].base.value, sections[n].number, used);
      ghost var before := names;
      names := names + [destination];
      used := taken;
      assert forall i :: 0 <= i <= n ==> names[..i] == before[..i];
      assert before[..n] == before;
    }
    return Some(names);
  }
}
