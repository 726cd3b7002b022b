/**
 The reference-counted workspace locks. Acquiring is two steps, taking a share of
 the entry and locking its mutex, and releasing is two more, unlocking and giving
 the share back; any other caller may act between them.
 */
module LockTable {
  import opened Common

  type Workspace = string

  /** One lock entry, known by its index in order of creation. */
  datatype Entry = Entry(workspace: Workspace, users: int, locked: bool)

  datatype Table = Table(entries: seq<Entry>, index: map<Workspace, nat>)

  /** acquireNTrackWorkspace, under the table's mutex: the entry to lock. */
  function Share(t: Table, w: Workspace): (Table, nat) {
    if w in t.index && t.index[w] < |t.entries| then
      var e := t.index[w];
      (t.(entries := t.entries[e := t.entries[e].(users := t.entries[e].users + 1)]), e)
    else (Table(t.entries + [Entry(w, 1, false)], t.index[w := |t.entries|]), |t.entries|)
  }

  /** The release closure, under the table's mutex. */
  function GiveBack(t: Table, e: nat): Table
    requires e < |t.entries|
  {
    var it := t.entries[e].(users := t.entries[e].users - 1);
    Table(t.entries[e := it], if it.users == 0 then t.index - {it.workspace} else t.index)
  }

  function SetLocked(t: Table, e: nat, locked: bool): Table
    requires e < |t.entries|
  {
    t.(entries := t.entries[e := t.entries[e].(locked := locked)])
  }

  // ---------------------------------------------------------------------
  // All callers together

  /** Queued for the entry's mutex, holding it, or past the unlock with the share still out. */
  datatype Stage = Queued | Holding | Releasing

  /** `share` names the entry a caller has a share of. */
  datatype System = System(table: Table, share: map<nat, Option<nat>>, stage: map<nat, Stage>)

  datatype Event =
    | Request(caller: nat, workspace: Workspace)
    | Lock(caller: nat)
    | Unlock(caller: nat)
    | Release(caller: nat)

  predicate In(y: System, c: nat, stage: Stage) {
    && c in y.share
    && c in y.stage
    && y.share[c].Some?
    && y.share[c].value < |y.table.entries|
    && y.stage[c] == stage
  }

  function Step(y: System, e: Event): System {
    var c := e.caller;
    match e
    case Request(_, w) =>
      if c in y.share then y
      else
        var (t, entry) := Share(y.table, w);
        System(t, y.share[c := Some(entry)], y.stage[c := Queued])
    case Lock(_) =>
      if In(y, c, Queued) && !y.table.entries[y.share[c].value].locked
      then y.(table := SetLocked(y.table, y.share[c].value, true), stage := y.stage[c := Holding]) else y
    case Unlock(_) =>
      if In(y, c, Holding)
      then y.(table := SetLocked(y.table, y.share[c].value, false), stage := y.stage[c := Releasing]) else y
    case Release(_) =>
      if In(y, c, Releasing)
      then y.(table := GiveBack(y.table, y.share[c].value), share := y.share[c := None]) else y
  }

  function Run(es: seq<Event>): System {
    if es == [] then System(Table([], map[]), map[], map[]) else Step(Run(es[..|es| - 1]), es[|es| - 1])
  }

  function Users(y: System, e: nat): set<nat> {
    Holders(y.share, Some(e))
  }

  /** The index holds exactly the entries in use. */
  ghost predicate IndexOk(t: Table) {
    && (forall w :: w in t.index ==>
          t.index[w] < |t.entries| && t.entries[t.index[w]].workspace == w && t.entries[t.index[w]].users > 0)
    && (forall e :: 0 <= e < |t.entries| && t.entries[e].users > 0 ==>
          t.entries[e].workspace in t.index && t.index[t.entries[e].workspace] == e)
  }

  ghost predicate SharesOk(y: System) {
    forall c :: c in y.share ==> c in y.stage && (y.share[c].Some? ==> y.share[c].value < |y.table.entries|)
  }

  ghost predicate CountsOk(y: System) {
    forall e :: 0 <= e < |y.table.entries| ==> y.table.entries[e].users == |Users(y, e)|
  }

  /** The caller holds the mutex of this entry. */
  predicate Holds(y: System, c: nat, e: nat) {
    c in y.share && c in y.stage && y.share[c] == Some(e) && y.stage[c] == Holding
  }

  ghost predicate ExclusiveOk(y: System) {
    && (forall c: nat, e: nat :: Holds(y, c, e) && e < |y.table.entries| ==> y.table.entries[e].locked)
    && (forall c: nat, d: nat, e: nat :: Holds(y, c, e) && Holds(y, d, e) ==> c == d)
  }

  ghost predicate Inv(y: System) {
    IndexOk(y.table) && SharesOk(y) && CountsOk(y) && ExclusiveOk(y)
  }

  lemma ShareKeeps(t: Table, w: Workspace)
    requires IndexOk(t)
    ensures IndexOk(Share(t, w).0)
  {
  }

  lemma GiveBackKeeps(t: Table, e: nat)
    requires IndexOk(t) && e < |t.entries| && t.entries[e].users > 0
    ensures IndexOk(GiveBack(t, e))
  {
  }

  lemma RequestCounts(y: System, e: Event)
    requires IndexOk(y.table) && SharesOk(y) && CountsOk(y) && e.Request? && e.caller !in y.share
    ensures CountsOk(Step(y, e))
  {
    var (t, entry) := Share(y.table, e.workspace);
    forall k | 0 <= k < |t.entries| ensures t.entries[k].users == |Users(Step(y, e), k)| {
      HoldersAfterMove(y.share, e.caller, Some(entry), Some(k));
      if k == |y.table.entries| {
        assert Users(y, k) == {};
      }
    }
  }

  lemma RequestExcludes(y: System, e: Event)
    requires IndexOk(y.table) && SharesOk(y) && ExclusiveOk(y) && e.Request? && e.caller !in y.share
    ensures SharesOk(Step(y, e)) && ExclusiveOk(Step(y, e))
  {
    var next := Step(y, e);
    forall c: nat, k: nat | Holds(next, c, k) ensures Holds(y, c, k) && k < |y.table.entries| {
    }
  }

  lemma LockExcludes(y: System, e: Event)
    requires SharesOk(y) && ExclusiveOk(y) && (e.Lock? || e.Unlock?)
    ensures SharesOk(Step(y, e)) && ExclusiveOk(Step(y, e))
  {
    var next := Step(y, e);
    var mine := if e.caller in y.share && y.share[e.caller].Some? then y.share[e.caller].value else 0;
    assert In(y, e.caller, Holding) ==> Holds(y, e.caller, mine);
    forall c: nat, k: nat | c != e.caller && Holds(next, c, k)
      ensures Holds(y, c, k) && k < |y.table.entries| && (next != y ==> k != mine)
    {
      assert Holds(y, c, k);
    }
  }

  lemma LockCounts(y: System, e: Event)
    requires IndexOk(y.table) && CountsOk(y) && (e.Lock? || e.Unlock?)
    ensures IndexOk(Step(y, e).table) && CountsOk(Step(y, e))
  {
    assert Step(y, e).share == y.share;
  }

  lemma ReleaseCounts(y: System, e: Event)
    requires CountsOk(y) && e.Release? && In(y, e.caller, Releasing)
    ensures CountsOk(Step(y, e)) && y.table.entries[y.share[e.caller].value].users > 0
  {
    var next := Step(y, e);
    assert e.caller in Users(y, y.share[e.caller].value);
    forall k | 0 <= k < |next.table.entries| ensures next.table.entries[k].users == |Users(next, k)| {
      HoldersAfterMove(y.share, e.caller, None, Some(k));
    }
  }

  lemma ReleaseExcludes(y: System, e: Event)
    requires SharesOk(y) && ExclusiveOk(y) && e.Release? && In(y, e.caller, Releasing)
    ensures SharesOk(Step(y, e)) && ExclusiveOk(Step(y, e))
  {
    var next := Step(y, e);
    forall c: nat, k: nat | Holds(next, c, k) ensures Holds(y, c, k) && k < |y.table.entries| {
    }
  }

  lemma StepKeeps(y: System, e: Event)
    requires Inv(y)
    ensures Inv(Step(y, e))
  {
    match e
    case Request(c, w) =>
      if c !in y.share {
        ShareKeeps(y.table, w);
        RequestCounts(y, e);
        RequestExcludes(y, e);
      }
    case Release(c) =>
      if In(y, c, Releasing) {
        ReleaseCounts(y, e);
        ReleaseExcludes(y, e);
        GiveBackKeeps(y.table, y.share[c].value);
      }
    case _ =>
      LockCounts(y, e);
      LockExcludes(y, e);
  }

  lemma {:induction false} AlwaysInv(es: seq<Event>)
    ensures Inv(Run(es))
  {
    if es != [] {
      AlwaysInv(es[..|es| - 1]);
      StepKeeps(Run(es[..|es| - 1]), es[|es| - 1]);
    }
  }

  /** The caller has a share of a lock for the workspace: it waits for it, holds it or is letting go. */
  predicate Uses(y: System, c: nat, w: Workspace) {
    && c in y.share
    && y.share[c].Some?
    && y.share[c].value < |y.table.entries|
    && y.table.entries[y.share[c].value].workspace == w
  }

  /** Two holders of one workspace never overlap, whichever entries they locked. */
  lemma MutualExclusion(es: seq<Event>, c: nat, d: nat, w: Workspace)
    requires
      var y := Run(es);
      In(y, c, Holding) && In(y, d, Holding) && Uses(y, c, w) && Uses(y, d, w)
    ensures c == d
  {
    AlwaysInv(es);
    UsersShareOneEntry(es, c, d, w);
    var y := Run(es);
    assert Holds(y, c, y.share[c].value) && Holds(y, d, y.share[c].value);
  }

  lemma UsersShareOneEntry(es: seq<Event>, c: nat, d: nat, w: Workspace)
    requires Uses(Run(es), c, w) && Uses(Run(es), d, w)
    ensures Run(es).share[c] == Run(es).share[d]
  {
    AlwaysInv(es);
    var y := Run(es);
    assert c in Users(y, y.share[c].value) && d in Users(y, y.share[d].value);
  }

  /** An entry is in the table exactly while some caller uses it, and counts exactly those callers. */
  lemma EntryExactlyWhileUsed(es: seq<Event>, w: Workspace)
    ensures
      var y := Run(es);
      && (w in y.table.index <==> exists c :: Uses(y, c, w))
      && (w in y.table.index ==>
            && y.table.index[w] < |y.table.entries|
            && y.table.entries[y.table.index[w]].users == |Users(y, y.table.index[w])|
            && (forall c :: c in Users(y, y.table.index[w]) <==> Uses(y, c, w)))
  {
    AlwaysInv(es);
    var y := Run(es);
    forall c | Uses(y, c, w) ensures w in y.table.index && c in Users(y, y.table.index[w]) {
      assert c in Users(y, y.share[c].value);
    }
    if w in y.table.index {
      var users := Users(y, y.table.index[w]);
      assert |users| > 0;
      var c :| c in users;
      assert Uses(y, c, w);
    }
  }

  // ---------------------------------------------------------------------
  // The table the engine keeps

  class WorkspaceLocks {
    var entries: seq<Entry>
    var index: map<Workspace, nat>

    ghost function Value(): Table
      reads this
    {
      Table(entries, index)
    }

    ghost predicate Valid()
      reads this
    {
      IndexOk(Value())
    }

    constructor ()
      ensures Valid() && Value() == Table([], map[])
    {
      entries, index := [], map[];
    }

    method Acquire(w: Workspace) returns (entry: nat)
      requires Valid()
      modifies this
      ensures Valid() && (Value(), entry) == Share(old(Value()), w)
    {
      if w !in index {
        entry := |entries|;
        entries := entries + [Entry(w, 0, false)];
        index := index[w := entry];
      } else {
        entry := index[w];
      }
      entries := entries[entry := entries[entry].(users := entries[entry].users + 1)];
      assert w !in old(index) ==> entries == old(entries) + [Entry(w, 1, false)];
    }

    method Release(entry: nat)
      requires Valid() && entry < |entries| && entries[entry].users > 0
      modifies this
      ensures Valid() && Value() == GiveBack(old(Value()), entry)
    {
      entries := entries[entry := entries[entry].(users := entries[entry].users - 1)];
      if entries[entry].users == 0 {
        index := index - {entries[entry].workspace};
      }
    }
  }
}
