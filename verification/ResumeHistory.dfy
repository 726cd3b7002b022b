/** What a track may resume from, over whole histories of commits, resumes and changing identities. */
module ResumeHistory {
  import opened Common
  import opened SessionManifest
  import opened ResumeIdentity

  /**
   What happens to a session's components: a committed checkpoint, a reconciliation
   of one track of which only the first writes may succeed, or any other mutation.
   */
  datatype Op =
    | CommitBoundary(track: Track, boundary: Boundary)
    | Reconcile(track: Track, writes: nat)
    | Mutate(mutation: Mutation)

  /** Component progress changes only through the first two. */
  predicate Allowed(op: Op) {
    op.Mutate? ==> !op.mutation.SetCheckpoint? && !op.mutation.ResetComponent?
  }

  function Step(m: Manifest, op: Op): Manifest {
    match op
    case CommitBoundary(t, b) => (match Commit(m, t, b) case Ok(n) => n case Err(_) => m)
    case Reconcile(t, writes) => ReconcileTrack(m, t, writes)
    case Mutate(u) => Try(m, u)
  }

  function Run(m: Manifest, ops: seq<Op>): Manifest {
    if ops == [] then m else Step(Run(m, ops[..|ops| - 1]), ops[|ops| - 1])
  }

  /** The last boundary committed for a track's component that no reconciliation has taken away since. */
  function LastCommit(m: Manifest, ops: seq<Op>, id: string): Option<(Track, Boundary)> {
    if ops == [] then None
    else
      var before := ops[..|ops| - 1];
      After(Run(m, before), ops[|ops| - 1], id, LastCommit(m, before, id))
  }

  function After(m: Manifest, op: Op, id: string, last: Option<(Track, Boundary)>): Option<(Track, Boundary)> {
    if op.CommitBoundary? && op.track.id == id && CanCommit(m, op.track, op.boundary)
    then Some((op.track, op.boundary))
    else if op.Reconcile? && op.track.id == id && op.writes > 0 && TakesAway(m, op.track) then None
    else last
  }

  /** What a commit must meet: its track's component, no progress lost, and an image that may be persisted. */
  predicate CanCommit(m: Manifest, t: Track, b: Boundary) {
    match FindComponent(m, t.id)
    case None => false
    case Some(c) =>
      && b.identity == t.identity
      && c.checkpoint.relativePath == t.checkpoint
      && c.observed <= b.committed
      && 0 <= b.total <= MaxBytes
      && (c.checkpoint.sequence > 0 ==> t.identitySum != "")
      && (t.checkpoint == "" ==>
            t.identitySum == "" && b.etag == "" && b.lastModified == "" && b.total == 0 && b.committed == 0)
  }

  /** What a reconciliation resets: a component under another digest, where that is still allowed. */
  predicate TakesAway(m: Manifest, t: Track) {
    match FindComponent(m, t.id)
    case None => false
    case Some(c) =>
      && c.checkpoint.digest != t.identitySum
      && (Blank(c)
          || (m.phase == PhaseDownloading && m.staged.None? && m.publication == PublicationNotStarted))
  }

  lemma FoundIsValid(m: Manifest, id: string)
    requires Valid(m) && FindComponent(m, id).Some?
    ensures
      var c := FindComponent(m, id).value;
      && 0 <= c.committed <= c.observed
      && ValidCheckpoint(c.checkpoint)
      && (c.committed > 0 ==> c.checkpoint.relativePath != "")
  {
  }

  /** An update of one component is persisted exactly if the new component is valid. */
  lemma UpdateIsValid(m: Manifest, k: nat, c: Component)
    requires Valid(m) && k < |m.components| && c.id == m.components[k].id
    ensures
      Valid(m.(components := m.components[k := c], revision := m.revision + 1)) <==>
      && 0 <= c.committed <= c.observed
      && ValidCheckpoint(c.checkpoint)
      && (c.committed > 0 ==> c.checkpoint.relativePath != "")
  {
    var cs := m.components[k := c];
    assert cs[k] == c && forall i :: 0 <= i < |cs| && i != k ==> cs[i] == m.components[i];
    assert forall i :: 0 <= i < |cs| ==> cs[i].id == m.components[i].id;
  }

  /** The guard is exact: a commit succeeds if and only if it is met. */
  lemma CommitsExactly(m: Manifest, t: Track, b: Boundary)
    requires Valid(m)
    ensures Commit(m, t, b).Ok? <==> CanCommit(m, t, b)
  {
    if FindComponent(m, t.id).Some? {
      var k := IndexOf(m.components, t.id);
      var c := m.components[k];
      FoundIsValid(m, t.id);
      var metadata := c.checkpoint.(digest := t.identitySum, etag := b.etag, lastModified := b.lastModified,
                                    total := b.total);
      UpdateIsValid(m, k, Component(t.id, b.committed, b.committed, metadata));
    }
  }

  lemma ResetSucceeds(m: Manifest, id: string)
    requires Valid(m) && FindComponent(m, id).Some?
    ensures Apply(m, ResetComponent(id)).Some?
  {
    var k := IndexOf(m.components, id);
    FoundIsValid(m, id);
    UpdateIsValid(m, k, Component(id, 0, 0, Checkpoint(m.components[k].checkpoint.relativePath, "", "", 0, "", "", 0)));
  }

  /** The component holds exactly the last commit, or no progress. */
  predicate Holds(m: Manifest, id: string, last: Option<(Track, Boundary)>) {
    match FindComponent(m, id)
    case None => last.None?
    case Some(c) =>
      match last
      case None => c.committed == 0
      case Some((u, b)) =>
        && u.id == id
        && b.identity == u.identity
        && c.committed == b.committed
        && c.checkpoint.digest == u.identitySum
        && c.checkpoint.relativePath == u.checkpoint
        && c.checkpoint.etag == b.etag
        && c.checkpoint.lastModified == b.lastModified
        && c.checkpoint.total == b.total
  }

  lemma OtherMutationsKeep(m: Manifest, u: Mutation, id: string)
    requires !u.SetCheckpoint? && !u.ResetComponent? && Apply(m, u).Some?
    ensures
      var n := Apply(m, u).value;
      && (FindComponent(m, id).Some? <==> FindComponent(n, id).Some?)
      && (FindComponent(m, id).Some? ==>
            && FindComponent(n, id).value.committed == FindComponent(m, id).value.committed
            && FindComponent(n, id).value.checkpoint == FindComponent(m, id).value.checkpoint)
  {
    var n := Apply(m, u).value;
    if u.Resume? {
      assert n.components == AtCommitted(m.components);
      assert forall j :: 0 <= j < |m.components| ==> n.components[j].id == m.components[j].id;
      assert IndexOf(n.components, id) == IndexOf(m.components, id);
    } else {
      assert n.components == m.components;
    }
  }

  lemma CommitHolds(m: Manifest, t: Track, b: Boundary, id: string, last: Option<(Track, Boundary)>)
    requires Valid(m) && Holds(m, id, last)
    ensures Holds(Step(m, CommitBoundary(t, b)), id, After(m, CommitBoundary(t, b), id, last))
  {
    CommitsExactly(m, t, b);
    if Commit(m, t, b).Ok? {
      var c := FindComponent(m, t.id).value;
      var metadata := c.checkpoint.(digest := t.identitySum, etag := b.etag,
                                    lastModified := b.lastModified, total := b.total);
      var u := SetCheckpoint(t.id, b.committed, b.committed, metadata);
      SettingFinds(m, u);
      if id != t.id {
        SettingKeepsOthers(m, u, id);
      }
    }
  }

  lemma TryKeepsOthers(m: Manifest, u: Mutation, id: string)
    requires (u.SetCheckpoint? || u.ResetComponent?) && id != u.id
    ensures FindComponent(Try(m, u), id) == FindComponent(m, id)
  {
    if Apply(m, u).Some? {
      SettingKeepsOthers(m, u, id);
    }
  }

  lemma ReconcileKeepsOthers(m: Manifest, t: Track, writes: nat, id: string)
    requires id != t.id
    ensures FindComponent(ReconcileTrack(m, t, writes), id) == FindComponent(m, id)
  {
    var found := FindComponent(m, t.id);
    if found.Some? {
      var c := found.value;
      var reset := Try(m, ResetComponent(t.id));
      TryKeepsOthers(m, SetCheckpoint(t.id, 0, 0, c.checkpoint.(digest := t.identitySum)), id);
      TryKeepsOthers(m, ResetComponent(t.id), id);
      var adopted := Checkpoint(c.checkpoint.relativePath, t.identitySum, "", 0, "", "", 0);
      TryKeepsOthers(reset, SetCheckpoint(t.id, 0, 0, adopted), id);
    }
  }

  lemma ResetLeavesNothing(m: Manifest, t: Track, writes: nat)
    requires Valid(m) && FindComponent(m, t.id).Some? && writes > 0
    ensures
      var found := FindComponent(ResetOnly(m, t, writes), t.id);
      found.Some? && found.value.committed == 0
  {
    var path := FindComponent(m, t.id).value.checkpoint.relativePath;
    var reset, adopt := Try(m, ResetComponent(t.id)),
                       SetCheckpoint(t.id, 0, 0, Checkpoint(path, t.identitySum, "", 0, "", "", 0));
    ResetSucceeds(m, t.id);
    SettingFinds(m, ResetComponent(t.id));
    if Apply(reset, adopt).Some? {
      SettingFinds(reset, adopt);
    }
  }

  /** A reconciliation takes the progress away exactly under its guard, and otherwise leaves the component. */
  lemma ReconcileOwn(m: Manifest, t: Track, writes: nat)
    requires Valid(m)
    ensures
      var was, now := FindComponent(m, t.id), FindComponent(ReconcileTrack(m, t, writes), t.id);
      if writes > 0 && TakesAway(m, t) then now.Some? && now.value.committed == 0 else now == was
  {
    var found := FindComponent(m, t.id);
    if found.Some? && writes > 0 && TakesAway(m, t) {
      var u := SetCheckpoint(t.id, 0, 0, found.value.checkpoint.(digest := t.identitySum));
      if Blank(found.value) {
        if Apply(m, u).Some? {
          SettingFinds(m, u);
        }
      } else {
        ResetLeavesNothing(m, t, writes);
      }
    }
  }

  lemma StepHolds(m: Manifest, op: Op, id: string, last: Option<(Track, Boundary)>)
    requires Valid(m) && Allowed(op) && Holds(m, id, last)
    ensures Holds(Step(m, op), id, After(m, op, id, last))
  {
    match op {
      case CommitBoundary(t, b) => CommitHolds(m, t, b, id, last); return;
      case Reconcile(t, writes) =>
        if t.id == id {
          ReconcileOwn(m, t, writes);
        } else {
          ReconcileKeepsOthers(m, t, writes, id);
        }
        return;
      case Mutate(u) =>
        if Apply(m, u).Some? {
          OtherMutationsKeep(m, u, id);
        }
        return;
    }
  }

  /** A session that has not downloaded anything yet. */
  ghost predicate Fresh(m: Manifest) {
    forall i :: 0 <= i < |m.components| ==> m.components[i].committed == 0
  }

  ghost predicate AllAllowed(ops: seq<Op>) {
    forall op :: op in ops ==> Allowed(op)
  }

  lemma {:induction false} AlwaysHolds(m: Manifest, ops: seq<Op>, id: string)
    requires Valid(m) && Fresh(m) && AllAllowed(ops)
    ensures Holds(Run(m, ops), id, LastCommit(m, ops, id))
  {
    if ops != [] {
      var before := ops[..|ops| - 1];
      AlwaysHolds(m, before, id);
      AlwaysValid(m, before);
      StepHolds(Run(m, before), ops[|ops| - 1], id, LastCommit(m, before, id));
    }
  }

  lemma {:induction false} AlwaysValid(m: Manifest, ops: seq<Op>)
    requires Valid(m)
    ensures Valid(Run(m, ops))
  {
    if ops != [] {
      AlwaysValid(m, ops[..|ops| - 1]);
    }
  }

  /** Digests of different identities differ. */
  ghost predicate Injective(ops: seq<Op>, t: Track) {
    forall op :: op in ops && op.CommitBoundary? && op.track.identitySum == t.identitySum ==>
      op.track.identity == t.identity
  }

  lemma {:induction false} LastIsCommitted(m: Manifest, ops: seq<Op>, id: string)
    requires LastCommit(m, ops, id).Some?
    ensures var (u, b) := LastCommit(m, ops, id).value; CommitBoundary(u, b) in ops
  {
    var before, op := ops[..|ops| - 1], ops[|ops| - 1];
    assert op in ops;
    if !(op.CommitBoundary? && op.track.id == id && CanCommit(Run(m, before), op.track, op.boundary)) {
      LastIsCommitted(m, before, id);
    }
  }

  /** The last commit of the track's component can be resumed by this track. */
  predicate Resumable(last: Option<(Track, Boundary)>, t: Track) {
    last.Some? &&
    var (u, b) := last.value;
    && u.identitySum == t.identitySum
    && u.checkpoint == t.checkpoint
    && 0 < b.committed < b.total
    && StrongETag(b.etag)
  }

  /**
   Over every history of commits, resumes, reconciliations and other mutations under
   changing identities: a boundary is offered to a track if and only if the last
   commit still standing was made under the same identity and is a strict part with
   a strong validator, and what is offered is then exactly that commit.
   */
  lemma OfferIsTheLastCommit(m: Manifest, ops: seq<Op>, t: Track)
    requires Valid(m) && Fresh(m) && AllAllowed(ops) && Injective(ops, t)
    ensures
      var offer, last := TrackCheckpoint(Run(m, ops), t), LastCommit(m, ops, t.id);
      && (offer.Ok? && offer.value.0.Some? <==> Resumable(last, t))
      && (Resumable(last, t) ==> offer == Ok((Some(last.value.1), false)))
  {
    var n := Run(m, ops);
    AlwaysValid(m, ops);
    AlwaysHolds(m, ops, t.id);
    OfferedExactly(n, t);
    if LastCommit(m, ops, t.id).Some? {
      LastIsCommitted(m, ops, t.id);
    }
  }
}
