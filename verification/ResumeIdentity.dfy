/** Which durable progress of a track may be resumed: identities, checkpoints and strong validators. */
module ResumeIdentity {
  import opened Common
  import opened SessionManifest

  datatype Track = Track(id: string, identity: string, identitySum: string, checkpoint: string)

  /** The boundary a download resumes from. */
  datatype Boundary = Boundary(identity: string, etag: string, lastModified: string, total: int, committed: int)

  datatype Error = IdentityMismatch | WriteFailed

  predicate DistinctTracks(tracks: seq<Track>) {
    forall i, j :: 0 <= i < j < |tracks| ==> tracks[i].id != tracks[j].id
  }

  function FindComponent(m: Manifest, id: string): Option<Component> {
    var i := IndexOf(m.components, id);
    if i < |m.components| then Some(m.components[i]) else None
  }

  // ---------------------------------------------------------------------
  // Entity tags

  predicate IsSpace(c: char) {
    || '\t' <= c <= '\r' || c == ' ' || c == '\U{85}' || c == '\U{A0}' || c == '\U{1680}'
    || '\U{2000}' <= c <= '\U{200A}' || c == '\U{2028}' || c == '\U{2029}' || c == '\U{202F}'
    || c == '\U{205F}' || c == '\U{3000}'
  }

  function TrimLeft(s: string): string {
    if s != [] && IsSpace(s[0]) then TrimLeft(s[1..]) else s
  }

  function TrimRight(s: string): string {
    if s != [] && IsSpace(s[|s| - 1]) then TrimRight(s[..|s| - 1]) else s
  }

  predicate StrongETag(value: string) {
    var v := TrimRight(TrimLeft(value));
    v != "" && !(|v| >= 2 && (v[0] == 'w' || v[0] == 'W') && v[1] == '/')
  }

  lemma {:induction false} TrimRightKeepsStart(s: string, k: nat)
    requires k <= |s| && (k > 0 ==> !IsSpace(s[k - 1]))
    ensures k <= |TrimRight(s)| && TrimRight(s)[..k] == s[..k]
  {
    if s != [] && IsSpace(s[|s| - 1]) {
      TrimRightKeepsStart(s[..|s| - 1], k);
    }
  }

  /** A weak validator of RFC 9110 section 8.8.3, however it is padded, is never strong. */
  lemma WeakIsNeverStrong(padding: string, quoted: string)
    requires forall i :: 0 <= i < |padding| ==> IsSpace(padding[i])
    ensures !StrongETag(padding + "W/" + quoted)
  {
    var tag := "W/" + quoted;
    assert padding + "W/" + quoted == padding + tag;
    TrimLeftDropsPadding(padding, tag);
    TrimRightKeepsStart(tag, 2);
    assert TrimRight(tag)[0] == TrimRight(tag)[..2][0] && TrimRight(tag)[1] == TrimRight(tag)[..2][1];
  }

  lemma {:induction false} TrimLeftDropsPadding(padding: string, s: string)
    requires forall i :: 0 <= i < |padding| ==> IsSpace(padding[i])
    ensures TrimLeft(padding + s) == TrimLeft(s)
  {
    if padding == [] {
      assert padding + s == s;
    } else {
      assert (padding + s)[1..] == padding[1..] + s;
      TrimLeftDropsPadding(padding[1..], s);
    }
  }

  // ---------------------------------------------------------------------
  // What may be resumed

  /** trackCheckpoint: a boundary to resume from, or whether the track must start again. */
  function TrackCheckpoint(m: Manifest, t: Track): Result<(Option<Boundary>, bool), Error> {
    match FindComponent(m, t.id)
    case None => Err(IdentityMismatch)
    case Some(c) =>
      if c.checkpoint.digest != t.identitySum || c.checkpoint.relativePath != t.checkpoint then Ok((None, true))
      else if c.committed == 0 then Ok((None, false))
      else if c.checkpoint.total <= c.committed || !StrongETag(c.checkpoint.etag) then Ok((None, true))
      else
        var it := c.checkpoint;
        Ok((Some(Boundary(t.identity, it.etag, it.lastModified, it.total, c.committed)), false))
  }

  /** A boundary is offered exactly for the same identity, a strict part of the whole and a strong validator. */
  lemma OfferedExactly(m: Manifest, t: Track)
    requires Valid(m)
    ensures
      var r := TrackCheckpoint(m, t);
      (r.Ok? && r.value.0.Some?) <==>
      exists i :: 0 <= i < |m.components|
        && m.components[i].id == t.id
        && m.components[i].checkpoint.digest == t.identitySum
        && m.components[i].checkpoint.relativePath == t.checkpoint
        && 0 < m.components[i].committed < m.components[i].checkpoint.total
        && StrongETag(m.components[i].checkpoint.etag)
  {
    var k := IndexOf(m.components, t.id);
    if i :| 0 <= i < |m.components| && m.components[i].id == t.id {
      assert i == k;
    }
  }

  /** commitTrackCheckpoint, given the manifest it read. */
  function Commit(m: Manifest, t: Track, b: Boundary): Result<Manifest, Error> {
    match FindComponent(m, t.id)
    case None => Err(IdentityMismatch)
    case Some(c) =>
      if b.identity != t.identity || c.checkpoint.relativePath != t.checkpoint then Err(IdentityMismatch)
      else
        var metadata := c.checkpoint.(digest := t.identitySum, etag := b.etag,
                                      lastModified := b.lastModified, total := b.total);
        match Apply(m, SetCheckpoint(t.id, b.committed, b.committed, metadata))
        case None => Err(WriteFailed)
        case Some(n) => Ok(n)
  }

  lemma UpdateKeepsIndex(cs: seq<Component>, k: nat, c: Component, id: string)
    requires k < |cs| && c.id == cs[k].id
    ensures IndexOf(cs[k := c], id) == IndexOf(cs, id)
  {
    assert forall j :: 0 <= j < |cs| ==> cs[k := c][j].id == cs[j].id;
  }

  lemma SettingKeepsOthers(m: Manifest, u: Mutation, id: string)
    requires (u.SetCheckpoint? || u.ResetComponent?) && Apply(m, u).Some? && id != u.id
    ensures FindComponent(Apply(m, u).value, id) == FindComponent(m, id)
  {
    var k := IndexOf(m.components, u.id);
    UpdateKeepsIndex(m.components, k, Apply(m, u).value.components[k], id);
  }

  lemma SettingFinds(m: Manifest, u: Mutation)
    requires (u.SetCheckpoint? || u.ResetComponent?) && Apply(m, u).Some?
    ensures FindComponent(m, u.id).Some?
    ensures u.SetCheckpoint? ==>
              FindComponent(Apply(m, u).value, u.id) == Some(Component(u.id, u.observed, u.committed, u.checkpoint))
    ensures u.ResetComponent? ==>
              FindComponent(Apply(m, u).value, u.id)
              == Some(Component(u.id, 0, 0, Checkpoint(FindComponent(m, u.id).value.checkpoint.relativePath,
                                                       "", "", 0, "", "", 0)))
  {
    var k := IndexOf(m.components, u.id);
    UpdateKeepsIndex(m.components, k, Apply(m, u).value.components[k], u.id);
  }

  /** What was committed is exactly what is offered next, and other tracks are untouched. */
  lemma CommitThenOffer(m: Manifest, t: Track, b: Boundary)
    requires Commit(m, t, b).Ok?
    ensures
      var n := Commit(m, t, b).value;
      && TrackCheckpoint(n, t) == Ok(if b.committed == 0 then (None, false)
                                     else if b.total <= b.committed || !StrongETag(b.etag) then (None, true)
                                     else (Some(b), false))
      && (forall id :: id != t.id ==> FindComponent(n, id) == FindComponent(m, id))
  {
    var c := FindComponent(m, t.id).value;
    var metadata := c.checkpoint.(digest := t.identitySum, etag := b.etag,
                                  lastModified := b.lastModified, total := b.total);
    var u := SetCheckpoint(t.id, b.committed, b.committed, metadata);
    SettingFinds(m, u);
    forall id | id != t.id ensures FindComponent(Apply(m, u).value, id) == FindComponent(m, id) {
      SettingKeepsOthers(m, u, id);
    }
  }

  /** Resuming a stopped session changes no offer. */
  lemma ResumeKeepsOffers(m: Manifest, t: Track)
    requires Apply(m, Resume).Some?
    ensures TrackCheckpoint(Apply(m, Resume).value, t) == TrackCheckpoint(m, t)
  {
    var n := Apply(m, Resume).value;
    assert forall j :: 0 <= j < |m.components| ==> n.components[j].id == m.components[j].id;
    assert IndexOf(n.components, t.id) == IndexOf(m.components, t.id);
  }

  // ---------------------------------------------------------------------
  // Reconciling the identities of a reopened session

  /** The component of a track after reconciliation, given the one before it. */
  predicate Adopted(was: Component, now: Component, t: Track) {
    && now.id == was.id
    && now.checkpoint.digest == t.identitySum
    && now.checkpoint.relativePath == was.checkpoint.relativePath
    && (if was.checkpoint.digest == t.identitySum then now == was else now.observed == 0 && now.committed == 0)
  }

  /** Whatever happens, no progress appears: a component is as it was or has none. */
  predicate Faded(was: Manifest, now: Manifest, id: string) {
    && (FindComponent(was, id).Some? <==> FindComponent(now, id).Some?)
    && (FindComponent(now, id).Some? ==>
          FindComponent(now, id) == FindComponent(was, id)
          || (FindComponent(now, id).value.observed == 0 && FindComponent(now, id).value.committed == 0))
  }

  predicate SameAuthority(was: Manifest, now: Manifest) {
    && now.phase == was.phase
    && now.status == was.status
    && now.staged == was.staged
    && now.publication == was.publication
    && now.destination == was.destination
  }

  /** A component that has never carried an identity or any progress. */
  predicate Blank(c: Component) {
    c.checkpoint.digest == "" && c.observed == 0 && c.committed == 0
  }

  /** A file in a track's workspace, and whether its name is one the session may remove. */
  datatype File = File(name: string, owned: bool)

  /** The files of each track on disk, in the order in which they would be removed. */
  type Evidence = map<string, seq<File>>

  predicate SameEvidence(before: Evidence, after: Evidence, id: string) {
    (id in before <==> id in after) && (id in before ==> before[id] == after[id])
  }

  /** Files of a track may have gone, the first ones first; none appeared. */
  predicate FewerFiles(before: Evidence, after: Evidence, id: string) {
    id in after ==>
      id in before && |after[id]| <= |before[id]| && after[id] == before[id][|before[id]| - |after[id]|..]
  }

  /** Bytes under the same identity stay; bytes under another one are gone. */
  predicate EvidenceOk(was: Component, before: Evidence, after: Evidence, t: Track) {
    && (was.checkpoint.digest == t.identitySum || Blank(was) ==> SameEvidence(before, after, t.id))
    && (was.checkpoint.digest != t.identitySum && !Blank(was) ==> t.id !in after)
  }

  /** Everything reconciliation establishes for one track. */
  predicate Reconciled(was: Manifest, now: Manifest, before: Evidence, after: Evidence, t: Track) {
    && FindComponent(was, t.id).Some?
    && FindComponent(now, t.id).Some?
    && Adopted(FindComponent(was, t.id).value, FindComponent(now, t.id).value, t)
    && EvidenceOk(FindComponent(was, t.id).value, before, after, t)
  }

  /** Only this track's component and files may differ. */
  ghost predicate OnlyTouches(was: Manifest, now: Manifest, before: Evidence, after: Evidence, t: Track) {
    && SameAuthority(was, now)
    && Faded(was, now, t.id)
    && FewerFiles(before, after, t.id)
    && forall id :: id != t.id ==> FindComponent(now, id) == FindComponent(was, id) && SameEvidence(before, after, id)
  }

  /** Only the first `n` tracks may differ, and they have not gained progress. */
  ghost predicate OnlyFirst(was: Manifest, now: Manifest, before: Evidence, after: Evidence,
                            tracks: seq<Track>, n: nat)
    requires n <= |tracks|
  {
    && SameAuthority(was, now)
    && (forall id :: Faded(was, now, id) && FewerFiles(before, after, id))
    && forall id :: (forall j :: 0 <= j < n ==> tracks[j].id != id) ==>
         FindComponent(now, id) == FindComponent(was, id) && SameEvidence(before, after, id)
  }

  lemma OnlyFirstGrows(was: Manifest, mid: Manifest, now: Manifest, before: Evidence, files: Evidence,
                       after: Evidence, tracks: seq<Track>, n: nat)
    requires n < |tracks| && OnlyFirst(was, mid, before, files, tracks, n)
    requires OnlyTouches(mid, now, files, after, tracks[n])
    ensures OnlyFirst(was, now, before, after, tracks, n + 1)
  {
    forall id ensures Faded(was, now, id) && FewerFiles(before, after, id) {
      assert Faded(was, mid, id) && FewerFiles(before, files, id);
    }
    forall id | forall j :: 0 <= j < n + 1 ==> tracks[j].id != id
      ensures FindComponent(now, id) == FindComponent(was, id) && SameEvidence(before, after, id)
    {
      assert id != tracks[n].id;
    }
  }

  lemma OnlyFirstWidens(was: Manifest, now: Manifest, before: Evidence, after: Evidence,
                        tracks: seq<Track>, n: nat)
    requires n <= |tracks| && OnlyFirst(was, now, before, after, tracks, n)
    ensures OnlyFirst(was, now, before, after, tracks, |tracks|)
  {
  }

  lemma ReconciledGrows(was: Manifest, mid: Manifest, now: Manifest, before: Evidence, files: Evidence,
                        after: Evidence, tracks: seq<Track>, n: nat)
    requires DistinctTracks(tracks) && n < |tracks| && OnlyFirst(was, mid, before, files, tracks, n)
    requires OnlyTouches(mid, now, files, after, tracks[n])
    requires forall j :: 0 <= j < n ==> Reconciled(was, mid, before, files, tracks[j])
    requires Reconciled(mid, now, files, after, tracks[n])
    ensures forall j :: 0 <= j < n + 1 ==> Reconciled(was, now, before, after, tracks[j])
  {
    forall j | 0 <= j < n ensures Reconciled(was, now, before, after, tracks[j]) {
      assert Reconciled(was, mid, before, files, tracks[j]) && tracks[j].id != tracks[n].id;
    }
    assert FindComponent(mid, tracks[n].id) == FindComponent(was, tracks[n].id);
    assert SameEvidence(before, files, tracks[n].id);
  }

  // The manifest's part of a reconciliation as a value, when only so many writes succeed.

  function Try(m: Manifest, u: Mutation): Manifest {
    match Apply(m, u)
    case None => m
    case Some(n) => n
  }

  function ResetOnly(m: Manifest, t: Track, writes: nat): Manifest {
    var found := FindComponent(m, t.id);
    var path := if found.Some? then found.value.checkpoint.relativePath else "";
    var reset := Try(m, ResetComponent(t.id));
    if writes == 0 then m
    else if writes == 1 || Apply(m, ResetComponent(t.id)).None? then reset
    else Try(reset, SetCheckpoint(t.id, 0, 0, Checkpoint(path, t.identitySum, "", 0, "", "", 0)))
  }

  /** One track of reconcileTrackIdentities. */
  function ReconcileTrack(m: Manifest, t: Track, writes: nat): Manifest {
    match FindComponent(m, t.id)
    case None => m
    case Some(c) =>
      if c.checkpoint.digest == t.identitySum || writes == 0 then m
      else if Blank(c) then
        if c.checkpoint.relativePath != t.checkpoint then m
        else Try(m, SetCheckpoint(t.id, 0, 0, c.checkpoint.(digest := t.identitySum)))
      else if m.phase != PhaseDownloading || m.staged.Some? || m.publication != PublicationNotStarted then m
      else ResetOnly(m, t, writes)
  }

  class MultiTrackSession {
    const tracks: seq<Track>
    var manifest: Manifest
    var evidence: Evidence
    /** How many manifest writes succeed before one reports an error. */
    var writesLeft: nat

    constructor (tracks: seq<Track>, manifest: Manifest, evidence: Evidence, writesLeft: nat)
      ensures this.tracks == tracks && this.manifest == manifest
      ensures this.evidence == evidence && this.writesLeft == writesLeft
    {
      this.tracks, this.manifest, this.evidence, this.writesLeft := tracks, manifest, evidence, writesLeft;
    }

    /** A manifest mutation; a refused or failed one changes nothing. */
    method Update(u: Mutation) returns (ok: bool)
      modifies this`manifest, this`writesLeft
      ensures ok ==> Apply(old(manifest), u) == Some(manifest)
      ensures !ok ==> manifest == old(manifest)
      ensures ok <==> old(writesLeft) > 0 && Apply(old(manifest), u).Some?
      ensures writesLeft == if old(writesLeft) == 0 then 0 else old(writesLeft) - 1
    {
      if writesLeft == 0 {
        return false;
      }
      writesLeft := writesLeft - 1;
      var next := Apply(manifest, u);
      if next.None? {
        return false;
      }
      manifest := next.value;
      return true;
    }

    method SetTrackIdentity(t: Track) returns (error: Option<Error>)
      modifies this`manifest, this`writesLeft
      ensures SameAuthority(old(manifest), manifest)
      ensures forall id :: id != t.id ==> FindComponent(manifest, id) == FindComponent(old(manifest), id)
      ensures error.None? ==>
                && FindComponent(old(manifest), t.id).Some?
                && FindComponent(manifest, t.id).Some?
                && var was, now := FindComponent(old(manifest), t.id).value, FindComponent(manifest, t.id).value;
                   was.observed == 0 && was.committed == 0
                   && now == was.(checkpoint := was.checkpoint.(digest := t.identitySum))
      ensures error.Some? ==> manifest == old(manifest)
      ensures FindComponent(old(manifest), t.id).Some? && Blank(FindComponent(old(manifest), t.id).value)
              && FindComponent(old(manifest), t.id).value.checkpoint.digest != t.identitySum ==>
                manifest == ReconcileTrack(old(manifest), t, old(writesLeft))
    {
      var c := FindComponent(manifest, t.id);
      if c.None? || c.value.checkpoint.relativePath != t.checkpoint || c.value.observed != 0 || c.value.committed != 0 {
        return Some(IdentityMismatch);
      }
      var u := SetCheckpoint(t.id, 0, 0, c.value.checkpoint.(digest := t.identitySum));
      var ok := Update(u);
      if !ok {
        return Some(WriteFailed);
      }
      SettingFinds(old(manifest), u);
      forall id | id != t.id ensures FindComponent(manifest, id) == FindComponent(old(manifest), id) {
        SettingKeepsOthers(old(manifest), u, id);
      }
      return None;
    }

    /**
     removeMultiTrackEvidence: one file after the other, stopping at one that is not
     the session's or whose removal fails; `stuck` says at which.
     */
    method RemoveEvidence(id: string, stuck: map<string, nat>) returns (ok: bool)
      modifies this`evidence
      ensures forall other :: other != id ==> SameEvidence(old(evidence), evidence, other)
      ensures FewerFiles(old(evidence), evidence, id)
      ensures ok <==> id !in evidence
      ensures ok <==> id !in old(evidence) || ((forall i :: 0 <= i < |old(evidence)[id]| ==> old(evidence)[id][i].owned)
                                              && (id in stuck ==> stuck[id] >= |old(evidence)[id]|))
    {
      if id !in evidence {
        return true;
      }
      var files := evidence[id];
      for i := 0 to |files|
        invariant evidence == old(evidence)[id := files[i..]]
        invariant forall j :: 0 <= j < i ==> files[j].owned
        invariant id in stuck ==> stuck[id] >= i
      {
        if !files[i].owned || (id in stuck && stuck[id] == i) {
          return false;
        }
        evidence := evidence[id := files[i + 1..]];
      }
      evidence := evidence - {id};
      return true;
    }

    method ResetTrackEvidenceAndManifest(t: Track, stuck: map<string, nat>) returns (error: Option<Error>)
      modifies this
      ensures manifest == old(manifest) || manifest == ResetOnly(old(manifest), t, old(writesLeft))
      ensures SameAuthority(old(manifest), manifest)
      ensures forall id :: id != t.id ==> FindComponent(manifest, id) == FindComponent(old(manifest), id)
      ensures forall id :: id != t.id ==> SameEvidence(old(evidence), evidence, id)
      ensures Faded(old(manifest), manifest, t.id) && FewerFiles(old(evidence), evidence, t.id)
      ensures error.None? ==>
                && FindComponent(old(manifest), t.id).Some?
                && t.id !in evidence
                && FindComponent(manifest, t.id)
                   == Some(Component(t.id, 0, 0,
                                     Checkpoint(FindComponent(old(manifest), t.id).value.checkpoint.relativePath,
                                                t.identitySum, "", 0, "", "", 0)))
    {
      if manifest.phase != PhaseDownloading || manifest.staged.Some? || manifest.publication != PublicationNotStarted {
        return Some(IdentityMismatch);
      }
      var removed := RemoveEvidence(t.id, stuck);
      if !removed {
        return Some(WriteFailed);
      }
      error := ResetManifest(t);
    }

    /** The manifest half of a reset: first the progress goes, then the new digest is set. */
    method ResetManifest(t: Track) returns (error: Option<Error>)
      modifies this`manifest, this`writesLeft
      ensures manifest == ResetOnly(old(manifest), t, old(writesLeft))
      ensures SameAuthority(old(manifest), manifest)
      ensures forall id :: id != t.id ==> FindComponent(manifest, id) == FindComponent(old(manifest), id)
      ensures Faded(old(manifest), manifest, t.id)
      ensures error.None? ==>
                && FindComponent(old(manifest), t.id).Some?
                && FindComponent(manifest, t.id)
                   == Some(Component(t.id, 0, 0,
                                     Checkpoint(FindComponent(old(manifest), t.id).value.checkpoint.relativePath,
                                                t.identitySum, "", 0, "", "", 0)))
    {
      var reset := Update(ResetComponent(t.id));
      if !reset {
        return Some(WriteFailed);
      }
      ghost var middle := manifest;
      SettingFinds(old(manifest), ResetComponent(t.id));
      forall id | id != t.id ensures FindComponent(middle, id) == FindComponent(old(manifest), id) {
        SettingKeepsOthers(old(manifest), ResetComponent(t.id), id);
      }
      var c := FindComponent(manifest, t.id);
      var u := SetCheckpoint(t.id, 0, 0, c.value.checkpoint.(digest := t.identitySum));
      var written := Update(u);
      if !written {
        return Some(WriteFailed);
      }
      SettingFinds(middle, u);
      forall id | id != t.id ensures FindComponent(manifest, id) == FindComponent(middle, id) {
        SettingKeepsOthers(middle, u, id);
      }
      return None;
    }

    method CommitTrackCheckpoint(t: Track, b: Boundary) returns (error: Option<Error>)
      modifies this`manifest, this`writesLeft
      ensures error.None? ==> Commit(old(manifest), t, b) == Ok(manifest)
      ensures error.Some? ==> manifest == old(manifest)
      ensures error.None? <==> old(writesLeft) > 0 && Commit(old(manifest), t, b).Ok?
    {
      if b.identity != t.identity {
        return Some(IdentityMismatch);
      }
      var c := FindComponent(manifest, t.id);
      if c.None? || c.value.checkpoint.relativePath != t.checkpoint {
        return Some(IdentityMismatch);
      }
      var metadata := c.value.checkpoint.(digest := t.identitySum, etag := b.etag, lastModified := b.lastModified,
                                          total := b.total);
      var ok := Update(SetCheckpoint(t.id, b.committed, b.committed, metadata));
      return if ok then None else Some(WriteFailed);
    }

    /** One turn of the loop over the tracks. */
    method ReconcileOne(t: Track, stuck: map<string, nat>) returns (error: Option<Error>)
      modifies this
      ensures OnlyTouches(old(manifest), manifest, old(evidence), evidence, t)
      ensures error.None? ==> Reconciled(old(manifest), manifest, old(evidence), evidence, t)
      ensures manifest == old(manifest) || manifest == ReconcileTrack(old(manifest), t, old(writesLeft))
    {
      var c := FindComponent(manifest, t.id);
      if c.None? {
        return Some(IdentityMismatch);
      }
      if c.value.checkpoint.digest == t.identitySum {
        return None;
      }
      if Blank(c.value) {
        error := SetTrackIdentity(t);
        return;
      }
      if manifest.phase != PhaseDownloading || manifest.staged.Some? || manifest.publication != PublicationNotStarted {
        return Some(IdentityMismatch);
      }
      error := ResetTrackEvidenceAndManifest(t, stuck);
    }

    /**
     On success every track's component carries the track's digest, and keeps its
     progress exactly when it already did; on any outcome no progress appears and
     components and files of other tracks stay as they were.
     */
    method ReconcileTrackIdentities(stuck: map<string, nat>) returns (error: Option<Error>)
      requires DistinctTracks(tracks)
      modifies this
      ensures OnlyFirst(old(manifest), manifest, old(evidence), evidence, tracks, |tracks|)
      ensures error.None? ==>
                forall j :: 0 <= j < |tracks| ==>
                  Reconciled(old(manifest), manifest, old(evidence), evidence, tracks[j])
    {
      for n := 0 to |tracks|
        invariant OnlyFirst(old(manifest), manifest, old(evidence), evidence, tracks, n)
        invariant forall j :: 0 <= j < n ==> Reconciled(old(manifest), manifest, old(evidence), evidence, tracks[j])
      {
        ghost var mid, files := manifest, evidence;
        var failed := ReconcileOne(tracks[n], stuck);
        OnlyFirstGrows(old(manifest), mid, manifest, old(evidence), files, evidence, tracks, n);
        if failed.Some? {
          OnlyFirstWidens(old(manifest), manifest, old(evidence), evidence, tracks, n + 1);
          return failed;
        }
        ReconciledGrows(old(manifest), mid, manifest, old(evidence), files, evidence, tracks, n);
      }
      return None;
    }
  }
}
