/**
 The durable session manifest and the closed set of mutations the engine applies
 to it. Timestamps, the cleanup state (which no engine path leaves pending) and
 the transition record are not modelled; revision and generation are unbounded.
 */
module SessionManifest {
  import opened Common

  type Content = string
  type Basename = string

  /** A digest is a free constructor: injective in the content by construction. */
  datatype Fingerprint = Sha256(of: Content)

  datatype Phase =
    | PhasePrepared
    | PhaseExtracting
    | PhaseDownloading
    | PhaseProcessing
    | PhaseReadyToPublish
    | PhaseCompleted

  datatype Status =
    | StatusActive
    | StatusPaused
    | StatusFailed
    | StatusCanceled
    | StatusNeedsReconciliation
    | StatusCompleted

  datatype Desired = DesiredRunning | DesiredPaused | DesiredCanceled

  datatype Publication =
    | PublicationNotStarted
    | PublicationPending
    | PublicationCommitted
    | PublicationIndeterminate

  datatype Checkpoint = Checkpoint(
    relativePath: string,
    digest: string,
    planHash: string,
    sequence: nat,
    etag: string,
    lastModified: string,
    total: int)

  datatype Component = Component(id: string, observed: int, committed: int, checkpoint: Checkpoint)

  datatype Manifest = Manifest(
    revision: nat,
    generation: nat,
    destination: Basename,
    phase: Phase,
    status: Status,
    desired: Desired,
    publication: Publication,
    staged: Option<Fingerprint>,
    stagedBytes: int,
    components: seq<Component>)

  const MaxBytes := 0x2_0000_0000

  predicate ValidLifecycle(phase: Phase, status: Status) {
    if phase == PhaseCompleted then status == StatusCompleted || status == StatusNeedsReconciliation
    else status != StatusCompleted
  }

  predicate ValidDesired(status: Status, desired: Desired) {
    match status
    case StatusPaused => desired == DesiredPaused
    case StatusCanceled => desired == DesiredCanceled
    case StatusCompleted => desired == DesiredRunning
    case _ => true
  }

  predicate NeedsDestination(phase: Phase) {
    phase != PhasePrepared && phase != PhaseExtracting
  }

  predicate NextPhase(from: Phase, to: Phase) {
    match from
    case PhasePrepared => to == PhaseExtracting
    case PhaseExtracting => to == PhaseDownloading
    case PhaseDownloading => to == PhaseProcessing || to == PhaseReadyToPublish
    case PhaseProcessing => to == PhaseReadyToPublish
    case PhaseReadyToPublish => to == PhaseCompleted
    case PhaseCompleted => false
  }

  predicate SamePhaseMove(from: Status, to: Status) {
    match from
    case StatusActive => to in {StatusPaused, StatusFailed, StatusCanceled, StatusNeedsReconciliation}
    case StatusPaused => to in {StatusActive, StatusFailed, StatusCanceled, StatusNeedsReconciliation}
    case StatusFailed => to in {StatusActive, StatusPaused, StatusCanceled, StatusNeedsReconciliation}
    case StatusNeedsReconciliation => to in {StatusPaused, StatusFailed, StatusCanceled}
    case StatusCanceled => to == StatusNeedsReconciliation
    case StatusCompleted => false
  }

  /** The cross-product lifecycle table. */
  predicate CanTransition(p: Phase, s: Status, q: Phase, t: Status) {
    && ValidLifecycle(p, s)
    && ValidLifecycle(q, t)
    && (if p == q && s == t then true
        else if p == PhaseCompleted || q == PhaseCompleted then
          || (p == PhaseReadyToPublish && (s == StatusActive || s == StatusNeedsReconciliation)
              && q == PhaseCompleted && t == StatusCompleted)
          || (p == PhaseCompleted && q == PhaseCompleted
              && ((s == StatusCompleted && t == StatusNeedsReconciliation)
                  || (s == StatusNeedsReconciliation && t == StatusCompleted)))
        else if p == q then SamePhaseMove(s, t)
        else s == StatusActive && t == StatusActive && NextPhase(p, q))
  }

  predicate ValidCheckpoint(c: Checkpoint) {
    && (c.relativePath == "" ==> c == Checkpoint("", "", "", 0, "", "", 0))
    && (c.sequence > 0 ==> c.digest != "" && c.planHash != "")
    && 0 <= c.total <= MaxBytes
  }

  predicate ValidComponents(cs: seq<Component>) {
    && (forall i :: 0 <= i < |cs| ==>
          && 0 <= cs[i].committed <= cs[i].observed
          && ValidCheckpoint(cs[i].checkpoint)
          && (cs[i].committed > 0 ==> cs[i].checkpoint.relativePath != ""))
    && (forall i, j :: 0 <= i < j < |cs| ==> cs[i].id != cs[j].id)
  }

  /** What Validate demands of an image before it may be persisted. */
  predicate Valid(m: Manifest) {
    && (NeedsDestination(m.phase) ==> m.destination != "")
    && ValidLifecycle(m.phase, m.status)
    && ValidDesired(m.status, m.desired)
    && 0 <= m.stagedBytes <= MaxBytes
    && (m.phase == PhaseCompleted ==> m.publication == PublicationCommitted)
    && (m.publication == PublicationPending ==> m.phase == PhaseReadyToPublish)
    && (m.publication == PublicationCommitted ==> m.phase == PhaseReadyToPublish || m.phase == PhaseCompleted)
    && (m.publication == PublicationIndeterminate ==> m.status == StatusNeedsReconciliation)
    && ValidComponents(m.components)
  }

  datatype Mutation =
    | Transition(phase: Phase, status: Status, desired: Desired)
    | Resume
    | ResolveReconciliation(status: Status, desired: Desired)
    | SetStagedOutput(fingerprint: Fingerprint, bytes: int)
    | RebindDestination(destination: Basename)
    | SetPublication(publication: Publication)
    | ResolvePublication(publication: Publication)
    | SetCheckpoint(id: string, observed: int, committed: int, checkpoint: Checkpoint)
    | ResetComponent(id: string)

  function Move(m: Manifest, phase: Phase, status: Status, desired: Desired, reconciling: bool): Option<Manifest> {
    if m.status == StatusNeedsReconciliation && !reconciling then None
    else if m.status == StatusCompleted then None
    else if status == StatusActive && m.status != StatusActive then None
    else if m.status == StatusActive && status == StatusActive
            && (m.desired != DesiredRunning || desired != m.desired) then None
    else if !reconciling && m.desired != DesiredRunning && desired != m.desired then None
    else if !CanTransition(m.phase, m.status, phase, status) then None
    else if NeedsDestination(phase) && m.destination == "" then None
    else if !ValidDesired(status, desired) then None
    else Some(m.(phase := phase, status := status, desired := desired))
  }

  predicate ValidPublicationMove(current: Publication, next: Publication, phase: Phase) {
    || current == next
    || (current == PublicationNotStarted && next == PublicationPending && phase == PhaseReadyToPublish)
    || (current == PublicationPending && phase == PhaseReadyToPublish
        && (next == PublicationCommitted || next == PublicationIndeterminate))
  }

  /** Index of the component, or |cs| when there is none. */
  function IndexOf(cs: seq<Component>, id: string): (i: nat)
    ensures i <= |cs|
    ensures i < |cs| ==> cs[i].id == id
    ensures forall j :: 0 <= j < i ==> cs[j].id != id
  {
    if cs == [] then 0 else if cs[0].id == id then 0 else 1 + IndexOf(cs[1..], id)
  }

  function AtCommitted(cs: seq<Component>): (r: seq<Component>)
    ensures |r| == |cs|
    ensures forall i :: 0 <= i < |cs| ==> r[i] == cs[i].(observed := cs[i].committed)
  {
    seq(|cs|, i requires 0 <= i < |cs| => cs[i].(observed := cs[i].committed))
  }

  /** The mutation callbacks, before the image is validated. */
  function Candidate(m: Manifest, u: Mutation): Option<Manifest> {
    match u
    case Transition(phase, status, desired) => Move(m, phase, status, desired, false)
    case Resume =>
      if (m.status == StatusPaused || m.status == StatusFailed)
         && CanTransition(m.phase, m.status, m.phase, StatusActive)
      then Some(m.(status := StatusActive, desired := DesiredRunning, generation := m.generation + 1,
                   components := AtCommitted(m.components)))
      else None
    case ResolveReconciliation(status, desired) =>
      if m.status != StatusNeedsReconciliation || m.publication == PublicationIndeterminate then None
      else if status == StatusCompleted then
        if m.publication != PublicationCommitted
           || (m.phase != PhaseReadyToPublish && m.phase != PhaseCompleted) then None
        else Move(m, PhaseCompleted, status, desired, true)
      else if status == StatusPaused || status == StatusFailed || status == StatusCanceled then
        Move(m, m.phase, status, desired, true)
      else None
    case SetStagedOutput(fingerprint, bytes) =>
      if bytes < 0 || (m.phase != PhaseProcessing && m.phase != PhaseReadyToPublish) || m.status != StatusActive
         || m.publication == PublicationCommitted || m.publication == PublicationIndeterminate then None
      else Some(m.(staged := Some(fingerprint), stagedBytes := bytes))
    case RebindDestination(destination) =>
      if destination == "" || m.phase != PhaseReadyToPublish || m.status == StatusActive
         || m.publication == PublicationCommitted || m.publication == PublicationIndeterminate then None
      else Some(m.(destination := destination))
    case SetPublication(publication) =>
      if m.status != StatusActive || !ValidPublicationMove(m.publication, publication, m.phase) then None
      else if publication == PublicationIndeterminate then
        match Move(m, m.phase, StatusNeedsReconciliation, m.desired, false)
        case None => None
        case Some(n) => Some(n.(publication := publication))
      else Some(m.(publication := publication))
    case ResolvePublication(publication) =>
      if m.status != StatusNeedsReconciliation || m.publication != PublicationIndeterminate
         || (publication != PublicationCommitted && publication != PublicationPending) then None
      else Some(m.(publication := publication))
    case SetCheckpoint(id, observed, committed, checkpoint) =>
      var i := IndexOf(m.components, id);
      if i == |m.components| || checkpoint.relativePath != m.components[i].checkpoint.relativePath
         || observed < m.components[i].observed || committed < m.components[i].committed then None
      else Some(m.(components := m.components[i := Component(id, observed, committed, checkpoint)]))
    case ResetComponent(id) =>
      var i := IndexOf(m.components, id);
      if i == |m.components| then None
      else
        var path := m.components[i].checkpoint.relativePath;
        Some(m.(components := m.components[i := Component(id, 0, 0, Checkpoint(path, "", "", 0, "", "", 0))]))
  }

  /** Workspace.update: the candidate is persisted, one revision later, only if it validates. */
  function Apply(m: Manifest, u: Mutation): Option<Manifest> {
    match Candidate(m, u)
    case None => None
    case Some(n) =>
      var next := n.(revision := m.revision + 1);
      if Valid(next) then Some(next) else None
  }

  /**
   What no mutation can do, whatever its arguments: leave reconciliation other
   than through ResolveReconciliation, revive a run other than through Resume,
   withdraw a committed publication, retarget or restage a committed output, or
   reach Completed without a committed publication.
   */
  lemma MutationsRespectAuthority(m: Manifest, u: Mutation)
    requires Valid(m) && Apply(m, u).Some?
    ensures
      var n := Apply(m, u).value;
      && n.revision == m.revision + 1
      && (n.generation == m.generation + 1 <==> u.Resume?)
      && (n.generation == m.generation <==> !u.Resume?)
      && (m.status == StatusNeedsReconciliation && n.status != m.status ==>
            u.ResolveReconciliation? && m.publication != PublicationIndeterminate)
      && (m.status != StatusActive && n.status == StatusActive ==> u.Resume?)
      && (m.publication == PublicationCommitted ==>
            n.publication == PublicationCommitted && n.destination == m.destination && n.staged == m.staged)
      && (m.publication == PublicationIndeterminate && n.publication != m.publication ==> u.ResolvePublication?)
      && (n.phase == PhaseCompleted ==> n.publication == PublicationCommitted)
      && (n.phase == m.phase || NextPhase(m.phase, n.phase))
  {
  }

  // ---------------------------------------------------------------------
  // Whole lives of a session

  /** A sequence of mutations; refused ones leave the manifest as it is. */
  function ApplyAll(m: Manifest, us: seq<Mutation>): Manifest {
    if us == [] then m
    else
      var before := ApplyAll(m, us[..|us| - 1]);
      match Apply(before, us[|us| - 1])
      case None => before
      case Some(n) => n
  }

  /** How many of them resumed the session. */
  function Resumes(m: Manifest, us: seq<Mutation>): nat {
    if us == [] then 0
    else
      var before, u := us[..|us| - 1], us[|us| - 1];
      Resumes(m, before) + if u.Resume? && Apply(ApplyAll(m, before), u).Some? then 1 else 0
  }

  function PhaseRank(p: Phase): nat {
    match p
    case PhasePrepared => 0
    case PhaseExtracting => 1
    case PhaseDownloading => 2
    case PhaseProcessing => 3
    case PhaseReadyToPublish => 4
    case PhaseCompleted => 5
  }

  /**
   Over any sequence of mutations whatever: phases never go back, a committed
   publication keeps its destination and output for ever, the generation counts the
   resumes, a stopped session runs again only through one, and a completed one has
   committed.
   */
  lemma {:induction false} LifecycleNeverTurnsBack(m: Manifest, us: seq<Mutation>)
    requires Valid(m)
    ensures
      var n := ApplyAll(m, us);
      && Valid(n)
      && m.revision <= n.revision
      && n.generation == m.generation + Resumes(m, us)
      && PhaseRank(m.phase) <= PhaseRank(n.phase)
      && (m.publication == PublicationCommitted ==>
            n.publication == PublicationCommitted && n.destination == m.destination && n.staged == m.staged)
      && (m.status != StatusActive && n.status == StatusActive ==> Resumes(m, us) > 0)
      && (n.phase == PhaseCompleted ==> n.publication == PublicationCommitted)
  {
    if us != [] {
      var before, u := us[..|us| - 1], us[|us| - 1];
      LifecycleNeverTurnsBack(m, before);
      var k := ApplyAll(m, before);
      if Apply(k, u).Some? {
        MutationsRespectAuthority(k, u);
      }
    }
  }
}
