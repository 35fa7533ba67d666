/** The durable state of one target (internal/domain/state) and the assignments that
    the publisher makes to it between two saves. */
module State {
  import opened Release

  // Where a snapshot came from. A frontend source carries the digest it was pulled by.
  datatype Source = Git(repo: nat) | Artifact(repo: nat, digest: Option<Digest>)

  function ArtifactDigest(s: Source): Option<Digest> {
    if s.Artifact? then s.digest else None
  }

  datatype FileInfo = FileInfo(sha: Digest, size: nat)

  // What manifestDigest hashes. The hash is taken to be injective, so that the model
  // keeps the hashed value in its place.
  datatype Seal = Seal(
    commit: Commit,
    source: Source,
    files: map<string, FileInfo>,
    assets: map<string, Digest>)

  datatype Version = Version(
    commit: Commit,
    source: Source,
    artifact: Option<Digest>,
    version: VersionName,
    manifest: Seal)

  datatype Record = Record(
    request: Request,
    fingerprint: Request,
    result: Result,
    http: nat,
    baseline: Option<Version>,
    baselinePrevious: Option<Version>,
    beforeLink: Link,
    candidate: Option<Version>,
    intent: bool,
    tested: bool)

  // The candidate is of the artifact that the result names; a configuration has none.
  predicate CandidateNamed(r: Record) {
    r.candidate.Some? && r.candidate.value.artifact == r.result.digest
  }

  datatype TargetState = TargetState(
    revision: Revision,
    current: Option<Version>,
    previous: Option<Version>,
    active: Option<ReleaseId>,
    recovery: bool,
    records: map<ReleaseId, Record>)

  // What `latest` points at; Foreign is a link that no snapshot name matches.
  datatype Link = Absent | At(commit: Commit) | Foreign

  function LinkOf(v: Option<Version>): Link {
    if v.Some? then At(v.value.commit) else Absent
  }

  datatype Pair = Pair(current: Option<Version>, previous: Option<Version>)

  function PairOf(s: TargetState): Pair {
    Pair(s.current, s.previous)
  }

  // The link a rollback of `r` switches back to.
  function RollbackLink(r: Record): Link {
    if r.baseline.Some? then At(r.baseline.value.commit) else r.beforeLink
  }

  function WithRecord(s: TargetState, id: ReleaseId, r: Record): TargetState {
    s.(records := s.records[id := r])
  }

  function SupersededRecord(r: Record, now: Time): Record {
    r.(http := 409, result := r.result.(status := Failed, code := Superseded, finished := now))
  }

  // takeover: a new request clears the marks an unfinished one left behind.
  function TakenOver(s: TargetState, id: ReleaseId, now: Time): TargetState {
    var cleared :=
      if s.active.Some? && s.active.value != id && s.active.value in s.records
         && !s.records[s.active.value].result.Terminal() then
        WithRecord(s, s.active.value, SupersededRecord(s.records[s.active.value], now))
      else s;
    cleared.(active := None, recovery := false)
  }

  function NewRecord(s: TargetState, req: Request, fingerprint: Request): Record {
    Record(req, fingerprint,
           Result(Running, Accepted, Unchanged, NotNeeded, NoError, s.revision, s.revision, req.digest, 0),
           409, s.current, s.previous, Absent, None, false, false)
  }

  function WithActive(s: TargetState, id: ReleaseId, r: Record): TargetState {
    s.(records := s.records[id := r], active := Some(id))
  }

  function AcceptedState(s: TargetState, req: Request, fingerprint: Request, now: Time): TargetState {
    WithActive(TakenOver(s, req.id, now), req.id, NewRecord(s, req, fingerprint))
  }

  function InPhase(s: TargetState, id: ReleaseId, p: Phase): TargetState
    requires id in s.records
  {
    var r := s.records[id];
    WithRecord(s, id, r.(result := r.result.(phase := p)))
  }

  // The baseline that verify_baseline records from the stored current version.
  function BaselineNoted(s: TargetState, id: ReleaseId): TargetState
    requires id in s.records
  {
    if s.current.None? then s else
      WithRecord(s, id, s.records[id].(baseline := s.current, beforeLink := LinkOf(s.current)))
  }

  function DigestResolved(s: TargetState, id: ReleaseId, d: Digest): TargetState
    requires id in s.records
  {
    var r := s.records[id];
    WithRecord(s, id, r.(result := r.result.(digest := Some(d))))
  }

  function WithCandidate(s: TargetState, id: ReleaseId, v: Version): TargetState
    requires id in s.records
  {
    WithRecord(s, id, s.records[id].(candidate := Some(v)))
  }

  function WithIntent(s: TargetState, id: ReleaseId): TargetState
    requires id in s.records
  {
    var r := s.records[id];
    WithRecord(s, id, r.(intent := true, result := r.result.(phase := SwitchIntent)))
  }

  function SkippedState(s: TargetState, id: ReleaseId, now: Time): TargetState
    requires id in s.records
  {
    var r := s.records[id];
    WithRecord(s, id, r.(http := 200, result := r.result.(status := Skipped, phase := Complete, finished := now)))
      .(active := None)
  }

  function FailedState(s: TargetState, id: ReleaseId, code: ErrorCode, now: Time): TargetState
    requires id in s.records
  {
    var r := s.records[id];
    WithRecord(s, id, r.(http := 500, result := r.result.(status := Failed, code := code, finished := now)))
      .(active := None, recovery := false)
  }

  function UncertainState(s: TargetState, id: ReleaseId, code: ErrorCode): TargetState
    requires id in s.records
  {
    var r := s.records[id];
    WithRecord(s, id, r.(http := 503, result := r.result.(
      status := RecoveryRequired,
      code := code,
      activation := if r.intent then Unknown else r.result.activation,
      rollback := if code == RecoveryFailed then RollbackFailed else Unavailable)))
      .(active := Some(id), recovery := true)
  }

  function StagedState(s: TargetState, id: ReleaseId, rev: Revision, now: Time): TargetState
    requires id in s.records
  {
    var r := s.records[id];
    WithRecord(s, id, r.(http := 200, result := r.result.(
      status := Succeeded, phase := LatestSwitched, activation := LinkSwitched,
      rollback := NotNeeded, code := NoError, after := rev, finished := now)))
      .(current := r.candidate, previous := r.baseline, revision := rev, active := None, recovery := false)
  }

  function TestedState(s: TargetState, id: ReleaseId, now: Time): TargetState
    requires id in s.records
  {
    var r := s.records[id];
    WithRecord(s, id, r.(http := 200, tested := true, result := r.result.(
      status := Succeeded, phase := NginxTestSucceeded, activation := TestPassed,
      rollback := NotNeeded, finished := now)))
  }

  function CommittedState(s: TargetState, id: ReleaseId, rev: Revision, now: Time): TargetState
    requires id in s.records
  {
    var r := s.records[id];
    WithRecord(s, id, r.(http := 200, result := r.result.(
      status := Succeeded, phase := Complete, activation := ReloadRequested,
      rollback := NotNeeded, code := NoError, after := rev, finished := now)))
      .(current := r.candidate, previous := r.baseline, revision := rev, active := None, recovery := false)
  }

  function RestoredState(s: TargetState, id: ReleaseId, rev: Revision): TargetState
    requires id in s.records
  {
    var r := s.records[id];
    WithRecord(s, id, r.(result := r.result.(
      activation := ActivationRestored, rollback := RollbackSucceeded, after := rev, phase := RolledBack)))
      .(current := r.baseline, previous := r.baselinePrevious, revision := rev, active := None, recovery := false)
  }
}
