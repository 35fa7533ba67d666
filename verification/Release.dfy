/** Requests, results and identifiers of HTTP release contract 2
    (internal/domain/release). */
module Release {
  datatype Option<+T> = None | Some(value: T)

  // Commits, release ids, digests and version names are compared and never taken apart.
  type Commit = nat
  type ReleaseId = nat
  type Digest = nat
  type VersionName = nat

  // A revision is a fresh UUID. The model names each one by the order in which it
  // was drawn; the code compares revisions for equality only.
  type Revision = nat

  // A time stamp; only retention periods look at it.
  type Time = int

  datatype Status = Running | Succeeded | Skipped | Failed | RecoveryRequired

  datatype Phase =
    | Accepted | VerifyBaseline | Fetch | PrepareSnapshot | VerifyCandidate
    | SwitchIntent | Switch | LatestSwitched | NginxTest | NginxTestSucceeded
    | Reload | VerifyActivation | Complete | RolledBack

  datatype Activation = Unchanged | LinkSwitched | TestPassed | ReloadRequested | ActivationRestored | Unknown

  datatype Rollback = NotNeeded | RollbackSucceeded | Unavailable | RollbackFailed

  datatype ErrorCode =
    | NoError | StatePersistFailed | TargetUnavailable | BaselineCheckCancelled
    | PrepareFailed | CandidateInvalid | PrepareCancelled | ActivationFailed
    | NginxTestFailed | NginxReloadFailed | ReleaseAborted | RecoveryFailed
    | Interrupted | Superseded

  // An /apply body after normalisation; the target is the node's own.
  datatype Request = Request(
    id: ReleaseId,
    expected: Option<Revision>,
    restoreOf: Option<ReleaseId>,
    commit: Commit,
    version: VersionName,
    digest: Option<Digest>)

  datatype Result = Result(
    status: Status,
    phase: Phase,
    activation: Activation,
    rollback: Rollback,
    code: ErrorCode,
    before: Revision,
    after: Revision,
    digest: Option<Digest>,
    finished: Time)
  {
    predicate Terminal() {
      status == Succeeded || status == Skipped || status == Failed
    }
  }

  // Phases that a step announces before it acts; the others say what has been reached.
  predicate IsStep(p: Phase) {
    p != LatestSwitched && p != NginxTestSucceeded && p != Complete && p != RolledBack
  }

  // Phases in which a switched release still waits for its nginx commands.
  predicate Resumable(p: Phase) {
    p == LatestSwitched || p == NginxTest || p == NginxTestSucceeded || p == Reload || p == VerifyActivation
  }
}
