/** Replies, and the durable states that an interrupted or failed finish can expose. */
module Outcomes {
  import opened Release
  import opened State
  import opened Protocol
  import opened Transitions

  datatype Reject =
    | InvalidRequest | NodeBusy | LockFailed | StateUnavailable | PublicationBlocked
    | ReleaseIdConflict | ReleaseRunning | RevisionConflict | RestoreConflict
    | RollbackNotAvailable | ReleaseNotFound | ReleaseNotCurrent
    | TestNotAvailable | ReloadNotAvailable

  // What the caller gets back. Lost: the process died first.
  datatype Reply =
    | Lost
    | Rejected(http: nat, reason: Reject)
    | Answer(record: Record, http: nat, replayed: bool)

  predicate Answered(reply: Reply, status: Status) {
    reply.Answer? && reply.record.result.status == status
  }

  // An answer of its own is never about a release that still runs.
  predicate Ended(reply: Reply) {
    reply.Answer? && !reply.replayed ==> reply.record.result.status != Running
  }

  // A command's own answer: done, undone or in doubt.
  predicate Acted(reply: Reply) {
    reply.Answer? && !reply.replayed ==> reply.record.result.status in {Succeeded, Failed, RecoveryRequired}
  }

  // An end bears the time of the operation, and a failure the code of what failed.
  predicate Stamped(reply: Reply, codes: set<ErrorCode>, now: Time) {
    reply.Answer? && !reply.replayed && reply.record.result.Terminal() ==>
      && reply.record.result.finished == now
      && (reply.record.result.status == Failed ==> reply.record.result.code in codes)
  }

  // What can fail before the switch, and from there on.
  function UnswitchedCodes(): set<ErrorCode> {
    {TargetUnavailable, BaselineCheckCancelled, PrepareFailed, CandidateInvalid, PrepareCancelled}
  }

  function SwitchedCodes(): set<ErrorCode> {
    {ActivationFailed, NginxTestFailed, NginxReloadFailed}
  }

  // Why an answer is recovery_required: a save was refused, or a local restore was, on top
  // of whatever made it necessary (n refusals in all).
  predicate Excused(a: Trouble, b: Trouble, reply: Reply, n: nat) {
    Answered(reply, RecoveryRequired) && !reply.replayed ==>
      || (reply.record.result.code == RecoveryFailed && b.refused >= a.refused + n)
      || (reply.record.result.code == StatePersistFailed && b.unsaved > a.unsaved)
  }

  predicate UncertainOutcome(d: TargetState, s: TargetState, id: ReleaseId, code: ErrorCode, e: TargetState)
    requires id in s.records
  {
    e == d || e == UncertainState(s, id, code)
  }

  // d is what was on disk, s the working copy that was to be saved, e what is there now.
  predicate SaveOutcome(d: TargetState, s: TargetState, id: ReleaseId, e: TargetState)
    requires id in s.records
  {
    e == d || e == s || e == UncertainState(s, id, StatePersistFailed)
  }

  ghost predicate Frozen(d: TargetState, e: TargetState) {
    forall i :: i in d.records && Settled(d.records[i]) ==> i in e.records && e.records[i] == d.records[i]
  }

  // What a request found when it was let in.
  datatype Origin = Origin(state: TargetState, asked: Request)

  // `r` is what a takeover makes of record i of d: the active release, if it has not ended.
  predicate TakenFrom(d: TargetState, i: ReleaseId, r: Record) {
    && d.active == Some(i) && i in d.records && !d.records[i].result.Terminal()
    && r == SupersededRecord(d.records[i], r.result.finished)
  }

  // If another release of d was active and had not ended, it has been taken over.
  predicate TookOver(d: TargetState, e: TargetState, id: ReleaseId) {
    d.active.Some? && d.active.value != id && d.active.value in d.records
    && !d.records[d.active.value].result.Terminal() ==>
      d.active.value in e.records && TakenFrom(d, d.active.value, e.records[d.active.value])
  }

  // Only `id` is new since then; of the other records the active one may have been taken
  // over, and has been if anything was saved.
  ghost predicate FrozenBut(d: Origin, e: TargetState, id: ReleaseId) {
    && (forall i :: i != id && i in d.state.records ==>
          i in e.records && (e.records[i] == d.state.records[i] || TakenFrom(d.state, i, e.records[i])))
    && (forall i :: i in e.records && i !in d.state.records ==> i == id && e.records[i].fingerprint == d.asked)
    && (e.records == d.state.records || TookOver(d.state, e, id))
  }

  /* ---------- One release seen from outside ---------- */

  function OldPair(r: Record): Pair { Pair(r.baseline, r.baselinePrevious) }

  function NewPair(r: Record): Pair { Pair(r.candidate, r.baseline) }

  predicate SameRelease(a: Record, b: Record) {
    && a.baseline == b.baseline && a.baselinePrevious == b.baselinePrevious
    && a.candidate == b.candidate && a.intent == b.intent
  }

  // Between the intent and the end: everything still needed to finish or undo is durable.
  predicate Underway(d: TargetState, l: Link, r: Record, id: ReleaseId) {
    && d.active == Some(id) && id in d.records && d.records[id].intent && SameRelease(d.records[id], r)
    && (PairOf(d) == OldPair(r) || PairOf(d) == NewPair(r))
    && (l == LinkOf(r.baseline) || l == LinkOf(r.candidate))
  }

  predicate Undone(d: TargetState, l: Link, r: Record) {
    && d.active == None && PairOf(d) == OldPair(r) && l == LinkOf(r.baseline)
    && (d.current.None? ==> !d.recovery)
  }

  predicate Done(d: TargetState, l: Link, r: Record) {
    d.active == None && PairOf(d) == NewPair(r) && l == LinkOf(r.candidate)
  }

  predicate InDoubt(d: TargetState, l: Link, r: Record, id: ReleaseId) {
    Underway(d, l, r, id) || Undone(d, l, r) || Done(d, l, r)
  }

  // What GET .../releases/state tells about a target, and about one release.
  datatype LiveState =
    | Unanswered
    | NotFound
    | Live(revision: Revision, current: Option<Version>, previous: Option<Version>, release: Option<Record>)

  /* ---------- Whether a request is let in ---------- */

  // duplicate: None means that the request goes on.
  function DuplicateReply(d: TargetState, req: Request): Option<Reply> {
    if req.id !in d.records then None else
      var rec := d.records[req.id];
      if rec.fingerprint != req then Some(Rejected(409, ReleaseIdConflict))
      else if rec.result.Terminal() then Some(Answer(rec, rec.http, true))
      else if rec.result.status == RecoveryRequired then None
      else Some(Rejected(409, ReleaseRunning))
  }

  // The restore_of guard.
  predicate RestoreAllowed(d: TargetState, of: ReleaseId, commit: Commit) {
    && of in d.records && d.current.Some?
    && var original := d.records[of];
       && original.result.status == Succeeded && original.result.after == d.revision
       && original.baseline.Some? && original.candidate.Some?
       && d.current.value.commit == original.candidate.value.commit
       && commit == original.baseline.value.commit
  }

  // A frontend restore without a digest takes the one of its local baseline.
  function Effective(d: TargetState, req: Request, frontend: bool): Request {
    if frontend && req.restoreOf.Some? && req.digest.None?
       && req.restoreOf.value in d.records && d.records[req.restoreOf.value].baseline.Some? then
      req.(digest := d.records[req.restoreOf.value].baseline.value.artifact)
    else req
  }

  predicate WellFormed(req: Request, frontend: bool) {
    && (req.restoreOf.Some? ==> req.expected.Some?)
    && (req.digest.Some? ==> frontend)
  }

  predicate DigestAgrees(d: TargetState, req: Request, frontend: bool) {
    frontend && req.restoreOf.Some? && req.restoreOf.value in d.records
    && d.records[req.restoreOf.value].baseline.Some? ==>
      d.records[req.restoreOf.value].baseline.value.artifact == Effective(d, req, frontend).digest
  }

  predicate Admissible(d: TargetState, req: Request, frontend: bool) {
    && WellFormed(req, frontend)
    && DuplicateReply(d, req).None?
    && (req.expected.Some? ==> req.expected.value == d.revision)
    && (req.restoreOf.Some? ==> RestoreAllowed(d, req.restoreOf.value, req.commit))
    && DigestAgrees(d, req, frontend)
  }

  // Refusals that have nothing to do with the request.
  predicate Unready(reply: Reply) {
    || reply == Rejected(409, NodeBusy) || reply == Rejected(503, LockFailed)
    || reply == Rejected(503, StateUnavailable) || reply == Rejected(503, PublicationBlocked)
  }

  // Why a request was turned away.
  predicate Refusal(d: TargetState, req: Request, frontend: bool, reply: Reply) {
    || reply == Lost || Unready(reply)
    || (!Admissible(d, req, frontend) && (
          || (reply == Rejected(400, InvalidRequest) && !WellFormed(req, frontend))
          || Some(reply) == DuplicateReply(d, req)
          || (reply == Rejected(409, RevisionConflict) && req.expected.Some? && req.expected.value != d.revision)
          || (reply == Rejected(409, RestoreConflict) && req.restoreOf.Some?
              && (RestoreAllowed(d, req.restoreOf.value, req.commit) ==> !DigestAgrees(d, req, frontend)))))
  }

  /* ---------- Rolling the current version back ---------- */

  // The record that RollbackCurrent looks for: it made the current revision.
  predicate Undoable(r: Record, d: TargetState) {
    && CompleteRecord(r) && r.result.activation == ReloadRequested
    && r.candidate.Some? && r.baseline.Some? && d.current.Some? && d.previous.Some?
    && r.result.after == d.revision
    && r.candidate.value.commit == d.current.value.commit
    && r.baseline.value.commit == d.previous.value.commit
  }

  predicate CanRollBack(d: TargetState) {
    exists id :: id in d.records && Undoable(d.records[id], d)
  }

  // A rollback is on offer exactly if the current version replaced one and its release is
  // complete.
  lemma RollbackOffered(d: TargetState, p: Past)
    requires SoundState(d, p)
    ensures CanRollBack(d) <==>
      && d.current.Some? && d.previous.Some?
      && exists id :: id in d.records && CompleteRecord(d.records[id]) && d.records[id].result.after == d.revision
  {
    forall id | id in d.records && CompleteRecord(d.records[id]) && d.records[id].result.after == d.revision
      ensures d.current.Some? && d.previous.Some? ==> Undoable(d.records[id], d)
    {
      assert SoundEntry(d, id, p);
    }
  }

  function RollbackRequest(d: TargetState, of: ReleaseId, freshId: ReleaseId): Request
    requires of in d.records && Undoable(d.records[of], d)
  {
    var previous := d.previous.value;
    d.records[of].request.(id := freshId, expected := Some(d.revision), restoreOf := Some(of),
                           commit := previous.commit, version := previous.version, digest := previous.artifact)
  }

  // Commits are compared by the search, whole versions come back: the request passes every
  // test of `apply` and asks for exactly the stored previous version.
  lemma RollbackAdmitted(d: TargetState, p: Past, of: ReleaseId, freshId: ReleaseId)
    requires SoundState(d, p) && freshId !in d.records
    requires of in d.records && Undoable(d.records[of], d)
    ensures d.records[of].candidate == d.current && d.records[of].baseline == d.previous
    ensures var req := RollbackRequest(d, of, freshId);
      && Admissible(d, req, !p.plain) && Effective(d, req, !p.plain) == req
      && d.records[of].baseline.value.(version := req.version) == d.previous.value
  {
  }

  // What the tests before `takeover` have established. Only the digest of an accepted
  // request may differ from what its fingerprint was taken of.
  predicate Enrollable(d: TargetState, req: Request, fingerprint: Request) {
    && req == fingerprint.(digest := req.digest)
    && (fingerprint.expected.Some? ==> fingerprint.expected.value == d.revision)
    && (req.id in d.records ==>
          d.records[req.id].result.status == RecoveryRequired && d.records[req.id].fingerprint == fingerprint)
  }

  /* ---------- How far a new release got ---------- */

  // Nothing is switched yet: the pair and the revision are those of d.
  predicate Unswitched(d: TargetState, e: TargetState, id: ReleaseId) {
    && PairOf(e) == PairOf(d) && e.revision == d.revision
    && (|| e == d.(recovery := e.recovery)
        || (id in e.records && !e.records[id].intent && (e.active == Some(id) || e.active == None)))
    && (e.active == None && e.current.None? && e.recovery ==> d.recovery)
  }

  // Every state a crash can expose, for a release that began on d with the link on its
  // current version: not begun, in doubt but recoverable, undone or done.
  predicate AllOrNothing(d: TargetState, e: TargetState, l: Link, id: ReleaseId) {
    || (Unswitched(d, e, id) && l == LinkOf(d.current))
    || (id in e.records && e.records[id].intent && e.records[id].candidate.Some?
        && OldPair(e.records[id]) == PairOf(d) && InDoubt(e, l, e.records[id], id))
  }

  predicate Idle(d: TargetState, l: Link) {
    d.active == None && l == LinkOf(d.current)
  }

  // A new release `id` on top of d that has not switched anything.
  ghost predicate Begun(d: Origin, e: TargetState, id: ReleaseId) {
    Unswitched(d.state, e, id) && FrozenBut(d, e, id)
  }

  lemma BegunChanged(d: Origin, s: TargetState, id: ReleaseId, t: TargetState)
    requires Begun(d, s, id) && TookOver(d.state, s, id)
    requires id in s.records && id in t.records && !t.records[id].intent
    requires t.records[id].fingerprint == s.records[id].fingerprint
    requires t.records == s.records[id := t.records[id]]
    requires PairOf(t) == PairOf(s) && t.revision == s.revision
    requires t.active == Some(id) || (t.active == None && !t.recovery)
    ensures Begun(d, t, id) && TookOver(d.state, t, id)
  {
  }

  ghost predicate OthersKept(d: TargetState, s: TargetState, id: ReleaseId) {
    && (forall i :: i != id && i in d.records && d.records[i].result.status == Succeeded ==>
          i in s.records && s.records[i] == d.records[i])
    && (forall i :: i != id && i in s.records ==> i in d.records)
    && (forall i :: i != id && i in s.records && s.records[i].result.status == Succeeded ==>
          d.records[i] == s.records[i])
  }

  lemma AcceptedShape(d: TargetState, req: Request, fingerprint: Request, now: Time)
    ensures var s := AcceptedState(d, req, fingerprint, now);
      && Preparing(s, req.id) && Begun(Origin(d, fingerprint), s, req.id)
      && PairOf(s) == PairOf(d) && s.revision == d.revision
      && s.records[req.id] == NewRecord(d, req, fingerprint)
      && OthersKept(d, s, req.id) && TookOver(d, s, req.id)
  {
  }

  lemma BegunReflexive(d: Origin, id: ReleaseId)
    ensures Begun(d, d.state, id)
  {
  }

  // Release `id`, past its intent and before its end, on top of d.
  ghost predicate OnTop(d: Origin, e: TargetState, id: ReleaseId) {
    && id in e.records && e.records[id].intent && e.records[id].candidate.Some?
    && e.active == Some(id) && PairOf(e) == PairOf(d.state) && OldPair(e.records[id]) == PairOf(d.state)
    && FrozenBut(d, e, id) && TookOver(d.state, e, id)
  }

  predicate OneOfItsLinks(l: Link, r: Record) {
    l == LinkOf(r.baseline) || l == LinkOf(r.candidate)
  }

  lemma OnTopExplains(d: Origin, e: TargetState, id: ReleaseId)
    requires OnTop(d, e, id)
    ensures Explained(e, LinkOf(e.records[id].candidate)) && Explained(e, LinkOf(e.records[id].baseline))
  {
  }

  lemma OnTopInDoubt(d: Origin, e: TargetState, l: Link, id: ReleaseId)
    requires OnTop(d, e, id) && OneOfItsLinks(l, e.records[id])
    ensures AllOrNothing(d.state, e, l, id)
  {
  }

  lemma OnTopUncertain(d: Origin, e: TargetState, id: ReleaseId, code: ErrorCode)
    requires OnTop(d, e, id)
    ensures OnTop(d, UncertainState(e, id, code), id)
  {
  }

  lemma OthersFrozen(d: Origin, s: TargetState, id: ReleaseId, t: TargetState)
    requires OnTop(d, s, id) && id in t.records && t.records[id].fingerprint == s.records[id].fingerprint
    requires t.records == s.records[id := t.records[id]]
    ensures FrozenBut(d, t, id)
  {
  }

  // The three ends of a switched release, each with the uncertain state behind it.
  lemma RolledBackEnd(d: Origin, s: TargetState, id: ReleaseId, rev: Revision, code: ErrorCode, now: Time)
    requires OnTop(d, s, id)
    ensures var e := RolledBackState(s, id, rev, code, now);
      var l := LinkOf(s.records[id].baseline);
      && AllOrNothing(d.state, e, l, id) && FrozenBut(d, e, id)
      && AllOrNothing(d.state, UncertainState(e, id, StatePersistFailed), l, id)
      && FrozenBut(d, UncertainState(e, id, StatePersistFailed), id)
  {
    var e := RolledBackState(s, id, rev, code, now);
    OthersFrozen(d, s, id, e);
    OthersFrozen(d, s, id, UncertainState(e, id, StatePersistFailed));
    hide FrozenBut, TookOver;
  }

  lemma StagedEnd(d: Origin, s: TargetState, id: ReleaseId, rev: Revision, now: Time)
    requires OnTop(d, s, id)
    ensures var e := StagedState(s, id, rev, now);
      var l := LinkOf(s.records[id].candidate);
      && AllOrNothing(d.state, e, l, id) && FrozenBut(d, e, id)
      && AllOrNothing(d.state, UncertainState(e, id, StatePersistFailed), l, id)
      && FrozenBut(d, UncertainState(e, id, StatePersistFailed), id)
  {
    var e := StagedState(s, id, rev, now);
    OthersFrozen(d, s, id, e);
    OthersFrozen(d, s, id, UncertainState(e, id, StatePersistFailed));
    hide FrozenBut, TookOver;
  }

  lemma CommittedEnd(d: Origin, s: TargetState, id: ReleaseId, rev: Revision, now: Time)
    requires OnTop(d, s, id)
    ensures var e := CommittedState(s, id, rev, now);
      var l := LinkOf(s.records[id].candidate);
      && AllOrNothing(d.state, e, l, id) && FrozenBut(d, e, id)
      && AllOrNothing(d.state, UncertainState(e, id, StatePersistFailed), l, id)
      && FrozenBut(d, UncertainState(e, id, StatePersistFailed), id)
  {
    var e := CommittedState(s, id, rev, now);
    OthersFrozen(d, s, id, e);
    OthersFrozen(d, s, id, UncertainState(e, id, StatePersistFailed));
    hide FrozenBut, TookOver;
  }

  // After a rollback: the pair and the link of before, under a new revision.
  predicate WentBack(d: TargetState, e: TargetState, l: Link, id: ReleaseId) {
    && PairOf(e) == PairOf(d) && l == LinkOf(d.current) && e.revision > d.revision
    && e.active == None && !e.recovery
    && id in e.records && e.records[id].result.rollback == RollbackSucceeded
  }

  // After a switch that stands.
  predicate WentForward(d: TargetState, e: TargetState, l: Link, id: ReleaseId) {
    && id in e.records && e.records[id].candidate.Some?
    && PairOf(e) == Pair(e.records[id].candidate, d.current)
    && OldPair(e.records[id]) == PairOf(d)
    && l == LinkOf(e.current) && e.revision > d.revision && e.records[id].result.after == e.revision
    && e.active == None && !e.recovery
  }

  lemma OnTopFacts(d: Origin, e: TargetState, id: ReleaseId)
    requires OnTop(d, e, id)
    ensures id in e.records && e.records[id].intent && e.records[id].candidate.Some?
    ensures PairOf(e) == PairOf(d.state) && OldPair(e.records[id]) == PairOf(d.state) && FrozenBut(d, e, id)
  {
  }

  lemma BegunAllOrNothing(d: Origin, e: TargetState, l: Link, id: ReleaseId)
    requires Begun(d, e, id) && l == LinkOf(d.state.current)
    ensures AllOrNothing(d.state, e, l, id)
  {
  }

  lemma NotBegun(d: Origin, l: Link, id: ReleaseId)
    ensures Begun(d, d.state, id) && FrozenBut(d, d.state, id) && Frozen(d.state, d.state)
    ensures l == LinkOf(d.state.current) ==> AllOrNothing(d.state, d.state, l, id)
  {
    BegunReflexive(d, id);
  }

  // The one record that a request may touch was not settled when the request was let in.
  lemma LetInFrozen(d: Origin, e: TargetState, frontend: bool)
    requires Admissible(d.state, d.asked, frontend) && FrozenBut(d, e, d.asked.id)
    ensures Frozen(d.state, e)
  {
  }

  lemma RevisionDrawn(s: TargetState, p: Past)
    requires SoundState(s, p)
    ensures s.revision < |p.pairs|
  {
  }

  lemma OnTopInPhase(d: Origin, e: TargetState, id: ReleaseId, ph: Phase)
    requires OnTop(d, e, id)
    ensures OnTop(d, InPhase(e, id, ph), id)
  {
  }

  lemma BegunFacts(d: Origin, e: TargetState, id: ReleaseId)
    requires Begun(d, e, id)
    ensures FrozenBut(d, e, id) && PairOf(e) == PairOf(d.state) && e.revision == d.state.revision
  {
  }

  predicate EndsWith(log: seq<Event>, tail: seq<Event>) {
    |tail| <= |log| && log[|log| - |tail|..] == tail
  }

  lemma BegunOnTop(d: Origin, s: TargetState, id: ReleaseId)
    requires Begun(d, s, id) && TookOver(d.state, s, id) && Preparing(s, id) && s.records[id].candidate.Some?
    requires PairOf(s) == PairOf(d.state)
    ensures OnTop(d, WithIntent(s, id), id)
  {
  }

  /* ---------- Startup recovery ---------- */

  predicate MarkedSwitched(e: TargetState) {
    e.active.Some? && e.active.value in e.records && e.records[e.active.value].intent
  }

  // A release that was interrupted past its intent.
  predicate Interrupted(e: TargetState, id: ReleaseId) {
    && e.active == Some(id) && id in e.records
    && e.records[id].intent && e.records[id].candidate.Some?
    && (PairOf(e) == OldPair(e.records[id]) || PairOf(e) == NewPair(e.records[id]))
  }

  lemma InterruptedLinks(d: TargetState, e: TargetState, l: Link, id: ReleaseId)
    requires AllOrNothing(d, e, l, id) && Interrupted(e, id) && d.active == None
    ensures OneOfItsLinks(l, e.records[id]) && AllOrNothing(d, e, LinkOf(e.records[id].baseline), id)
  {
  }

  lemma InterruptedUncertain(d: TargetState, e: TargetState, l: Link, id: ReleaseId, code: ErrorCode)
    requires AllOrNothing(d, e, l, id) && Interrupted(e, id) && d.active == None
    ensures AllOrNothing(d, UncertainState(e, id, code), l, id)
  {
  }

  lemma InterruptedRolledBack(d: TargetState, e: TargetState, l: Link, id: ReleaseId, rev: Revision,
                              code: ErrorCode, now: Time)
    requires AllOrNothing(d, e, l, id) && Interrupted(e, id) && d.active == None
    ensures var r, f := e.records[id], RolledBackState(e, id, rev, code, now);
      && AllOrNothing(d, f, LinkOf(r.baseline), id)
      && AllOrNothing(d, UncertainState(f, id, StatePersistFailed), LinkOf(r.baseline), id)
  {
  }

  lemma InterruptedCommitted(d: TargetState, e: TargetState, id: ReleaseId, rev: Revision, now: Time)
    requires Interrupted(e, id) && d.active == None
    requires AllOrNothing(d, e, LinkOf(e.records[id].candidate), id)
    ensures var r, f := e.records[id], CommittedState(e, id, rev, now);
      && AllOrNothing(d, f, LinkOf(r.candidate), id)
      && AllOrNothing(d, UncertainState(f, id, StatePersistFailed), LinkOf(r.candidate), id)
  {
  }

  // Where a command on `id` may leave a target that was on its candidate, wherever the
  // command was cut off: the pair is untouched with the link on either end, or the release
  // is finished or undone with pair and link in step.
  predicate InHand(d: TargetState, e: TargetState, l: Link, id: ReleaseId) {
    && id in d.records
    && var r := d.records[id];
       || (PairOf(e) == PairOf(d) && OneOfItsLinks(l, r))
       || (PairOf(e) == NewPair(r) && l == LinkOf(r.candidate))
       || (PairOf(e) == OldPair(r) && l == LinkOf(r.baseline))
  }

  // Two states that differ at most at an unsettled record `id` and in the marks.
  ghost predicate OnlyAt(d: TargetState, e: TargetState, id: ReleaseId) {
    && id in d.records && id in e.records
    && e.records == d.records[id := e.records[id]] && e.records[id].fingerprint == d.records[id].fingerprint
  }

  lemma OnlyAtFrozen(d: TargetState, e: TargetState, id: ReleaseId)
    requires OnlyAt(d, e, id) && !Settled(d.records[id])
    ensures Frozen(d, e)
  {
  }

  lemma IntentExplains(e: TargetState, id: ReleaseId)
    requires id in e.records && e.records[id].intent
    ensures Explained(e, LinkOf(e.records[id].candidate)) && Explained(e, LinkOf(e.records[id].baseline))
  {
  }

  lemma FrozenReflexive(d: TargetState)
    ensures Frozen(d, d)
  {
  }

  lemma OnlyAtRestore(d: TargetState, s: TargetState, id: ReleaseId, rev: Revision, code: ErrorCode, now: Time)
    requires OnlyAt(d, s, id)
    ensures OnlyAt(d, UncertainState(s, id, RecoveryFailed), id)
    ensures OnlyAt(d, RolledBackState(s, id, rev, code, now), id)
    ensures OnlyAt(d, UncertainState(RolledBackState(s, id, rev, code, now), id, StatePersistFailed), id)
  {
  }

  lemma OnlyAtReflexive(d: TargetState, id: ReleaseId)
    requires id in d.records
    ensures OnlyAt(d, d, id)
  {
  }

  // Rechecking the stored version at startup moves nothing but the recovery flag.
  lemma RecheckedKeeps(s: TargetState, flag: bool, p: Past)
    requires SoundState(s, p) && s.current.Some?
    ensures SoundState(s.(recovery := flag), p) && Continues(s, s.(recovery := flag))
  {
  }

  lemma RecheckedAllOrNothing(d: TargetState, e: TargetState, l: Link, id: ReleaseId, flag: bool)
    requires AllOrNothing(d, e, l, id) && d.active == None && e.active == None && e.current.Some?
    ensures AllOrNothing(d, e.(recovery := flag), l, id)
  {
  }

  // An interrupted release is the one that began on d; without an intent it can only fail.
  lemma ActiveIsOurs(d: TargetState, e: TargetState, l: Link, id: ReleaseId)
    requires AllOrNothing(d, e, l, id) && d.active == None && e.active.Some?
    ensures e.active == Some(id)
  {
  }

  lemma InterruptedFailed(d: TargetState, e: TargetState, l: Link, id: ReleaseId, code: ErrorCode, now: Time)
    requires AllOrNothing(d, e, l, id) && d.active == None
    requires e.active == Some(id) && id in e.records && !e.records[id].intent
    ensures AllOrNothing(d, FailedState(e, id, code, now), l, id)
    ensures AllOrNothing(d, UncertainState(FailedState(e, id, code, now), id, StatePersistFailed), l, id)
  {
  }

  lemma InterruptedShape(d: TargetState, e: TargetState, l: Link, id: ReleaseId, p: Past)
    requires AllOrNothing(d, e, l, id) && d.active == None && SoundState(e, p)
    requires e.active == Some(id) && id in e.records && e.records[id].intent
    ensures Interrupted(e, id)
  {
  }

  lemma ActiveRecord(s: TargetState, p: Past)
    requires SoundState(s, p) && s.active.Some?
    ensures s.active.value in s.records && !Settled(s.records[s.active.value])
  {
  }

  lemma OnlyAtSame(d: TargetState, e: TargetState, id: ReleaseId)
    requires OnlyAt(d, e, id)
    ensures forall i :: i in e.records <==> i in d.records
  {
  }
}
