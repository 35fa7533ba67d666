/** The batch client (scripts/release_http.py): one release on several nodes, remembered in
    a durable file, resumed after any crash, and undone in reverse order.

    The network may lose, delay or repeat a request: whatever was posted to a node may be
    delivered again at any later time, and other clients use the nodes as they like. */
module Batch {
  import opened Release
  import opened State
  import opened Protocol
  import opened Outcomes
  import opened Publisher
  import opened Runs
  import opened Transitions
  import opened Journeys

  datatype NodePhase =
    | Prepared | Sending | CommandSending | CommandAnswered | OutcomeUnknown
    | ResultSaved | TurnedAway | NeedsRecovery

  datatype BatchPhase = Ready | Applying | Incomplete | Restoring | Restored | Updated

  // The fields of a response that the client looks at. A refusal names no phase and no
  // revisions.
  datatype Outcome = Outcome(
    id: ReleaseId,
    status: Status,
    phase: Option<Phase>,
    after: Option<Revision>,
    commit: Option<Commit>,
    digest: Option<Digest>,
    code: Option<ErrorCode>)

  datatype Before = Before(revision: Revision, current: Option<Version>)

  datatype Entry = Entry(
    request: Request,
    phase: NodePhase,
    result: Option<Outcome>,
    restoreRequest: Option<Request>,
    restoreResult: Option<Outcome>)
  {
    function Asked(restore: bool): Option<Request> {
      if restore then restoreRequest else Some(request)
    }

    function Got(restore: bool): Option<Outcome> {
      if restore then restoreResult else result
    }

    function Pinned(d: Option<Digest>): Entry {
      this.(request := request.(digest := d))
    }

    function Noted(restore: bool, o: Option<Outcome>, p: NodePhase): Entry {
      if o.None? then this.(phase := p)
      else if restore then this.(restoreResult := o, phase := p)
      else this.(result := o, phase := p)
    }
  }

  datatype File = File(phase: BatchPhase, digest: Option<Digest>, entries: seq<Entry>)

  datatype Post = Post(node: nat, restore: bool, body: Request, file: File)

  datatype Order = Order(node: nat, restore: bool, reload: bool, file: File)

  // Raised covers ReleaseError and the death of the client.
  datatype Attempt = Raised | Finished(outcome: Outcome)

  // A reply after which the client queries the state once more.
  predicate AskAgain(reply: Reply) {
    match reply
    case Lost => true
    case Rejected(http, reason) => http !in {400, 401, 403, 409, 413} || reason == ReleaseRunning
    case Answer(record, _, _) => record.result.status == Running
  }

  predicate IsTerminal(s: Status) {
    s == Succeeded || s == Skipped || s == Failed
  }

  // The test that makes execute_node return a stored result at once.
  predicate Final(o: Outcome) {
    o.status == Skipped || o.phase == Some(Complete)
  }

  // A result with which an update goes on to the next node.
  predicate Good(o: Option<Outcome>) {
    o.Some? && (o.value.status == Skipped || (o.value.status == Succeeded && o.value.phase == Some(Complete)))
  }

  function Seen(r: Record): Outcome {
    Outcome(r.request.id, r.result.status, Some(r.result.phase), Some(r.result.after), Some(r.request.commit),
            r.result.digest, Some(r.result.code))
  }

  // How a reply reads to a client that asked about `id`.
  function Heard(reply: Reply, id: ReleaseId): Outcome
    requires !reply.Lost?
  {
    if reply.Answer? then Seen(reply.record) else Outcome(id, Failed, None, None, None, None, None)
  }

  // A failure that says nothing about the release: a refusal names no revision, and a
  // superseded release may have been switched.
  predicate Unclear(o: Outcome) {
    o.status == Failed && (o.after.None? || o.code == Some(Superseded))
  }

  // What the client holds is on the node's disk: a success, a skip, or a failure that left
  // the node as it was.
  ghost predicate Confirmed(d: TargetState, id: ReleaseId, o: Outcome) {
    && (o.status == Succeeded ==>
          && id in d.records && o.commit == Some(d.records[id].fingerprint.commit)
          && (o.phase == Some(Complete) ==>
                && CompleteRecord(d.records[id]) && o.after == Some(d.records[id].result.after)
                && o.digest == d.records[id].result.digest))
    && (o.status == Skipped || (o.status == Failed && !Unclear(o)) ==>
          && id in d.records && d.records[id].result.status == o.status && Settled(d.records[id])
          && (o.status == Failed ==> d.records[id].result.code != Superseded))
  }

  // At instant k of a node's run v was current again, under the revision `after`. When that
  // was drawn, at m, `latest` was on v, and v had been reloaded since `latest` was switched
  // there, so after anything else it had been on.
  ghost predicate PutBackAt(h: seq<World>, k: nat, m: nat, v: Option<Version>, after: Revision) {
    && 0 < m <= k < |h| && h[k].disk.revision == after && LinkOf(h[k].disk.current) == LinkOf(v)
    && |h[m - 1].past.pairs| == after && |h[m].past.pairs| == after + 1 && h[m].link == LinkOf(v)
    && ReloadedSince(h[m].past.log, LinkOf(v))
  }

  // The release never moved the node; nor did it touch `latest`, exactly if no attempt came
  // into doubt after announcing its switch.
  ghost predicate LeftAlone(h: seq<World>, id: ReleaseId) {
    NeverMoved(h, id) && (NeverAnnounced(h, id) <==> !Doubted(h, id))
  }

  ghost predicate EntrySound(e: Entry, sent: map<ReleaseId, Request>, d: TargetState,
                             update: ReleaseId, undo: ReleaseId, before: Before)
  {
    && e.request.id == update && e.request.expected == Some(before.revision) && e.request.restoreOf == None
    && (update in sent ==> sent[update] == e.request && e.phase != Prepared)
    && (undo in sent ==> e.restoreRequest == Some(sent[undo]))
    && (e.restoreRequest.Some? ==>
          && e.phase != Prepared
          && e.restoreRequest.value.id == undo && before.current.Some?
          && e.restoreRequest.value.commit == before.current.value.commit)
    && (e.result.Some? ==> e.phase != Prepared && Confirmed(d, update, e.result.value))
    && (e.restoreResult.Some? ==> e.restoreRequest.Some? && Confirmed(d, undo, e.restoreResult.value))
  }

  // A restore request was made when the node was on the commit that the update had put there.
  ghost predicate Replaces(e: Entry, h: seq<World>) {
    e.restoreRequest.Some? ==>
      exists n :: 0 <= n < |h| && Some(h[n].disk.revision) == e.restoreRequest.value.expected
        && LinkOf(h[n].disk.current) == At(e.request.commit)
  }

  // A node is sent its update only after every earlier node is done.
  predicate Ordered(f: File) {
    forall j, k :: 0 <= j < k < |f.entries| && f.entries[k].phase != Prepared ==> Good(f.entries[j].result)
  }

  // A write whose outcome is known, or is taken for known: execute_node asks no more about
  // a complete release, even if its status is recovery_required.
  predicate Resolved(e: Entry) {
    || e.phase == Prepared || e.phase == TurnedAway
    || (e.result.Some? && (IsTerminal(e.result.value.status) || Final(e.result.value)))
  }

  // What the file shows of a node that a restore may leave switched: the update was turned
  // away, or its result is a refusal, a superseded release, or no result at all.
  predicate Doubtful(e: Entry) {
    if e.result.None? then e.phase == TurnedAway
    else !IsTerminal(e.result.value.status) || Unclear(e.result.value)
  }

  predicate Undoing(e: Entry) {
    e.result.Some? && e.result.value.status == Succeeded ==>
      Good(e.restoreResult) && e.restoreResult.value.status == Succeeded
  }

  predicate PhaseSound(f: File, frontend: bool) {
    && (f.phase == Restored ==> forall i :: 0 <= i < |f.entries| ==> Undoing(f.entries[i]) && Resolved(f.entries[i]))
    && (f.phase == Updated ==> forall i :: 0 <= i < |f.entries| ==>
          Good(f.entries[i].result)
          && (frontend ==> f.digest.Some? && f.entries[i].result.value.digest == f.digest))
  }

  /* ---------- What other clients cannot spoil ---------- */

  lemma ConfirmedKept(h: seq<World>, i: nat, id: ReleaseId, o: Outcome)
    requires Run(h) && i < |h| && Frozen(h[i].disk, h[|h| - 1].disk) && Confirmed(h[i].disk, id, o)
    ensures Confirmed(h[|h| - 1].disk, id, o)
  {
    hide Run;
    if id in h[i].disk.records {
      RecordsLast(h, i, |h| - 1, id);
    }
  }

  lemma EntryKept(e: Entry, sent: map<ReleaseId, Request>, h: seq<World>, i: nat,
                  update: ReleaseId, undo: ReleaseId, before: Before)
    requires Run(h) && i < |h| && Frozen(h[i].disk, h[|h| - 1].disk)
    requires EntrySound(e, sent, h[i].disk, update, undo, before)
    ensures EntrySound(e, sent, h[|h| - 1].disk, update, undo, before)
  {
    hide Run, Confirmed, Frozen;
    if e.result.Some? {
      ConfirmedKept(h, i, update, e.result.value);
    }
    if e.restoreResult.Some? {
      ConfirmedKept(h, i, undo, e.restoreResult.value);
    }
  }

  // Entry i alone has moved on, in the part that an attempt may change.
  predicate Advanced(a: File, b: File, i: nat, restore: bool) {
    && b.phase == a.phase && b.digest == a.digest && i < |a.entries| && |b.entries| == |a.entries|
    && b.entries == a.entries[i := b.entries[i]]
    && var (e, f) := (a.entries[i], b.entries[i]);
       && f.request == e.request && f.restoreRequest == e.restoreRequest
       && f.Got(!restore) == e.Got(!restore)
       && (Good(e.result) ==> f.result == e.result)
       && (e.phase != Prepared ==> f.phase != Prepared)
  }

  // How far a release is from its last command.
  function CommandsLeft(p: Option<Phase>): nat {
    if p == Some(LatestSwitched) || p == Some(Phase.NginxTest) then 2
    else if p == Some(NginxTestSucceeded) || p == Some(Phase.Reload) || p == Some(Phase.VerifyActivation) then 1
    else 0
  }

  // An answer that is as it should be is heard as what it says.
  lemma AnswerHeard(node: Node, reply: Reply, id: ReleaseId, o: Outcome, reload: bool)
    ensures Forwarded(node, id, o, reload, Some(reply)) ==>
      var heard := Heard(reply, id);
      && heard.id == id && heard.status == Succeeded && heard.digest == o.digest
      && (if reload then heard.phase == Some(Complete) && IsThrough(node, id, heard)
          else heard.phase == Some(NginxTestSucceeded) && Ripe(node, id, heard))
  {
  }

  // What the client may have heard about `id` is true of the node's disk.
  ghost predicate Truthful(reply: Option<Reply>, d: TargetState, id: ReleaseId) {
    reply.Some? ==>
      && !reply.value.Lost?
      && (Heard(reply.value, id).id == id ==> Confirmed(d, id, Heard(reply.value, id)))
  }

  lemma CommandConfirmed(e: TargetState, p: Past, id: ReleaseId, reply: Reply)
    requires SoundState(e, p)
    requires reply.Answer? && reply.record.result.status != RecoveryRequired ==>
      id in e.records && reply.record == e.records[id]
    ensures !reply.Lost? ==> Truthful(Some(reply), e, id)
  {
  }

  lemma AppliedConfirmed(d: TargetState, e: TargetState, p: Past, req: Request, frontend: bool, reply: Reply)
    requires SoundState(e, p) && !reply.Lost?
    requires !Admissible(d, req, frontend) ==> e == d && Refusal(d, req, frontend, reply)
    requires Admissible(d, req, frontend) && reply.Answer? && reply.replayed ==> reply.record.request.id != req.id
    requires Admissible(d, req, frontend) && reply.Answer? && !reply.replayed ==>
      || reply.record.result.status == RecoveryRequired
      || (req.id in e.records && reply.record == e.records[req.id])
    ensures Truthful(Some(reply), e, req.id)
  {
  }

  lemma OnlyAtOrSame(d: TargetState, e: TargetState, id: ReleaseId)
    requires e == d || OnlyAt(d, e, id)
    ensures forall i :: i in e.records ==> i in d.records
  {
  }

  function Carrying(net: seq<map<ReleaseId, Request>>, i: nat, body: Request): seq<map<ReleaseId, Request>>
    requires i < |net|
  {
    var more: map<ReleaseId, Request> := net[i][body.id := body];
    net[i := more]
  }

  lemma EntrySent(e: Entry, sent: map<ReleaseId, Request>, d: TargetState, update: ReleaseId, undo: ReleaseId,
                  before: Before, restore: bool, body: Request)
    requires EntrySound(e, sent, d, update, undo, before) && update != undo
    requires e.Asked(restore) == Some(body) && e.phase != Prepared
    ensures EntrySound(e, sent[body.id := body], d, update, undo, before)
    ensures body.id == (if restore then undo else update)
    ensures body.id in sent ==> sent[body.id] == body
  {
  }

  lemma BoundSent(d: TargetState, sent: map<ReleaseId, Request>, mine: set<ReleaseId>, body: Request)
    requires Bound(d, sent, mine) && (body.id in sent ==> sent[body.id] == body)
    ensures Bound(d, sent[body.id := body], mine)
  {
  }

  lemma EntryNoted(e: Entry, sent: map<ReleaseId, Request>, d: TargetState, update: ReleaseId, undo: ReleaseId,
                   before: Before, restore: bool, o: Option<Outcome>, p: NodePhase)
    requires EntrySound(e, sent, d, update, undo, before) && p != Prepared
    requires e.Asked(restore).Some?
    requires o.Some? ==> Confirmed(d, if restore then undo else update, o.value)
    ensures EntrySound(e.Noted(restore, o, p), sent, d, update, undo, before)
  {
  }

  function UndoRequest(e: Entry, o: Outcome, baseline: Version, undo: ReleaseId, frontend: bool): Request {
    e.request.(id := undo, expected := o.after, restoreOf := Some(e.request.id), commit := baseline.commit,
               version := baseline.version, digest := if frontend then baseline.artifact else e.request.digest)
  }

  // The baseline that a node keeps for our update is what preflight read there.
  lemma BaselineAsRead(h: seq<World>, i: nat, e: TargetState, id: ReleaseId, before: Before,
                       sent: map<ReleaseId, Request>, mine: set<ReleaseId>)
    requires Run(h) && i < |h| && h[|h| - 1].disk == e && id in e.records && id in mine && Bound(e, sent, mine)
    requires id in sent && sent[id].expected == Some(before.revision)
    requires h[i].disk.revision == before.revision && h[i].disk.current == before.current
    ensures e.records[id].baseline == before.current
  {
    BaselineIsWhatWasRead(h, i, |h| - 1, id);
  }

  lemma InstalledPairOf(h: seq<World>, k: nat)
    requires Run(h) && k < |h|
    ensures h[k].disk.revision < |h[k].past.pairs|
    ensures h[k].past.pairs[h[k].disk.revision].current == h[k].disk.current
  {
    assert Sound(h[k]);
  }

  // The instant at which the revision of instant k was drawn.
  lemma DrawnFor(h: seq<World>, k: nat, j: nat) returns (m: nat)
    requires Run(h) && k <= j < |h| && h[k].disk.revision > 0
    ensures 0 < m <= k && |h[m - 1].past.pairs| == h[k].disk.revision
    ensures |h[m].past.pairs| == h[k].disk.revision + 1 && h[m].link == LinkOf(h[k].disk.current)
    ensures h[k].disk.revision in h[j].past.activated ==> ReloadedSince(h[m].past.log, h[m].link)
  {
    hide Run, ReloadedSince;
    InstalledPairOf(h, k);
    RunLater(h, k, j);
    m := DrawnInstant(h, j, h[k].disk.revision);
    if m > k {
      RunLater(h, k, m - 1);
    }
  }

  // A completed release that was asked for with the revision of instant n.
  lemma RestoreInstalled(h: seq<World>, n: nat, id: ReleaseId) returns (k: nat, m: nat)
    requires Run(h) && n < |h| && id in h[|h| - 1].disk.records && CompleteRecord(h[|h| - 1].disk.records[id])
    requires h[|h| - 1].disk.records[id].fingerprint.expected == Some(h[n].disk.revision)
    ensures k < |h| && h[k].disk.revision == h[|h| - 1].disk.records[id].result.after
    ensures PutBackAt(h, k, m, h[k].disk.current, h[k].disk.revision)
    ensures LinkOf(h[k].disk.current) == At(h[|h| - 1].disk.records[id].fingerprint.commit)
    ensures h[k].disk.previous == h[n].disk.current
  {
    hide Run, ReloadedSince;
    k := CompletedWasCurrent(h, |h| - 1, id);
    BaselineIsWhatWasRead(h, n, |h| - 1, id);
    CompleteFacts(h, id);
    m := DrawnFor(h, k, |h| - 1);
  }

  // A release that reports its own rollback.
  lemma RollbackInstalled(h: seq<World>, id: ReleaseId) returns (k: nat, m: nat)
    requires Run(h) && |h| > 0 && id in h[|h| - 1].disk.records
    requires h[|h| - 1].disk.records[id].result.phase == RolledBack
    ensures k < |h| && h[k].disk.revision == h[|h| - 1].disk.records[id].result.after
    ensures PutBackAt(h, k, m, h[k].disk.current, h[k].disk.revision)
    ensures h[k].disk.current == h[|h| - 1].disk.records[id].baseline
  {
    k := RolledBackWasCurrent(h, |h| - 1, id);
    assert Sound(h[|h| - 1]) && SoundEntry(h[|h| - 1].disk, id, h[|h| - 1].past);
    hide Run, ReloadedSince;
    m := DrawnFor(h, k, |h| - 1);
  }

  lemma CompleteFacts(h: seq<World>, id: ReleaseId)
    requires Run(h) && |h| > 0 && id in h[|h| - 1].disk.records && CompleteRecord(h[|h| - 1].disk.records[id])
    ensures var (r, p) := (h[|h| - 1].disk.records[id], h[|h| - 1].past);
      && r.result.after > 0 && r.result.after in p.activated
      && LinkOf(r.candidate) == At(r.fingerprint.commit)
  {
    assert Sound(h[|h| - 1]) && SoundEntry(h[|h| - 1].disk, id, h[|h| - 1].past);
  }

  /* ---------- When nothing stands in the way ---------- */

  // A node that works, and on which nothing has happened.
  twostate predicate Still(node: Node)
    reads node
  {
    && node.disk == old(node.disk) && node.link == old(node.link)
    && node.up == old(node.up) && node.blocked == old(node.blocked) && node.trouble == old(node.trouble)
  }

  predicate Works(node: Node)
    reads node
  {
    node.up && !node.blocked
  }

  // A release that the node answers for, at the point where its next command may be sent.
  ghost predicate Ripe(node: Node, id: ReleaseId, o: Outcome)
    reads node
  {
    RipeAt(node, node.disk, node.link, Works(node), id, o)
  }

  ghost predicate IsThrough(node: Node, id: ReleaseId, o: Outcome)
    reads node
  {
    && Works(node) && id in node.disk.records && Seen(node.disk.records[id]) == o && o.id == id
    && o.status == Succeeded && o.phase == Some(Complete)
  }

  // The body will be let in, and if its version is current already, there is no release of
  // that version left whose commands are outstanding.
  ghost predicate Welcome(node: Node, body: Request)
    reads node
  {
    Works(node) && WelcomeAt(node, node.disk, node.link, body)
  }

  ghost predicate WelcomeAt(node: Node, d: TargetState, l: Link, body: Request) {
    && body.id !in d.records && Admissible(d, body, node.frontend)
    && (CurrentlyAt(node, d, l, body) ==> forall q :: q in d.records ==> !Pending(d.records[q], d.current.value))
  }

  ghost predicate Currently(node: Node, body: Request)
    reads node
  {
    CurrentlyAt(node, node.disk, node.link, body)
  }

  ghost predicate CurrentlyAt(node: Node, d: TargetState, l: Link, body: Request) {
    node.IsCurrently(d, l, body.commit, node.SourceOf(body.digest))
  }

  // What the reply to a welcome body says: staged, or skipped if it is current.
  ghost predicate TakenIn(node: Node, body: Request, skipped: bool, reply: Option<Reply>)
    reads node
  {
    && Works(node) && reply.Some? && reply.value.Answer? && reply.value.http == 200 && !reply.value.replayed
    && var o := Seen(reply.value.record);
       && o.id == body.id && (body.digest.Some? ==> o.digest == body.digest)
       && (if skipped then o.status == Skipped
           else
             && Ripe(node, body.id, o) && o.phase == Some(LatestSwitched)
             && (node.frontend && body.restoreOf.None? ==> o.digest.Some?))
  }

  lemma TakenHeard(node: Node, body: Request, skipped: bool, reply: Option<Reply>)
    ensures TakenIn(node, body, skipped, reply) ==>
      reply.Some? && reply.value.Answer? && Heard(reply.value, body.id).id == body.id && !AskAgain(reply.value)
  {
  }

  // How an attempt at a welcome body ends: through, or skipped; with the digest it asked for.
  ghost predicate WentWell(node: Node, body: Request, skipped: bool, r: Attempt)
    reads node
  {
    && r.Finished? && (body.digest.Some? ==> r.outcome.digest == body.digest)
    && (if skipped then r.outcome.status == Skipped
        else
          && IsThrough(node, body.id, r.outcome)
          && (node.frontend && body.restoreOf.None? ==> r.outcome.digest.Some?))
  }

  // An end that the client takes for one.
  predicate Over(o: Outcome) {
    IsTerminal(o.status) && (o.status == Succeeded ==> o.phase == Some(Complete))
  }

  // How an attempt at a release that the node knows already ends; `e` is its entry then.
  ghost predicate EndsAs(node: Node, seen: Outcome, ripe: bool, restore: bool, e: Entry, r: Attempt)
    reads node
  {
    && (Over(seen) ==> r == Finished(seen))
    && (ripe ==> r.Finished? && IsThrough(node, seen.id, r.outcome) && r.outcome.digest == seen.digest)
    && (seen.status == RecoveryRequired ==> r == Raised && e.phase == NeedsRecovery && e.Got(restore) == Some(seen))
  }

  lemma StillAtIt(node: Node, d: TargetState, l: Link, works: bool, id: ReleaseId, restore: bool, e: Entry, r: Attempt)
    requires id in d.records && d.records[id].result.status == Running
    ensures var seen := Seen(d.records[id]);
      EndsAs(node, seen, RipeAt(node, d, l, works, id, seen), restore, e, r)
  {
  }

  lemma StagedIsRipe(node: Node, d: TargetState, body: Request, reply: Reply)
    requires node.Valid() && Works(node) && Admissible(d, body, node.frontend)
    requires WentForward(d, node.disk, node.link, body.id) && Answered(reply, Succeeded) && !reply.replayed
    requires reply == Answer(node.disk.records[body.id], 200, false)
    requires node.disk.records[body.id].result.phase == LatestSwitched
    requires node.RightCandidate(node.disk.current, d.records, Effective(d, body, node.frontend))
    requires node.disk.current.Some?
    requires node.disk.current.value.artifact == node.disk.records[body.id].result.digest
    ensures TakenIn(node, body, false, Some(reply))
  {
    hide SoundState, Run;
    node.LiveWorld();
    RecordNamed(node.disk, body.id, node.past);
  }

  lemma SkippedIsTaken(node: Node, d: TargetState, l: Link, body: Request, reply: Reply)
    requires node.Valid() && Works(node) && WelcomeAt(node, d, l, body) && CurrentlyAt(node, d, l, body)
    requires reply.Answer? && node.FoundCurrent(d, body, reply)
    requires !reply.replayed ==> reply.record.result.digest == Effective(d, body, node.frontend).digest
    ensures TakenIn(node, body, true, Some(reply))
  {
    hide SoundState, Run;
    node.LiveWorld();
    if !reply.replayed {
      RecordNamed(node.disk, body.id, node.past);
    }
  }

  // `quiet`: nothing happened in between, and the node answered.
  method Observe(node: Node, id: ReleaseId, sent: map<ReleaseId, Request>, mine: set<ReleaseId>)
    returns (answer: LiveState, ghost quiet: bool)
    requires node.Valid() && Bound(node.disk, sent, mine)
    modifies node
    ensures node.Valid() && old(node.hist) <= node.hist && Bound(node.disk, sent, mine)
    ensures Frozen(old(node.disk), node.disk)
    ensures answer.Live? ==>
      && id in node.disk.records && answer.release == Some(node.disk.records[id])
      && answer.revision == node.disk.revision && answer.current == node.disk.current
    ensures quiet ==> Still(node) && (if id in node.disk.records then answer.Live? else answer.NotFound?)
  {
    hide Run, Frozen, Bound;
    ghost var d, l, up, blocked, t := node.disk, node.link, node.up, node.blocked, node.trouble;
    Disturb(node, sent, mine);
    quiet := node.disk == d && node.link == l && node.up == up && node.blocked == blocked && node.trouble == t;
    answer := node.Query(Some(id));
    quiet := quiet && node.trouble == t;
  }

  // The reply to an /apply body, unless it is lost on the way back.
  method DeliverApply(node: Node, body: Request, sent: map<ReleaseId, Request>, mine: set<ReleaseId>)
    returns (reply: Option<Reply>, ghost quiet: bool)
    requires node.Valid() && Bound(node.disk, sent, mine) && body.id in sent && sent[body.id] == body
    modifies node
    ensures node.Valid() && old(node.hist) <= node.hist && Bound(node.disk, sent, mine)
    ensures Frozen(old(node.disk), node.disk)
    ensures Truthful(reply, node.disk, body.id)
    ensures quiet && old(Welcome(node, body)) ==> TakenIn(node, body, old(Currently(node, body)), reply)
  {
    hide Run, Frozen, Bound, FrozenBut, Truthful, WelcomeAt, TakenIn;
    ghost var n, trouble := |node.hist| - 1, node.trouble;
    assert node.hist[n].disk == node.disk;
    var now: Time, heard: bool := *, *;
    var r := RunBody(node, body, now);
    DeliveredBound(node.hist, n, node.disk, body, sent, mine);
    NothingHeard(node.disk, body.id);
    reply := if heard && r != Lost then Some(r) else None;
    quiet := heard && node.trouble == trouble;
  }

  lemma NothingHeard(d: TargetState, id: ReleaseId)
    ensures Truthful(None, d, id)
  {
  }

  method RunBody(node: Node, body: Request, now: Time) returns (r: Reply)
    requires node.Valid()
    modifies node
    ensures node.Valid() && old(node.hist) <= node.hist
    ensures Frozen(old(node.disk), node.disk) && FrozenBut(Origin(old(node.disk), body), node.disk, body.id)
    ensures r != Lost ==> Truthful(Some(r), node.disk, body.id)
    ensures node.trouble == old(node.trouble) && old(Welcome(node, body)) ==>
      r != Lost && TakenIn(node, body, old(Currently(node, body)), Some(r))
  {
    hide Run, Frozen, Admissible, Refusal, AllOrNothing, SoundState, FrozenBut, Heard, Confirmed, Begun,
         WentForward, WentBack, WelcomeAt, TakenIn, EndsWith;
    ghost var d, l, trouble := node.disk, node.link, node.trouble;
    ghost var welcome, currently := Welcome(node, body), Currently(node, body);
    if welcome {
      WelcomeIsAdmissible(node, d, l, body);
    }
    r := node.Apply(body, now, true);
    node.LiveWorld();
    if r != Lost {
      if Answered(r, Succeeded) && !r.replayed {
        ForwardRecord(d, node.disk, node.link, body.id);
      }
      AppliedConfirmed(d, node.disk, node.past, body, node.frontend, r);
    }
    if node.trouble == trouble && welcome {
      if currently {
        SkippedIsTaken(node, d, l, body, r);
      } else {
        StagedIsRipe(node, d, body, r);
      }
    }
  }

  lemma ForwardRecord(d: TargetState, e: TargetState, l: Link, id: ReleaseId)
    requires WentForward(d, e, l, id)
    ensures id in e.records
  {
  }

  lemma WelcomeIsAdmissible(node: Node, d: TargetState, l: Link, body: Request)
    requires WelcomeAt(node, d, l, body)
    ensures Admissible(d, body, node.frontend)
  {
  }

  lemma DeliveredBound(h: seq<World>, n: nat, e: TargetState, body: Request,
                       sent: map<ReleaseId, Request>, mine: set<ReleaseId>)
    requires Run(h) && n < |h| && h[|h| - 1].disk == e && Bound(h[n].disk, sent, mine)
    requires body.id in sent && sent[body.id] == body
    requires FrozenBut(Origin(h[n].disk, body), e, body.id)
    ensures Bound(e, sent, mine)
  {
    BoundKept(h, n, e, sent, mine);
  }

  method DeliverCommand(node: Node, id: ReleaseId, reload: bool, sent: map<ReleaseId, Request>, mine: set<ReleaseId>)
    returns (reply: Option<Reply>, ghost quiet: bool)
    requires node.Valid() && Bound(node.disk, sent, mine)
    modifies node
    ensures node.Valid() && old(node.hist) <= node.hist && Bound(node.disk, sent, mine)
    ensures Frozen(old(node.disk), node.disk)
    ensures Truthful(reply, node.disk, id)
    ensures quiet ==> forall o :: old(Ripe(node, id, o)) && CommandsLeft(o.phase) == (if reload then 1 else 2) ==>
      Forwarded(node, id, o, reload, reply)
  {
    hide Run, Frozen, Bound, SoundState, Heard, Confirmed, Ripe, Forwarded, CommandsLeft;
    ghost var n, trouble := |node.hist| - 1, node.trouble;
    assert node.hist[n].disk == node.disk;
    var now: Time, heard: bool := *, *;
    var r := RunStep(node, id, reload, now);
    BoundKept(node.hist, n, node.disk, sent, mine);
    node.LiveWorld();
    CommandConfirmed(node.disk, node.past, id, r);
    reply := if heard && r != Lost then Some(r) else None;
    quiet := heard && node.trouble == trouble;
  }

  method RunStep(node: Node, id: ReleaseId, reload: bool, now: Time) returns (r: Reply)
    requires node.Valid()
    modifies node
    ensures node.Valid() && old(node.hist) <= node.hist
    ensures Frozen(old(node.disk), node.disk)
    ensures forall i :: i in node.disk.records ==> i in old(node.disk).records
    ensures r.Answer? && r.record.result.status != RecoveryRequired ==>
      id in node.disk.records && r.record == node.disk.records[id]
    ensures node.trouble == old(node.trouble) ==> forall o ::
      old(Ripe(node, id, o)) && CommandsLeft(o.phase) == (if reload then 1 else 2) ==>
        r != Lost && Forwarded(node, id, o, reload, Some(r))
  {
    hide Run, Frozen, SoundState, InHand, RipeAt, Forwarded, CommandsLeft;
    ghost var d, l, works, trouble := node.disk, node.link, Works(node), node.trouble;
    if reload {
      r := node.NginxReload(id, now);
    } else {
      r := node.NginxTest(id, now);
    }
    OnlyAtOrSame(d, node.disk, id);
    if node.trouble == trouble {
      forall o | old(Ripe(node, id, o)) && CommandsLeft(o.phase) == (if reload then 1 else 2)
        ensures r != Lost && Forwarded(node, id, o, reload, Some(r))
      {
        if reload {
          RipeReload(node, d, l, works, id, o);
          ReloadForwards(node, d, l, works, id, o, r);
        } else {
          RipeTest(node, d, l, works, id, o);
          TestForwards(node, d, l, works, id, now, o, r);
        }
      }
    }
  }

  lemma RipeReload(node: Node, d: TargetState, l: Link, works: bool, id: ReleaseId, o: Outcome)
    requires RipeAt(node, d, l, works, id, o) && CommandsLeft(o.phase) == 1
    ensures works && node.CanReload(d, l, id)
  {
  }

  lemma RipeTest(node: Node, d: TargetState, l: Link, works: bool, id: ReleaseId, o: Outcome)
    requires RipeAt(node, d, l, works, id, o) && CommandsLeft(o.phase) == 2
    ensures works && node.CanTest(d, l, id)
  {
  }

  lemma ReloadForwards(node: Node, d: TargetState, l: Link, works: bool, id: ReleaseId, o: Outcome, r: Reply)
    requires RipeAt(node, d, l, works, id, o) && CommandsLeft(o.phase) == 1 && Works(node) && node.Valid()
    requires node.CommandDone(d, node.disk, node.link, id, r)
    ensures Forwarded(node, id, o, true, Some(r))
  {
    hide Run, SoundState;
    node.LiveWorld();
    RecordNamed(node.disk, id, node.past);
  }

  lemma TestForwards(node: Node, d: TargetState, l: Link, works: bool, id: ReleaseId, now: Time, o: Outcome, r: Reply)
    requires RipeAt(node, d, l, works, id, o) && CommandsLeft(o.phase) == 2 && Works(node) && node.Valid()
    requires node.disk == TestedState(InPhase(d, id, Phase.NginxTest), id, now) && node.link == l
    requires r == Answer(node.disk.records[id], 200, false)
    ensures Forwarded(node, id, o, false, Some(r))
  {
    hide Run, SoundState;
    TestedIsReady(node, d, l, id, now);
    node.LiveWorld();
    RecordNamed(node.disk, id, node.past);
  }

  predicate RipeAt(node: Node, d: TargetState, l: Link, works: bool, id: ReleaseId, o: Outcome) {
    && works && id in d.records && Seen(d.records[id]) == o && o.status == Succeeded && o.id == id
    && (|| (o.phase == Some(LatestSwitched) && node.CanTest(d, l, id))
        || (o.phase == Some(NginxTestSucceeded) && node.CanReload(d, l, id)))
  }

  // A command has brought a release one step on.
  ghost predicate Forwarded(node: Node, id: ReleaseId, o: Outcome, reload: bool, reply: Option<Reply>)
    reads node
  {
    && reply.Some? && reply.value.Answer? && reply.value.http == 200
    && var next := Seen(reply.value.record);
       && next.digest == o.digest && next.commit == o.commit
       && (if reload then IsThrough(node, id, next)
           else Ripe(node, id, next) && next.phase == Some(NginxTestSucceeded))
  }

  function OurIds(updateIds: seq<ReleaseId>, undoIds: seq<ReleaseId>): set<ReleaseId> {
    (set i | i in updateIds) + (set i | i in undoIds)
  }

  function FirstEntry(request: Request, b: Before, id: ReleaseId): Entry {
    Entry(request.(id := id, expected := Some(b.revision)), Prepared, None, None, None)
  }

  function FirstFile(request: Request, before: seq<Before>, ids: seq<ReleaseId>): File
    requires |before| == |ids|
  {
    File(Ready, None, seq(|ids|, i requires 0 <= i < |ids| => FirstEntry(request, before[i], ids[i])))
  }

  lemma FirstSound(request: Request, b: Before, update: ReleaseId, undo: ReleaseId, d: TargetState,
                   h: seq<World>)
    requires request.restoreOf.None?
    ensures EntrySound(FirstEntry(request, b, update), map[], d, update, undo, b)
    ensures Replaces(FirstEntry(request, b, update), h)
  {
  }

  // preflight: what every node is on, read once before anything is sent.
  method Preflight(nodes: seq<Node>, mine: set<ReleaseId>)
    returns (ok: bool, before: seq<Before>, ghost readAt: seq<nat>)
    requires forall i :: 0 <= i < |nodes| ==> nodes[i].Valid() && Bound(nodes[i].disk, map[], mine)
    requires forall i, j :: 0 <= i < j < |nodes| ==> nodes[i] != nodes[j]
    modifies nodes
    ensures forall i :: 0 <= i < |nodes| ==> nodes[i].Valid() && Bound(nodes[i].disk, map[], mine)
    ensures ok ==> |before| == |nodes| && |readAt| == |nodes|
    ensures ok ==> forall i :: 0 <= i < |nodes| ==> ReadAt(nodes[i], readAt[i], before[i])
  {
    hide Run, Frozen, Bound;
    ok, before, readAt := true, [], [];
    for i := 0 to |nodes|
      invariant |before| == i && |readAt| == i
      invariant forall j :: 0 <= j < |nodes| ==> nodes[j].Valid() && Bound(nodes[j].disk, map[], mine)
      invariant forall j :: 0 <= j < i ==> ReadAt(nodes[j], readAt[j], before[j])
    {
      Disturb(nodes[i], map[], mine);
      var answer := nodes[i].Query(None);
      if !answer.Live? {
        return false, [], [];
      }
      ghost var n := |nodes[i].hist| - 1;
      assert nodes[i].hist[n].disk == nodes[i].disk;
      before := before + [Before(answer.revision, answer.current)];
      readAt := readAt + [n];
    }
  }

  ghost predicate ReadAt(node: Node, n: nat, b: Before)
    reads node
  {
    n < |node.hist| && node.hist[n].disk.revision == b.revision && node.hist[n].disk.current == b.current
  }

  // Entry i may be undone now: no write is unknown and every later entry is undone.
  predicate UndoTurn(f: File, i: nat) {
    && i < |f.entries| && f.entries[i].result.Some? && IsTerminal(f.entries[i].result.value.status)
    && (forall j :: 0 <= j < |f.entries| ==> Resolved(f.entries[j]))
    && (forall j :: i < j < |f.entries| ==> Undoing(f.entries[j]))
  }

  // The file names the command that is about to be sent, and the success it builds on.
  predicate Announced(o: Order) {
    && o.node < |o.file.entries| && o.file.entries[o.node].phase == CommandSending
    && o.file.entries[o.node].Got(o.restore).Some?
    && o.file.entries[o.node].Got(o.restore).value.status == Succeeded
    && CommandsLeft(o.file.entries[o.node].Got(o.restore).value.phase) == if o.reload then 1 else 2
  }

  class Client {
    const nodes: seq<Node>
    const before: seq<Before>            // what preflight read from each node
    const updateIds: seq<ReleaseId>      // UUIDs, one per request. One that was drawn but
    const undoIds: seq<ReleaseId>        // never made durable was never sent either.
    const frontend: bool
    const restorePolicy: bool
    ghost const readAt: seq<nat>         // the instant of each node's run that preflight read

    var file: File                       // the durable batch file
    var batch: File                      // the dictionary in memory
    var running: bool
    var network: seq<map<ReleaseId, Request>>  // bodies that may still be delivered
    ghost var posts: seq<Post>           // every POST to /apply with the file behind it
    ghost var orders: seq<Order>         // every nginx command likewise
    ghost var upset: nat                 // what has stood in the client's way so far

    function Mine(): set<ReleaseId> {
      OurIds(updateIds, undoIds)
    }

    ghost predicate Shape()
      reads `network
    {
      && |before| == |nodes| && |readAt| == |nodes| && |network| == |nodes|
      && DistinctIds(|nodes|, updateIds, undoIds)
      && (forall i, j :: 0 <= i < j < |nodes| ==> nodes[i] != nodes[j])
    }

    ghost predicate SiteSound(i: nat)
      requires Shape() && i < |nodes|
      reads `network, nodes[i]
    {
      && nodes[i].Valid() && Bound(nodes[i].disk, network[i], Mine())
      && (forall id :: id in network[i] ==> id == updateIds[i] || id == undoIds[i])
      && ReadAt(nodes[i], readAt[i], before[i])
    }

    ghost predicate FileSound(f: File)
      requires Shape()
      reads `network, nodes
    {
      && |f.entries| == |nodes|
      && (forall i :: 0 <= i < |nodes| ==>
            && EntrySound(f.entries[i], network[i], nodes[i].disk, updateIds[i], undoIds[i], before[i])
            && Replaces(f.entries[i], nodes[i].hist))
      && Ordered(f) && PhaseSound(f, frontend)
    }

    ghost predicate PostSound(p: Post)
      requires Shape()
      reads `network
    {
      && p.node < |nodes| && p.body.id in network[p.node] && network[p.node][p.body.id] == p.body
      && p.node < |p.file.entries| && p.file.entries[p.node].Asked(p.restore) == Some(p.body)
      && p.body.id == (if p.restore then undoIds else updateIds)[p.node]
      && p.file.entries[p.node].phase != Prepared && Ordered(p.file)
      && (p.restore ==> UndoTurn(p.file, p.node))
    }

    ghost predicate Valid()
      reads this, nodes
    {
      && Shape()
      && (forall i :: 0 <= i < |nodes| ==> SiteSound(i))
      && FileSound(file) && (running ==> FileSound(batch))
      && (forall n :: 0 <= n < |posts| ==> PostSound(posts[n]))
      && (forall n :: 0 <= n < |orders| ==> Announced(orders[n]))
    }

    // The first save of a batch, after preflight. Its UUIDs are new to every node.
    constructor (nodes: seq<Node>, before: seq<Before>, ghost readAt: seq<nat>, request: Request, frontend: bool,
                 restorePolicy: bool, updateIds: seq<ReleaseId>, undoIds: seq<ReleaseId>)
      requires |before| == |nodes| && |readAt| == |nodes| && DistinctIds(|nodes|, updateIds, undoIds)
      requires forall i, j :: 0 <= i < j < |nodes| ==> nodes[i] != nodes[j]
      requires forall i :: 0 <= i < |nodes| ==> nodes[i].Valid() && ReadAt(nodes[i], readAt[i], before[i])
      requires forall i :: 0 <= i < |nodes| ==> Bound(nodes[i].disk, map[], OurIds(updateIds, undoIds))
      requires request.restoreOf.None?
      ensures Valid() && this.nodes == nodes && this.before == before && posts == []
      ensures running && file == batch && file.phase == Ready
      ensures forall i :: 0 <= i < |nodes| ==>
        && file.entries[i].phase == Prepared
        && file.entries[i].request == request.(id := updateIds[i], expected := Some(before[i].revision))
    {
      this.nodes, this.before, this.readAt := nodes, before, readAt;
      this.updateIds, this.undoIds, this.frontend, this.restorePolicy := updateIds, undoIds, frontend, restorePolicy;
      file, batch, running := FirstFile(request, before, updateIds), FirstFile(request, before, updateIds), true;
      network := seq(|nodes|, i => map[]);
      posts, orders, upset := [], [], 0;
      new;
      hide Run, Confirmed, Undoing, Good, ReadAt, Bound, EntrySound, Replaces;
      forall i | 0 <= i < |nodes|
        ensures SiteSound(i) && Replaces(file.entries[i], nodes[i].hist)
        ensures EntrySound(file.entries[i], network[i], nodes[i].disk, updateIds[i], undoIds[i], before[i])
      {
        FirstSound(request, before[i], updateIds[i], undoIds[i], nodes[i].disk, nodes[i].hist);
      }
    }

    // A client on an existing batch file, with requests that may still be on their way.
    constructor Resumed(nodes: seq<Node>, before: seq<Before>, ghost readAt: seq<nat>, frontend: bool,
                        restorePolicy: bool, updateIds: seq<ReleaseId>, undoIds: seq<ReleaseId>, file: File,
                        network: seq<map<ReleaseId, Request>>)
      requires |before| == |nodes| == |network| && |readAt| == |nodes| == |file.entries|
      requires DistinctIds(|nodes|, updateIds, undoIds)
      requires forall i, j :: 0 <= i < j < |nodes| ==> nodes[i] != nodes[j]
      requires forall i :: 0 <= i < |nodes| ==>
        && nodes[i].Valid() && ReadAt(nodes[i], readAt[i], before[i])
        && Bound(nodes[i].disk, network[i], OurIds(updateIds, undoIds))
        && (forall id :: id in network[i] ==> id == updateIds[i] || id == undoIds[i])
        && EntrySound(file.entries[i], network[i], nodes[i].disk, updateIds[i], undoIds[i], before[i])
        && Replaces(file.entries[i], nodes[i].hist)
      requires Ordered(file) && PhaseSound(file, frontend)
      ensures Valid() && this.nodes == nodes && this.before == before && this.file == file && !running
      ensures this.updateIds == updateIds && this.undoIds == undoIds && this.network == network
    {
      this.nodes, this.before, this.readAt := nodes, before, readAt;
      this.updateIds, this.undoIds, this.frontend, this.restorePolicy := updateIds, undoIds, frontend, restorePolicy;
      this.file, batch, running, this.network := file, file, false, network;
      posts, orders, upset := [], [], 0;
      new;
      hide Run, Confirmed, Undoing, Good, ReadAt, Bound, EntrySound, Replaces, Ordered, PhaseSound;
      forall i | 0 <= i < |this.nodes| ensures SiteSound(i) {
      }
    }

    /* ---------- Atomic actions ---------- */

    // A restarted client knows what its file says.
    method Reload()
      requires Valid()
      modifies this`running, this`batch
      ensures Valid() && running && batch == file
    {
      batch, running := file, true;
    }

    // atomic_save. After an error, which may come after the rename, the client is gone.
    method Store() returns (ok: bool)
      requires Valid()
      modifies this`file, this`running, this`upset
      ensures Valid()
      ensures file == old(file) || file == batch
      ensures ok ==> running && file == batch
      ensures running ==> ok
      ensures upset == old(upset) + if ok then 0 else 1
    {
      ok := false;
      if running {
        var landed, reported: bool := *, *;
        if landed {
          file := batch;
        }
        ok := landed && reported;
        running := ok;
      }
      upset := upset + if ok then 0 else 1;
    }

    // The run of node i has grown from h.
    lemma EntryMoved(i: nat, h: seq<World>, f: File)
      requires Shape() && i < |nodes| && i < |f.entries|
      requires nodes[i].Valid() && 0 < |h| && h <= nodes[i].hist && Frozen(h[|h| - 1].disk, nodes[i].disk)
      requires EntrySound(f.entries[i], network[i], h[|h| - 1].disk, updateIds[i], undoIds[i], before[i])
      requires Replaces(f.entries[i], h)
      ensures EntrySound(f.entries[i], network[i], nodes[i].disk, updateIds[i], undoIds[i], before[i])
      ensures Replaces(f.entries[i], nodes[i].hist)
    {
      hide Run, Frozen, EntrySound;
      EntryKept(f.entries[i], network[i], nodes[i].hist, |h| - 1, updateIds[i], undoIds[i], before[i]);
      if f.entries[i].restoreRequest.Some? {
        var n :| 0 <= n < |h| && Some(h[n].disk.revision) == f.entries[i].restoreRequest.value.expected
          && LinkOf(h[n].disk.current) == At(f.entries[i].request.commit);
        assert nodes[i].hist[n] == h[n];
      }
    }

    // GET .../releases/state
    method Look(i: nat, id: ReleaseId) returns (answer: LiveState)
      requires Valid() && i < |nodes|
      modifies `upset, nodes[i]
      ensures Valid()
      ensures old(upset) <= upset
      ensures upset == old(upset) ==>
        Still(nodes[i]) && (if id in nodes[i].disk.records then answer.Live? else answer.NotFound?)
      ensures answer.Live? ==>
        && id in nodes[i].disk.records && answer.release == Some(nodes[i].disk.records[id])
        && answer.revision == nodes[i].disk.revision && answer.current == nodes[i].disk.current
    {
      hide EntrySound, Run, Frozen, Bound, Confirmed, Ordered, PhaseSound, Replaces;
      assert SiteSound(i);
      ghost var h := nodes[i].hist;
      assert h[|h| - 1].disk == nodes[i].disk;
      ghost var quiet;
      answer, quiet := Observe(nodes[i], id, network[i], Mine());
      upset := upset + if quiet then 0 else 1;
      EntryMoved(i, h, file);
      if running {
        EntryMoved(i, h, batch);
      }
      assert forall j :: 0 <= j < |nodes| && j != i ==> old(SiteSound(j)) && nodes[j] != nodes[i];
    }

    /* ---------- Requests that change a node ---------- */

    function IdOf(i: nat, restore: bool): ReleaseId
      requires |updateIds| == |undoIds| && i < |updateIds|
    {
      if restore then undoIds[i] else updateIds[i]
    }

    ghost method Remember(i: nat, restore: bool, body: Request)
      requires Valid() && running && i < |nodes| && file == batch
      requires file.entries[i].Asked(restore) == Some(body) && file.entries[i].phase != Prepared
      requires body.id in network[i] && network[i][body.id] == body
      requires body.id == (if restore then undoIds else updateIds)[i]
      requires restore ==> UndoTurn(file, i)
      modifies `posts
      ensures Valid() && posts == old(posts) + [Post(i, restore, body, file)]
    {
      posts := posts + [Post(i, restore, body, file)];
      assert PostSound(Post(i, restore, body, file));
    }

    method Widen(i: nat, body: Request)
      requires Valid() && running && i < |nodes| && file == batch
      requires body.id == updateIds[i] || body.id == undoIds[i]
      requires body.id in network[i] ==> network[i][body.id] == body
      requires EntrySound(file.entries[i], network[i][body.id := body], nodes[i].disk,
                          updateIds[i], undoIds[i], before[i])
      modifies `network
      ensures Valid()
      ensures network == Carrying(old(network), i, body)
    {
      hide Confirmed, Ordered, PhaseSound, EntrySound, Bound, Run;
      assert SiteSound(i);
      BoundSent(nodes[i].disk, network[i], Mine(), body);
      network := Carrying(network, i, body);
      forall j | 0 <= j < |nodes| ensures SiteSound(j) {
        assert old(SiteSound(j));
      }
      forall n | 0 <= n < |posts| ensures PostSound(posts[n]) {
        assert old(PostSound(posts[n]));
      }
      assert FileSound(file);
    }

    // From here on the network may deliver the body, now or later, once or more often.
    method HandToNetwork(i: nat, restore: bool)
      requires Valid() && running && i < |nodes| && file == batch
      requires file.entries[i].Asked(restore).Some? && file.entries[i].phase != Prepared
      requires restore ==> UndoTurn(file, i)
      modifies `network, `posts
      ensures Valid() && old(posts) <= posts && |posts| == |old(posts)| + 1
      ensures var body := file.entries[i].Asked(restore).value;
        body.id == IdOf(i, restore) && body.id in network[i] && network[i][body.id] == body
    {
      hide Confirmed, Ordered, PhaseSound, EntrySound, Bound, Run;
      var body := file.entries[i].Asked(restore).value;
      EntrySent(file.entries[i], network[i], nodes[i].disk, updateIds[i], undoIds[i], before[i], restore, body);
      Widen(i, body);
      Remember(i, restore, body);
    }

    // POST .../releases/apply. None: the client learns nothing.
    method PostApply(i: nat, restore: bool) returns (reply: Option<Reply>)
      requires Valid() && running && i < |nodes| && file == batch
      requires file.entries[i].Asked(restore).Some? && file.entries[i].phase != Prepared
      requires restore ==> UndoTurn(file, i)
      modifies `network, `posts, `upset, nodes[i]
      ensures Valid() && old(posts) <= posts && |posts| == |old(posts)| + 1
      ensures Truthful(reply, nodes[i].disk, IdOf(i, restore))
      ensures old(upset) <= upset
      ensures var body := file.entries[i].Asked(restore).value;
        upset == old(upset) && old(Welcome(nodes[i], body)) ==>
          TakenIn(nodes[i], body, old(Currently(nodes[i], body)), reply)
    {
      hide EntrySound, Run, Frozen, Confirmed, Bound, Truthful;
      var body := file.entries[i].Asked(restore).value;
      HandToNetwork(i, restore);
      var _ := Look(i, body.id);
      reply := Deliver(i, body);
    }

    method Deliver(i: nat, body: Request) returns (reply: Option<Reply>)
      requires Valid() && i < |nodes| && body.id in network[i] && network[i][body.id] == body
      modifies `upset, nodes[i]
      ensures Valid()
      ensures Truthful(reply, nodes[i].disk, body.id)
      ensures old(upset) <= upset
      ensures upset == old(upset) && old(Welcome(nodes[i], body)) ==>
        TakenIn(nodes[i], body, old(Currently(nodes[i], body)), reply)
    {
      hide EntrySound, Run, Frozen, Bound, Confirmed, Ordered, PhaseSound, Truthful, Replaces, Welcome, Currently,
           TakenIn;
      assert SiteSound(i);
      ghost var h := nodes[i].hist;
      assert h[|h| - 1].disk == nodes[i].disk;
      ghost var quiet;
      reply, quiet := DeliverApply(nodes[i], body, network[i], Mine());
      upset := upset + if quiet then 0 else 1;
      EntryMoved(i, h, file);
      if running {
        EntryMoved(i, h, batch);
      }
      assert forall j :: 0 <= j < |nodes| && j != i ==> old(SiteSound(j)) && nodes[j] != nodes[i];
    }

    // POST .../nginx/test and .../nginx/reload
    method PostCommand(i: nat, restore: bool, reload: bool) returns (reply: Option<Reply>)
      requires Valid() && running && i < |nodes| && file == batch && Announced(Order(i, restore, reload, file))
      modifies `orders, `upset, nodes[i]
      ensures Valid()
      ensures Truthful(reply, nodes[i].disk, IdOf(i, restore))
      ensures old(upset) <= upset
      ensures upset == old(upset) ==> forall o ::
        old(Ripe(nodes[i], IdOf(i, restore), o)) && CommandsLeft(o.phase) == (if reload then 1 else 2) ==>
          Forwarded(nodes[i], IdOf(i, restore), o, reload, reply)
    {
      hide EntrySound, Run, Frozen, Bound, Confirmed, Truthful;
      orders := orders + [Order(i, restore, reload, file)];
      var _ := Look(i, IdOf(i, restore));
      reply := Command(i, IdOf(i, restore), reload);
    }

    method Command(i: nat, id: ReleaseId, reload: bool) returns (reply: Option<Reply>)
      requires Valid() && i < |nodes|
      modifies `upset, nodes[i]
      ensures Valid()
      ensures Truthful(reply, nodes[i].disk, id)
      ensures old(upset) <= upset
      ensures upset == old(upset) ==>
        forall o :: old(Ripe(nodes[i], id, o)) && CommandsLeft(o.phase) == (if reload then 1 else 2) ==>
          Forwarded(nodes[i], id, o, reload, reply)
    {
      hide EntrySound, Run, Frozen, Bound, Confirmed, Ordered, PhaseSound, Truthful, Replaces, Ripe, Forwarded;
      assert SiteSound(i);
      ghost var h := nodes[i].hist;
      assert h[|h| - 1].disk == nodes[i].disk;
      ghost var quiet;
      reply, quiet := DeliverCommand(nodes[i], id, reload, network[i], Mine());
      upset := upset + if quiet then 0 else 1;
      EntryMoved(i, h, file);
      if running {
        EntryMoved(i, h, batch);
      }
      assert forall j :: 0 <= j < |nodes| && j != i ==> old(SiteSound(j)) && nodes[j] != nodes[i];
    }

    /* ---------- One node of the batch ---------- */

    ghost predicate Working(i: nat, restore: bool)
      reads this, nodes
    {
      && Valid() && running && file == batch && i < |nodes| && batch.entries[i].Asked(restore).Some?
      && batch.phase != Restored && batch.phase != Updated
      && (batch.entries[i].phase != Prepared || forall j :: 0 <= j < i ==> Good(batch.entries[j].result))
      && (restore ==> UndoTurn(batch, i))
    }

    // The request that an attempt is about.
    function Body(i: nat, restore: bool): Request
      reads this
      requires i < |batch.entries| && batch.entries[i].Asked(restore).Some?
    {
      batch.entries[i].Asked(restore).value
    }

    lemma BodyNamed(i: nat, restore: bool)
      requires Working(i, restore)
      ensures Body(i, restore).id == IdOf(i, restore)
    {
      hide Run, Confirmed;
      assert EntrySound(batch.entries[i], network[i], nodes[i].disk, updateIds[i], undoIds[i], before[i]);
    }

    // node[...] = ...; atomic_save
    method Note(i: nat, restore: bool, o: Option<Outcome>, p: NodePhase) returns (ok: bool)
      requires Working(i, restore) && p != Prepared
      requires o.Some? ==> Confirmed(nodes[i].disk, IdOf(i, restore), o.value)
      requires !restore && o.Some? && Good(batch.entries[i].result) ==> o == batch.entries[i].result
      modifies `batch, `file, `running, `upset
      ensures Valid() && (running ==> file == batch) && ok == running
      ensures upset == old(upset) + if ok then 0 else 1
      ensures Advanced(old(batch), batch, i, restore)
      ensures batch.entries[i] == old(batch).entries[i].Noted(restore, o, p)
    {
      hide Confirmed, EntrySound, SiteSound, PostSound;
      EntryNoted(batch.entries[i], network[i], nodes[i].disk, updateIds[i], undoIds[i], before[i], restore, o, p);
      batch := batch.(entries := batch.entries[i := batch.entries[i].Noted(restore, o, p)]);
      ok := Store();
    }

    lemma NotedConfirmed(i: nat, restore: bool)
      requires Valid() && running && i < |nodes| && batch.entries[i].Got(restore).Some?
      ensures Confirmed(nodes[i].disk, IdOf(i, restore), batch.entries[i].Got(restore).value)
    {
    }

    // An nginx command is announced in the file and sent.
    method OrderCommand(i: nat, restore: bool, o: Outcome) returns (reply: Option<Reply>)
      requires Working(i, restore) && Confirmed(nodes[i].disk, IdOf(i, restore), o)
      requires o.status == Succeeded && CommandsLeft(o.phase) > 0 && (!restore ==> !Good(batch.entries[i].result))
      modifies `batch, `file, `running, `orders, `upset, nodes[i]
      ensures Valid() && (running ==> file == batch)
      ensures Advanced(old(batch), batch, i, restore)
      ensures reply.Some? ==>
        && Working(i, restore) && batch.entries[i].phase != Prepared && batch.entries[i].Got(restore) == Some(o)
        && Truthful(reply, nodes[i].disk, IdOf(i, restore))
      ensures old(upset) <= upset
      ensures upset == old(upset) && old(Ripe(nodes[i], IdOf(i, restore), o)) ==>
        Forwarded(nodes[i], IdOf(i, restore), o, CommandsLeft(o.phase) == 1, reply)
    {
      hide Confirmed, EntrySound, SiteSound, PostSound, Run, Frozen, Heard, FileSound, Truthful, Forwarded, RipeAt;
      reply := None;
      var reload := CommandsLeft(o.phase) == 1;
      var ok := Note(i, restore, Some(o), CommandSending);
      if !ok {
        return;
      }
      reply := PostCommand(i, restore, reload);
      if reply.None? {
        var _ := Note(i, restore, None, OutcomeUnknown);
      }
    }

    // One nginx command of activate_release and what is kept of its answer.
    method CommandRound(i: nat, restore: bool, o: Outcome) returns (go: bool, next: Outcome)
      requires Working(i, restore) && Confirmed(nodes[i].disk, IdOf(i, restore), o)
      requires o.status == Succeeded && CommandsLeft(o.phase) > 0 && (!restore ==> !Good(batch.entries[i].result))
      modifies `batch, `file, `running, `orders, `upset, nodes[i]
      ensures Valid() && (running ==> file == batch)
      ensures Advanced(old(batch), batch, i, restore)
      ensures go ==> running && batch.entries[i].phase != Prepared && batch.entries[i].Got(restore) == Some(next)
      ensures go ==> next.status == Succeeded && CommandsLeft(next.phase) < CommandsLeft(o.phase)
      ensures go ==> next.phase == Some(NginxTestSucceeded) || next.phase == Some(Complete)
      ensures old(upset) <= upset
      ensures upset == old(upset) && old(Ripe(nodes[i], IdOf(i, restore), o)) ==>
        && go && next.digest == o.digest
        && (if CommandsLeft(o.phase) == 1 then IsThrough(nodes[i], IdOf(i, restore), next)
            else Ripe(nodes[i], IdOf(i, restore), next))
      ensures go ==> Working(i, restore) && Confirmed(nodes[i].disk, IdOf(i, restore), next)
    {
      hide Confirmed, EntrySound, SiteSound, PostSound, Run, Frozen, Heard, FileSound, RipeAt, IsThrough;
      go, next := false, o;
      var id, reload := IdOf(i, restore), CommandsLeft(o.phase) == 1;
      var reply := OrderCommand(i, restore, o);
      if reply.None? {
        return;
      }
      var heard := Heard(reply.value, id);
      AnswerHeard(nodes[i], reply.value, id, o, reload);
      if heard.id != id {
        return;
      }
      var ok := Note(i, restore, Some(heard), CommandAnswered);
      if !ok {
        return;
      }
      var expected := if reload then Complete else NginxTestSucceeded;
      if !reply.value.Answer? || reply.value.http != 200 || heard.status != Succeeded || heard.phase != Some(expected) {
        return;
      }
      go, next := true, heard;
      NotedConfirmed(i, restore);
    }

    lemma NotAdvanced(i: nat, restore: bool)
      requires Working(i, restore)
      ensures Advanced(batch, batch, i, restore)
    {
    }

    // activate_release
    method ActivateRelease(i: nat, restore: bool, o: Outcome) returns (r: Attempt)
      requires Working(i, restore) && Confirmed(nodes[i].disk, IdOf(i, restore), o)
      requires o.status == Succeeded && o.phase != Some(Complete) && (!restore ==> !Good(batch.entries[i].result))
      modifies `batch, `file, `running, `orders, `upset, nodes[i]
      ensures Valid() && (running ==> file == batch)
      ensures Advanced(old(batch), batch, i, restore)
      ensures old(upset) <= upset
      ensures upset == old(upset) && old(Ripe(nodes[i], IdOf(i, restore), o)) ==>
        r.Finished? && IsThrough(nodes[i], IdOf(i, restore), r.outcome) && r.outcome.digest == o.digest
      ensures r.Finished? ==>
        && running && r.outcome.status == Succeeded && r.outcome.phase == Some(Complete)
        && batch.entries[i].phase != Prepared && batch.entries[i].Got(restore) == Some(r.outcome)
    {
      hide Confirmed, EntrySound, SiteSound, PostSound, Run, Frozen, FileSound, UndoTurn;
      NotAdvanced(i, restore);
      var result := o;
      while result.phase != Some(Complete)
        invariant Working(i, restore) && Advanced(old(batch), batch, i, restore)
        invariant Confirmed(nodes[i].disk, IdOf(i, restore), result) && result.status == Succeeded
        invariant !restore && result.phase != Some(Complete) ==> !Good(batch.entries[i].result)
        invariant result == o || (batch.entries[i].Got(restore) == Some(result) && batch.entries[i].phase != Prepared)
        invariant old(upset) <= upset
        invariant upset == old(upset) && old(Ripe(nodes[i], IdOf(i, restore), o)) ==>
          && result.digest == o.digest
          && (if result.phase == Some(Complete) then IsThrough(nodes[i], IdOf(i, restore), result)
              else Ripe(nodes[i], IdOf(i, restore), result))
        decreases CommandsLeft(result.phase)
      {
        if CommandsLeft(result.phase) == 0 {
          return Raised;
        }
        var go;
        go, result := CommandRound(i, restore, result);
        if !go {
          return Raised;
        }
      }
      var ok := Note(i, restore, Some(result), ResultSaved);
      r := if ok then Finished(result) else Raised;
    }

    // What an attempt on node i leaves in the batch.
    twostate predicate Attempted(i: nat, restore: bool, r: Attempt)
      reads this, nodes
    {
      && Valid() && (running ==> file == batch)
      && Advanced(old(batch), batch, i, restore)
      && (r.Finished? ==>
            && running && batch.entries[i].Got(restore) == Some(r.outcome)
            && (IsTerminal(r.outcome.status) || Final(r.outcome))
            && (r.outcome.status == Succeeded ==> r.outcome.phase == Some(Complete)))
    }

    // The first POST of a request, and what is made of its reply. Unsettled: ask again.
    method SendRequest(i: nat, restore: bool) returns (settled: bool, r: Attempt)
      requires Working(i, restore) && (!restore ==> !Good(batch.entries[i].result))
      modifies `batch, `file, `running, `network, `posts, `orders, `upset, nodes[i]
      ensures old(posts) <= posts && |posts| <= |old(posts)| + 1
      ensures Attempted(i, restore, if settled then r else Raised)
      ensures old(upset) <= upset
      ensures upset == old(upset) && old(Welcome(nodes[i], Body(i, restore))) ==>
        settled && WentWell(nodes[i], old(Body(i, restore)), old(Currently(nodes[i], Body(i, restore))), r)
      ensures !settled ==> Working(i, restore) && (!restore ==> !Good(batch.entries[i].result))
    {
      hide Confirmed, EntrySound, SiteSound, PostSound, Run, Frozen, Heard, FileSound, Good, TakenIn, WentWell,
           WelcomeAt;
      settled, r := true, Raised;
      var id := IdOf(i, restore);
      BodyNamed(i, restore);
      var ok := Note(i, restore, None, Sending);
      if !ok {
        return;
      }
      var reply := PostApply(i, restore);
      TakenHeard(nodes[i], Body(i, restore), old(Currently(nodes[i], Body(i, restore))), reply);
      if reply.None? {
        ok := Note(i, restore, None, OutcomeUnknown);
        settled := !ok;
        return;
      }
      var heard := Heard(reply.value, id);
      if heard.id != id {
        return;
      }
      settled, r := ReadReply(i, restore, reply.value);
    }

    method ReadReply(i: nat, restore: bool, reply: Reply) returns (settled: bool, r: Attempt)
      requires Working(i, restore) && (!restore ==> !Good(batch.entries[i].result)) && !reply.Lost?
      requires Heard(reply, IdOf(i, restore)).id == IdOf(i, restore)
      requires Confirmed(nodes[i].disk, IdOf(i, restore), Heard(reply, IdOf(i, restore)))
      requires batch.entries[i].phase != Prepared
      modifies `batch, `file, `running, `orders, `upset, nodes[i]
      ensures Attempted(i, restore, if settled then r else Raised)
      ensures settled <==> !AskAgain(reply)
      ensures reply.Rejected? ==>
        (settled <==> reply.http in {400, 401, 403, 409, 413} && reply.reason != ReleaseRunning)
      ensures old(upset) <= upset
      ensures upset == old(upset) ==> forall skipped ::
        old(TakenIn(nodes[i], Body(i, restore), skipped, Some(reply))) ==>
          WentWell(nodes[i], old(Body(i, restore)), skipped, r)
      // What the file keeps of it.
      ensures settled && running && reply.Rejected? ==>
        batch.entries[i] == old(batch).entries[i].(phase := TurnedAway)
      ensures reply.Answer? && Over(Heard(reply, IdOf(i, restore))) ==>
        r == if running then Finished(Heard(reply, IdOf(i, restore))) else Raised
      ensures running && reply.Answer? && Heard(reply, IdOf(i, restore)).status == RecoveryRequired ==>
        batch.entries[i].Got(restore) == Some(Heard(reply, IdOf(i, restore)))
      ensures !settled ==> Working(i, restore) && (!restore ==> !Good(batch.entries[i].result))
    {
      hide Confirmed, EntrySound, SiteSound, PostSound, Run, Frozen;
      settled, r := true, Raised;
      var heard, ok := Heard(reply, IdOf(i, restore)), false;
      if heard.status == Succeeded && heard.phase != Some(Complete) {
        if reply.Answer? && reply.http == 200 && heard.phase == Some(LatestSwitched) {
          r := ActivateRelease(i, restore, heard);
        }
      } else if IsTerminal(heard.status) && reply.Answer? {
        // A refusal has a status too, but no revision.
        ok := Note(i, restore, Some(heard), ResultSaved);
        r := if ok then Finished(heard) else Raised;
      } else if reply.Rejected? && reply.http in {400, 401, 403, 409, 413} && reply.reason != ReleaseRunning {
        var _ := Note(i, restore, None, TurnedAway);
      } else if heard.status == RecoveryRequired {
        var _ := Note(i, restore, Some(heard), batch.entries[i].phase);
      } else {
        settled := false;
      }
    }

    // The state query found the release.
    method ReadState(i: nat, restore: bool, seen: Outcome) returns (settled: bool, r: Attempt)
      requires Working(i, restore) && (!restore ==> !Good(batch.entries[i].result))
      requires Confirmed(nodes[i].disk, IdOf(i, restore), seen)
      modifies `batch, `file, `running, `orders, `upset, nodes[i]
      ensures Attempted(i, restore, if settled then r else Raised)
      ensures old(upset) <= upset
      ensures upset == old(upset) && seen.id == IdOf(i, restore) ==>
        EndsAs(nodes[i], seen, old(Ripe(nodes[i], seen.id, seen)), restore, batch.entries[i], r)
      ensures !settled ==> seen.status == Running && r == Raised
      ensures !settled ==> Working(i, restore) && (!restore ==> !Good(batch.entries[i].result))
    {
      hide Confirmed, EntrySound, SiteSound, PostSound, Run, Frozen, Heard;
      settled, r := true, Raised;
      if seen.id != IdOf(i, restore) {
        return;
      }
      if IsTerminal(seen.status) && (seen.status != Succeeded || seen.phase == Some(Complete)) {
        var ok := Note(i, restore, Some(seen), ResultSaved);
        r := if ok then Finished(seen) else Raised;
      } else if seen.status == Succeeded {
        r := ActivateRelease(i, restore, seen);
      } else if seen.status == RecoveryRequired {
        var _ := Note(i, restore, Some(seen), NeedsRecovery);
      } else {
        settled := false;
      }
    }

    // The node does not know the release, or is still at it.
    ghost predicate NotYet(i: nat, restore: bool)
      reads this, nodes
      requires i < |nodes| && i < |updateIds| && |updateIds| == |undoIds|
    {
      var (id, d) := (IdOf(i, restore), nodes[i].disk);
      id in d.records ==> d.records[id].result.status == Running
    }

    // A release that the node knew is taken up where it was.
    twostate predicate PickedUp(i: nat, restore: bool, r: Attempt)
      reads this, nodes
      requires i < |nodes| && i < |updateIds| && |updateIds| == |undoIds| && i < |batch.entries|
    {
      var (id, d) := (IdOf(i, restore), old(nodes[i].disk));
      id in d.records ==>
        var seen := Seen(d.records[id]);
        EndsAs(nodes[i], seen, old(Ripe(nodes[i], id, seen)), restore, batch.entries[i], r)
    }

    // One round of an attempt: look the release up, and post its body only if the node
    // does not know it and this attempt has not posted yet.
    method AskOnce(i: nat, restore: bool, sent: bool) returns (posted: bool, settled: bool, r: Attempt)
      requires Working(i, restore) && (!restore ==> !Good(batch.entries[i].result))
      modifies `batch, `file, `running, `network, `posts, `orders, `upset, nodes[i]
      ensures Attempted(i, restore, if settled then r else Raised)
      ensures old(upset) <= upset
      ensures upset == old(upset) && !sent && old(Welcome(nodes[i], Body(i, restore))) ==>
        settled && WentWell(nodes[i], old(Body(i, restore)), old(Currently(nodes[i], Body(i, restore))), r)
      ensures upset == old(upset) ==> PickedUp(i, restore, if settled then r else Raised)
      ensures upset == old(upset) && !settled ==> old(NotYet(i, restore))
      ensures !settled ==> Working(i, restore) && (!restore ==> !Good(batch.entries[i].result))
      ensures old(posts) <= posts && |posts| <= |old(posts)| + (if posted then 1 else 0)
      ensures posted ==> !sent
    {
      hide Confirmed, EntrySound, SiteSound, PostSound, Run, Frozen, Heard, UndoTurn, Ordered, PhaseSound, Good,
           WentWell;
      posted, settled, r := false, true, Raised;
      BodyNamed(i, restore);
      var answer := Look(i, IdOf(i, restore));
      match answer {
        case Unanswered => return;
        case Live(_, _, _, release) =>
          SeenConfirmed(i, restore);
          settled, r := ReadState(i, restore, Seen(release.value));
        case NotFound =>
          settled := false;
          if !sent {
            posted := true;
            settled, r := SendRequest(i, restore);
          }
      }
    }

    // The loop of execute_node. The clock may run out after any number of queries.
    method Pursue(i: nat, restore: bool) returns (r: Attempt)
      requires Working(i, restore) && (!restore ==> !Good(batch.entries[i].result))
      modifies `batch, `file, `running, `network, `posts, `orders, `upset, nodes[i]
      ensures old(posts) <= posts && |posts| <= |old(posts)| + 1
      ensures Attempted(i, restore, r)
      ensures old(upset) <= upset
      ensures upset == old(upset) && old(Welcome(nodes[i], Body(i, restore))) ==>
        WentWell(nodes[i], old(Body(i, restore)), old(Currently(nodes[i], Body(i, restore))), r)
      ensures upset == old(upset) ==> PickedUp(i, restore, r)
    {
      hide Confirmed, EntrySound, SiteSound, PostSound, Run, Frozen, UndoTurn, Ordered, PhaseSound, FileSound,
           WelcomeAt, WentWell, CurrentlyAt, RipeAt, EndsAs, Good;
      NotAdvanced(i, restore);
      ghost var first, id, d, l, works := true, IdOf(i, restore), nodes[i].disk, nodes[i].link, Works(nodes[i]);
      ghost var welcome := Welcome(nodes[i], Body(i, restore));
      var patience: nat, sent := *, false;
      while true
        invariant Working(i, restore) && Advanced(old(batch), batch, i, restore)
        invariant !restore ==> !Good(batch.entries[i].result)
        invariant old(posts) <= posts && |posts| <= |old(posts)| + if sent then 1 else 0
        invariant old(upset) <= upset
        invariant upset == old(upset) && welcome ==>
          && !sent && Body(i, restore) == old(Body(i, restore)) && Welcome(nodes[i], Body(i, restore))
          && Currently(nodes[i], Body(i, restore)) == old(Currently(nodes[i], Body(i, restore)))
        invariant if first then nodes[i].disk == old(nodes[i].disk) && Still(nodes[i])
                  else upset == old(upset) ==> old(NotYet(i, restore))
        decreases patience, !sent
      {
        var posted, settled;
        posted, settled, r := AskOnce(i, restore, sent);
        if settled {
          if !first && id in d.records && d.records[id].result.status == Running {
            StillAtIt(nodes[i], d, l, works, id, restore, batch.entries[i], r);
          }
          return;
        }
        first := false;
        if posted {
          sent := true;
        } else if patience == 0 {
          var _ := Note(i, restore, None, OutcomeUnknown);
          upset := upset + 1;
          return Raised;
        } else {
          patience := patience - 1;
        }
      }
    }

    // execute_node
    method ExecuteNode(i: nat, restore: bool) returns (r: Attempt)
      requires Working(i, restore)
      modifies `batch, `file, `running, `network, `posts, `orders, `upset, nodes[i]
      ensures old(posts) <= posts && |posts| <= |old(posts)| + 1
      ensures Attempted(i, restore, r)
      ensures old(upset) <= upset
      ensures var stored := old(batch).entries[i].Got(restore);
        if stored.Some? && Final(stored.value) then
          r == Finished(stored.value) && batch == old(batch) && upset == old(upset) && Still(nodes[i])
        else
          upset == old(upset) ==>
            && PickedUp(i, restore, r)
            && (old(Welcome(nodes[i], Body(i, restore))) ==>
                  WentWell(nodes[i], old(Body(i, restore)), old(Currently(nodes[i], Body(i, restore))), r))
    {
      hide Confirmed, EntrySound, SiteSound, PostSound, Run, Frozen, UndoTurn, Ordered, PhaseSound, WelcomeAt, WentWell,
           CurrentlyAt, RipeAt, EndsAs;
      var stored := batch.entries[i].Got(restore);
      if stored.Some? && Final(stored.value) {
        return Finished(stored.value);
      }
      var reached: bool := *;
      if !reached {
        upset := upset + 1;
        return Raised;
      }
      r := Pursue(i, restore);
    }

    lemma SeenConfirmed(i: nat, restore: bool)
      requires Valid() && i < |nodes| && IdOf(i, restore) in nodes[i].disk.records
      ensures Confirmed(nodes[i].disk, IdOf(i, restore), Seen(nodes[i].disk.records[IdOf(i, restore)]))
      ensures nodes[i].disk.records[IdOf(i, restore)].request.id == IdOf(i, restore)
    {
      hide SoundState, Run;
      assert SiteSound(i);
      nodes[i].LiveWorld();
      RecordNamed(nodes[i].disk, IdOf(i, restore), nodes[i].past);
    }

    /* ---------- restore_batch ---------- */

    // Node i works and is where its completed update left it, and a version of another commit
    // to go back to is there.
    ghost predicate LeftThere(i: nat)
      reads this, nodes
    {
      && i < |nodes| && i < |batch.entries| && i < |undoIds| && i < |before|
      && LeftAt(nodes[i].disk, Works(nodes[i]), nodes[i].frontend, batch.entries[i], before[i], undoIds[i])
    }

    ghost predicate LeftAt(d: TargetState, works: bool, front: bool, e: Entry, b: Before, undo: ReleaseId) {
      && works && front == frontend && undo !in d.records
      && e.result.Some? && e.result.value.status == Succeeded
      && e.result.value.phase == Some(Complete) && e.result.value.after == Some(d.revision)
      && b.current.Some? && b.current.value.commit != e.request.commit
      && (if frontend then b.current.value.artifact.Some? else e.request.digest.None?)
    }

    lemma LeftFacts(i: nat)
      requires Valid() && running && LeftThere(i)
      ensures var (d, e, id) := (nodes[i].disk, batch.entries[i], updateIds[i]);
        && id in d.records && d.records[id].baseline == before[i].current && before[i].current.Some?
        && d.current.Some? && d.current.value.commit == e.request.commit
        && e.result.value.commit == Some(e.request.commit) && e.result.value.after == Some(d.revision)
        && (frontend ==> before[i].current.value.artifact.Some?)
        && RestoreAllowed(d, id, before[i].current.value.commit)
    {
      hide Run, SoundState;
      assert SiteSound(i);
      assert EntrySound(batch.entries[i], network[i], nodes[i].disk, updateIds[i], undoIds[i], before[i]);
      BaselineStored(i);
      nodes[i].LiveWorld();
      RecordNamed(nodes[i].disk, updateIds[i], nodes[i].past);
      RevisionPair(nodes[i].disk, nodes[i].past);
    }

    // The restore request as MakeUndo makes it is welcome, and asks for something else than
    // what is current.
    lemma UndoIsWelcome(i: nat)
      requires Valid() && running && LeftThere(i) && UndoAsked(i)
      ensures Welcome(nodes[i], Body(i, true)) && !Currently(nodes[i], Body(i, true))
    {
      hide Run, SoundState;
      LeftFacts(i);
    }

    // It puts back what preflight read, on top of this update only.
    predicate UndoAsked(i: nat)
      reads this
      requires i < |batch.entries|
    {
      && batch.entries[i].restoreRequest.Some?
      && UndoFor(i, batch.entries[i].result, batch.entries[i].request, batch.entries[i].restoreRequest.value)
    }

    predicate UndoFor(i: nat, result: Option<Outcome>, request: Request, u: Request) {
      && i < |before| && i < |undoIds| && i < |updateIds| && before[i].current.Some? && result.Some?
      && var v := before[i].current.value;
         && u.id == undoIds[i] && u.restoreOf == Some(updateIds[i]) && u.expected == result.value.after
         && u.commit == v.commit && u.version == v.version
         && u.digest == (if frontend then v.artifact else request.digest)
    }

    // What the node says before its restore request is made.
    method AskUndo(i: nat) returns (ok: bool, undo: Request)
      requires Valid() && running && file == batch && i < |nodes| && batch.phase == Restoring
      requires i < |batch.entries| && batch.entries[i].restoreRequest.None? && batch.entries[i].result.Some?
      requires batch.entries[i].result.value.status == Succeeded
      modifies `upset, nodes[i]
      ensures Valid()
      ensures ok ==>
        && UndoFor(i, batch.entries[i].result, batch.entries[i].request, undo)
        && EntrySound(batch.entries[i].(restoreRequest := Some(undo)), network[i], nodes[i].disk,
                      updateIds[i], undoIds[i], before[i])
        && Replaces(batch.entries[i].(restoreRequest := Some(undo)), nodes[i].hist)
      ensures old(upset) <= upset
      ensures upset == old(upset) && old(LeftThere(i)) ==> ok && Still(nodes[i])
    {
      hide Confirmed, Run, Frozen, Bound, LeftAt, PhaseSound, Ordered, Replaces, PostSound, FileSound;
      ok, undo := false, batch.entries[i].request;
      var reached: bool := *;
      if !reached {
        upset := upset + 1;
        return;
      }
      if LeftThere(i) {
        LeftFacts(i);
      }
      var e := batch.entries[i];
      var answer := Look(i, updateIds[i]);
      if !answer.Live? {
        return;
      }
      var baseline := answer.release.value.baseline;
      var live := if answer.current.Some? then Some(answer.current.value.commit) else None;
      if baseline.None? || live.None? || e.result.value.after != Some(answer.revision) || e.result.value.commit != live
         || (frontend && baseline.value.artifact.None?) {
        return;
      }
      BaselineStored(i);
      undo := UndoRequest(e, e.result.value, baseline.value, undoIds[i], frontend);
      UndoSound(i, undo);
      UpdateNamed(i);
      ok := true;
    }

    lemma UpdateNamed(i: nat)
      requires Valid() && running && i < |nodes|
      ensures batch.entries[i].request.id == updateIds[i]
    {
      hide Run, Confirmed;
      assert EntrySound(batch.entries[i], network[i], nodes[i].disk, updateIds[i], undoIds[i], before[i]);
    }

    // The restore request of one node, made durable before it is sent.
    method MakeUndo(i: nat) returns (ok: bool)
      requires Valid() && running && file == batch && i < |nodes| && batch.phase == Restoring
      requires batch.entries[i].restoreRequest.None? && batch.entries[i].result.Some?
      requires batch.entries[i].result.value.status == Succeeded
      modifies this, nodes[i]
      ensures Valid() && (running ==> file == batch) && (ok ==> running)
      ensures batch.phase == old(batch).phase && batch.digest == old(batch).digest
      ensures |batch.entries| == |old(batch).entries|
      ensures batch.entries == old(batch).entries[i := batch.entries[i]]
      ensures batch.entries[i] == old(batch).entries[i].(restoreRequest := batch.entries[i].restoreRequest)
      ensures ok ==> UndoAsked(i)
      ensures old(upset) <= upset
      ensures upset == old(upset) && old(LeftThere(i)) ==> ok && Still(nodes[i])
    {
      hide Confirmed, Run, Frozen, Bound, LeftAt, UndoFor, EntrySound, Replaces, SiteSound, PostSound;
      var undo;
      ok, undo := AskUndo(i);
      if ok {
        batch := batch.(entries := batch.entries[i := batch.entries[i].(restoreRequest := Some(undo))]);
        ok := Store();
      }
    }

    lemma BaselineStored(i: nat)
      requires Valid() && running && i < |nodes| && updateIds[i] in nodes[i].disk.records
      ensures nodes[i].disk.records[updateIds[i]].baseline == before[i].current
    {
      hide Run, Confirmed;
      assert SiteSound(i);
      assert EntrySound(batch.entries[i], network[i], nodes[i].disk, updateIds[i], undoIds[i], before[i]);
      assert updateIds[i] in Mine();
      BaselineAsRead(nodes[i].hist, readAt[i], nodes[i].disk, updateIds[i], before[i], network[i], Mine());
    }

    lemma UndoSound(i: nat, undo: Request)
      requires Valid() && running && i < |nodes|
      requires batch.entries[i].restoreRequest.None? && batch.entries[i].result.Some?
      requires batch.entries[i].result.value.status == Succeeded
      requires undo.expected == Some(nodes[i].disk.revision) && nodes[i].disk.current.Some?
      requires batch.entries[i].result.value.commit == Some(nodes[i].disk.current.value.commit)
      requires undo.id == undoIds[i] && before[i].current.Some? && undo.commit == before[i].current.value.commit
      ensures EntrySound(batch.entries[i].(restoreRequest := Some(undo)), network[i], nodes[i].disk,
                         updateIds[i], undoIds[i], before[i])
      ensures Replaces(batch.entries[i].(restoreRequest := Some(undo)), nodes[i].hist)
    {
      hide Run;
      assert SiteSound(i);
      assert EntrySound(batch.entries[i], network[i], nodes[i].disk, updateIds[i], undoIds[i], before[i]);
      assert updateIds[i] in Mine();
      assert nodes[i].hist[|nodes[i].hist| - 1].disk == nodes[i].disk;
    }

    method SetPhase(p: BatchPhase) returns (ok: bool)
      requires Valid() && running && PhaseSound(batch.(phase := p), frontend)
      modifies `batch, `file, `running, `upset
      ensures Valid() && (running ==> file == batch) && ok == running
      ensures batch == old(batch).(phase := p)
      ensures upset == old(upset) + if ok then 0 else 1
    {
      hide EntrySound, SiteSound, PostSound;
      batch := batch.(phase := p);
      ok := Store();
    }

    // The node can tell how the release ended, or can be asked for its next command.
    ghost predicate Resolvable(i: nat)
      reads this, nodes
    {
      i < |nodes| && i < |updateIds| && i < |batch.entries| ==>
        || Resolved(batch.entries[i])
        || (var d, id := nodes[i].disk, updateIds[i];
            id in d.records && (Over(Seen(d.records[id])) || Ripe(nodes[i], id, Seen(d.records[id]))))
    }

    // A post that may have arrived at node i is settled.
    method ResolveOne(i: nat) returns (ok: bool)
      requires Valid() && running && file == batch && batch.phase == Restoring && i < |nodes|
      modifies this, nodes[i]
      ensures Valid() && (running ==> file == batch) && (ok ==> running) && batch.phase == Restoring
      ensures |batch.entries| == |old(batch).entries| && i < |batch.entries|
      ensures batch.entries == old(batch).entries[i := batch.entries[i]]
      ensures ok ==> Resolved(batch.entries[i])
      ensures old(upset) <= upset
      ensures old(Resolved(batch.entries[i])) ==>
        ok && batch == old(batch) && upset == old(upset) && Still(nodes[i])
      ensures upset == old(upset) && old(Resolvable(i)) ==> ok
      ensures forall j :: 0 <= j < |nodes| && j != i && old(Resolvable(j)) ==> Resolvable(j)
    {
      hide EntrySound, SiteSound, PostSound, PhaseSound, Run, Ordered, WelcomeAt, WentWell;
      var e := batch.entries[i];
      ok := true;
      if e.phase == Prepared || e.phase == TurnedAway {
        return;
      }
      if e.result.None? || !IsTerminal(e.result.value.status) {
        var r := ExecuteNode(i, false);
        ok := r.Finished?;
      }
    }

    // The first pass over the nodes.
    method ResolveAll() returns (ok: bool)
      requires Valid() && running && file == batch && batch.phase == Restoring
      modifies this, nodes
      ensures Valid() && (running ==> file == batch) && (ok ==> running) && batch.phase == Restoring
      ensures ok ==> forall j :: 0 <= j < |nodes| ==> Resolved(batch.entries[j])
      ensures old(upset) <= upset
      ensures old(AllResolved()) ==>
        ok && batch == old(batch) && upset == old(upset) && forall j :: 0 <= j < |nodes| ==> Still(nodes[j])
      ensures upset == old(upset) && old(forall j :: 0 <= j < |nodes| ==> Resolvable(j)) ==> ok
    {
      hide EntrySound, SiteSound, PostSound, PhaseSound, Run, Ordered, Resolved, Resolvable;
      for i := 0 to |nodes|
        invariant Valid() && running && file == batch && batch.phase == Restoring
        invariant forall j :: 0 <= j < i ==> Resolved(batch.entries[j])
        invariant old(upset) <= upset
        invariant upset == old(upset) && old(forall j :: 0 <= j < |nodes| ==> Resolvable(j)) ==>
          forall j :: i <= j < |nodes| ==> Resolvable(j)
        invariant old(AllResolved()) ==>
          batch == old(batch) && upset == old(upset) && forall j :: 0 <= j < |nodes| ==> Still(nodes[j])
      {
        ok := ResolveOne(i);
        if !ok {
          return;
        }
      }
      ok := true;
    }

    predicate AllResolved()
      reads this
    {
      forall j :: 0 <= j < |batch.entries| ==> Resolved(batch.entries[j])
    }

    ghost predicate AllMayReturn()
      reads this, nodes
    {
      AllResolved() && forall j :: 0 <= j < |nodes| ==> MayReturn(j)
    }

    // There is nothing to undo on node i, or nothing in the way of it.
    ghost predicate MayReturn(i: nat)
      reads this, nodes
    {
      && i < |nodes| && i < |batch.entries| && i < |undoIds| && i < |before|
      && MayReturnAt(nodes[i].disk, Works(nodes[i]), nodes[i].frontend, batch.entries[i], before[i], undoIds[i])
    }

    ghost predicate MayReturnAt(d: TargetState, works: bool, front: bool, e: Entry, b: Before, undo: ReleaseId) {
      e.result.Some? && e.result.value.status == Succeeded ==>
        LeftAt(d, works, front, e, b, undo) && e.restoreRequest.None? && e.restoreResult.None?
    }

    // One node's way back.
    method UndoNode(i: nat) returns (ok: bool)
      requires Valid() && running && file == batch && i < |nodes| && batch.phase == Restoring
      requires forall j :: 0 <= j < |nodes| ==> Resolved(batch.entries[j])
      requires forall j :: i < j < |nodes| ==> Undoing(batch.entries[j])
      modifies this, nodes[i]
      ensures Valid() && (running ==> file == batch) && (ok ==> running)
      ensures batch.phase == old(batch).phase && |batch.entries| == |old(batch).entries|
      ensures batch.entries == old(batch).entries[i := batch.entries[i]]
      ensures ok ==> Undoing(batch.entries[i]) && Resolved(batch.entries[i])
      ensures old(upset) <= upset
      ensures upset == old(upset) && old(MayReturn(i)) ==> ok
    {
      hide Confirmed, SiteSound, PostSound, PhaseSound, Run, Frozen, Bound;
      if batch.entries[i].result.None? || batch.entries[i].result.value.status != Succeeded {
        return true;
      }
      if batch.entries[i].restoreRequest.None? {
        ok := MakeUndo(i);
        if !ok {
          return;
        }
      }
      if LeftThere(i) && UndoAsked(i) {
        UndoIsWelcome(i);
      }
      assert EntrySound(batch.entries[i], network[i], nodes[i].disk, updateIds[i], undoIds[i], before[i]);
      var r := ExecuteNode(i, true);
      ok := r.Finished? && r.outcome.status == Succeeded;
    }

    // The way back through the nodes, last one first.
    method UndoAll() returns (ok: bool)
      requires Valid() && running && file == batch && batch.phase == Restoring && AllResolved()
      modifies this, nodes
      ensures Valid() && (running ==> file == batch) && (ok ==> running) && batch.phase == Restoring
      ensures ok ==> PhaseSound(batch.(phase := Restored), frontend)
      ensures old(upset) <= upset
      ensures upset == old(upset) && old(forall j :: 0 <= j < |nodes| ==> MayReturn(j)) ==> ok
    {
      hide EntrySound, SiteSound, PostSound, Run, MayReturnAt, Resolved, Ordered, Undoing, Replaces;
      for i := |nodes| downto 0
        invariant Valid() && running && file == batch && batch.phase == Restoring
        invariant |batch.entries| == |nodes|
        invariant forall j :: i <= j < |nodes| ==> Undoing(batch.entries[j])
        invariant forall j :: 0 <= j < |nodes| ==> Resolved(batch.entries[j])
        invariant old(upset) <= upset
        invariant upset == old(upset) && old(forall j :: 0 <= j < |nodes| ==> MayReturn(j)) ==>
          forall j :: 0 <= j < i ==> MayReturn(j)
      {
        label before:
        ghost var calm := upset == old(upset) && old(forall j :: 0 <= j < |nodes| ==> MayReturn(j));
        ok := UndoNode(i);
        if !ok {
          return;
        }
        forall j | calm && 0 <= j < i ensures MayReturn(j) {
          assert old@before(MayReturn(j)) && nodes[j] != nodes[i];
        }
      }
      ok := true;
    }

    // restore_batch
    method RestoreBatch() returns (ok: bool)
      requires Valid() && running && file == batch
      modifies this, nodes
      ensures Valid() && (running ==> file == batch)
      ensures ok ==> running && file.phase == Restored
      ensures running ==> file.phase == Restoring || file.phase == Restored
      ensures old(upset) <= upset
      ensures upset == old(upset) && old(AllMayReturn()) ==> ok
    {
      hide EntrySound, SiteSound, PostSound, Run, MayReturnAt, Resolved, Ordered, Undoing, Replaces;
      ok := SetPhase(Restoring);
      if ok {
        ok := ResolveAll();
      }
      if !ok {
        return;
      }
      forall j | 0 <= j < |nodes| && old(AllMayReturn()) ensures MayReturn(j) {
        assert old(MayReturn(j));
      }
      ok := UndoAll();
      if ok {
        ok := SetPhase(Restored);
      }
    }

    /* ---------- update_batch ---------- */

    // The entries before i have good results, with the batch's digest for a frontend.
    ghost predicate DoneUpTo(f: File, i: nat) {
      forall j :: 0 <= j < i && j < |f.entries| ==>
        Good(f.entries[j].result) && (frontend ==> f.digest.Some? && f.entries[j].result.value.digest == f.digest)
    }

    predicate NotTried(i: nat)
      requires i < |batch.entries|
      reads this
    {
      batch.entries[i].phase == Prepared && batch.entries[i].result.None?
    }

    // What the request was given and what the batch has found do not contradict each other.
    predicate DigestFits(i: nat)
      requires i < |batch.entries|
      reads this
    {
      frontend && batch.digest.Some? && batch.entries[i].request.digest.Some? ==>
        batch.entries[i].request.digest == batch.digest
    }

    // prepare_frontend_node: the digest of the first node goes into a body not yet sent.
    method PrepareFrontend(i: nat) returns (ok: bool)
      requires Valid() && running && file == batch && i < |nodes| && batch.phase == Applying
      modifies `batch, `file, `running, `upset
      ensures Valid() && (running ==> file == batch) && (ok ==> running)
      ensures batch == old(batch).(entries := batch.entries) && |batch.entries| == |old(batch).entries|
      ensures batch.entries == old(batch).entries || (
        && frontend && batch.digest.Some?
        && old(batch).entries[i].phase == Prepared && old(batch).entries[i].request.digest.None?
        && batch.entries == old(batch).entries[i := old(batch).entries[i].Pinned(batch.digest)])
      ensures ok && frontend && batch.digest.Some? ==>
        || batch.entries[i].request.digest == batch.digest
        || (batch.entries[i].result.Some? && IsTerminal(batch.entries[i].result.value.status))
      ensures old(upset) <= upset
      ensures upset == old(upset) && old(NotTried(i) && DigestFits(i)) ==>
        && ok
        && batch.entries[i] ==
          (if frontend && batch.digest.Some? then old(batch).entries[i].Pinned(batch.digest) else old(batch).entries[i])
      ensures forall j :: 0 <= j < |nodes| ==>
        && batch.entries[j].result == old(batch).entries[j].result
        && batch.entries[j].phase == old(batch).entries[j].phase
    {
      hide SiteSound, PostSound, Confirmed, Run;
      var e := batch.entries[i];
      var pinned := batch.digest;
      if !frontend || pinned.None? {
        return true;
      }
      if e.request.digest.Some? && e.request.digest != pinned {
        return false;
      }
      if e.request.digest.Some? || (e.result.Some? && IsTerminal(e.result.value.status)) {
        return true;
      }
      if e.phase != Prepared {
        return false;
      }
      assert EntrySound(e, network[i], nodes[i].disk, updateIds[i], undoIds[i], before[i]);
      batch := batch.(entries := batch.entries[i := e.Pinned(pinned)]);
      ok := Store();
    }

    // record_frontend_digest: one digest for the whole batch.
    method RecordDigest(i: nat) returns (ok: bool)
      requires Valid() && running && file == batch && i < |nodes| && batch.phase == Applying
      requires Good(batch.entries[i].result) && DoneUpTo(batch, i)
      modifies `batch, `file, `running, `upset
      ensures Valid() && (running ==> file == batch) && (ok ==> running)
      ensures batch == old(batch).(digest := batch.digest)
      ensures ok ==> DoneUpTo(batch, i + 1)
      ensures old(upset) <= upset
      ensures upset == old(upset) && old(DigestFits(i)) && (frontend ==>
          var d := old(batch).entries[i].result.value.digest;
          && d.Some? && (old(batch).digest.Some? ==> d == old(batch).digest)
          && (old(batch).entries[i].request.digest.Some? ==> d == old(batch).entries[i].request.digest)) ==>
        ok && batch.digest == (if frontend then old(batch).entries[i].result.value.digest else old(batch).digest)
    {
      hide EntrySound, SiteSound, PostSound, Run;
      if !frontend {
        return true;
      }
      var digest := batch.entries[i].result.value.digest;
      if digest.None? || (batch.digest.Some? && batch.digest != digest)
         || (batch.entries[i].request.digest.Some? && batch.entries[i].request.digest != digest) {
        return false;
      }
      batch := batch.(digest := digest);
      ok := Store();
    }

    lemma DoneKept(a: File, b: File, i: nat)
      requires DoneUpTo(a, i) && Advanced(a, b, i, false)
      ensures DoneUpTo(b, i)
    {
    }

    // Node i works, is where preflight found it, and knows nothing of the update yet; if it is
    // on the requested version already, no release of that version waits for its commands.
    ghost predicate CleanStart(i: nat)
      reads this, nodes
    {
      && i < |nodes| && i < |batch.entries| && i < |updateIds| && i < |before|
      && batch.entries[i].phase == Prepared && batch.entries[i].result.None?
      && (batch.entries[i].request.digest.Some? ==> frontend)
      && Works(nodes[i]) && nodes[i].frontend == frontend
      && updateIds[i] !in nodes[i].disk.records && nodes[i].disk.revision == before[i].revision
      && (nodes[i].disk.current.Some? ==>
            && (frontend ==> nodes[i].disk.current.value.source != Artifact(nodes[i].repo, None))
            && forall q :: q in nodes[i].disk.records ==>
                 !Pending(nodes[i].disk.records[q], nodes[i].disk.current.value))
    }

    lemma CleanIsWelcome(i: nat)
      requires Valid() && running && CleanStart(i)
      ensures Welcome(nodes[i], Body(i, false)) && Body(i, false).restoreOf.None?
      ensures frontend && Currently(nodes[i], Body(i, false)) ==> Body(i, false).digest.Some?
    {
      hide Run, Confirmed;
      assert EntrySound(batch.entries[i], network[i], nodes[i].disk, updateIds[i], undoIds[i], before[i]);
    }

    method UpdateNode(i: nat) returns (ok: bool)
      requires Valid() && running && file == batch && i < |nodes| && batch.phase == Applying && DoneUpTo(batch, i)
      modifies this, nodes[i]
      ensures Valid() && (running ==> file == batch) && (ok ==> running) && batch.phase == Applying
      ensures ok ==> DoneUpTo(batch, i + 1)
      ensures |batch.entries| == |old(batch).entries|
      ensures forall j :: 0 <= j < |nodes| && j != i ==> batch.entries[j] == old(batch).entries[j]
      ensures old(upset) <= upset
      ensures upset == old(upset) && old(CleanStart(i)) && old(DigestFits(i)) ==>
        && ok
        && (if frontend then
              && batch.digest.Some? && (old(batch).digest.Some? ==> batch.digest == old(batch).digest)
              && (old(batch).entries[i].request.digest.Some? ==> batch.digest == old(batch).entries[i].request.digest)
            else batch.digest == old(batch).digest)
    {
      hide EntrySound, SiteSound, PostSound, PhaseSound, Run, Frozen, Bound, WelcomeAt, CurrentlyAt;
      ghost var clean, fits := CleanStart(i), DigestFits(i);
      ok := PrepareFrontend(i);
      if !ok {
        return;
      }
      ghost var before := batch;
      assert DoneUpTo(before, i);
      if clean && fits && upset == old(upset) {
        CleanIsWelcome(i);
      }
      var r := ExecuteNode(i, false);
      DoneKept(before, batch, i);
      if r.Raised? || (r.outcome.status != Succeeded && r.outcome.status != Skipped) {
        return false;
      }
      ok := RecordDigest(i);
    }

    // A new batch: all requests alike, all nodes ready for them.
    ghost predicate Unstarted()
      reads this, nodes
    {
      && batch.phase != Restoring && batch.phase != Restored && batch.digest.None?
      && (forall j :: 0 <= j < |nodes| ==> CleanStart(j))
      && (forall j, k :: 0 <= j < |batch.entries| && 0 <= k < |batch.entries| ==>
            batch.entries[j].request.digest == batch.entries[k].request.digest)
    }

    lemma AllDone(f: File)
      requires |f.entries| == |nodes| && DoneUpTo(f, |nodes|)
      ensures PhaseSound(f.(phase := Updated), frontend)
    {
    }

    // update_batch
    method UpdateBatch() returns (ok: bool)
      requires Valid() && running && file == batch
      modifies this, nodes
      ensures Valid() && (running ==> file == batch)
      ensures ok ==> running && file.phase == Updated
      // A failed update is undone if the policy says so, and is not if it does not.
      ensures !ok && running && old(batch.phase) != Restoring && old(batch.phase) != Restored ==>
        if restorePolicy then file.phase == Restoring || file.phase == Restored else file.phase == Incomplete
      ensures old(batch.phase) == Restoring || old(batch.phase) == Restored ==> !ok && file == old(file)
      // An update that nothing stands in the way of succeeds.
      ensures old(upset) <= upset
      ensures upset == old(upset) && old(Unstarted()) ==> ok
    {
      hide EntrySound, SiteSound, PostSound, Run;
      if batch.phase == Restoring || batch.phase == Restored {
        return false;
      }
      ok := SetPhase(Applying);
      if !ok {
        return;
      }
      forall j | 0 <= j < |nodes| && old(Unstarted()) ensures CleanStart(j) {
        assert old(CleanStart(j));
      }
      var i := 0;
      while ok && i < |nodes|
        invariant i <= |nodes| && Valid() && (running ==> file == batch) && (ok ==> running)
        invariant batch.phase == Applying && (ok ==> DoneUpTo(batch, i))
        invariant old(upset) <= upset && |batch.entries| == |old(batch).entries|
        invariant upset == old(upset) && old(Unstarted()) ==>
          && ok && (forall j :: i <= j < |nodes| ==> CleanStart(j) && batch.entries[j] == old(batch).entries[j])
          && (frontend && i > 0 ==> batch.digest.Some?) && (i == 0 || !frontend ==> batch.digest.None?)
          && (frontend && batch.digest.Some? ==> forall j :: i <= j < |nodes| ==> DigestFits(j))
        decreases |nodes| - i, ok
      {
        ok := UpdateNode(i);
        if ok {
          i := i + 1;
        }
      }
      if ok {
        AllDone(batch);
        ok := SetPhase(Updated);
      } else if running {
        var noted := SetPhase(Incomplete);
        if noted && restorePolicy {
          var _ := RestoreBatch();
        }
      }
    }

    // Any number of runs of the client, each of which may die anywhere.
    method Live()
      requires Valid() && (running ==> file == batch)
      modifies this, nodes
      ensures Valid() && (running ==> file == batch)
    {
      var runs: nat := *;
      while runs > 0
        invariant Valid() && (running ==> file == batch)
      {
        Reload();
        var rollback: bool := *;
        if rollback {
          var _ := RestoreBatch();
        } else {
          var _ := UpdateBatch();
        }
        runs := runs - 1;
      }
    }

    /* ---------- What holds whenever the client is looked at ---------- */

    // A batch that is "restored" has put every node with a stored success back: at the
    // instant at which the node's restore was installed, its current version was of the commit
    // that preflight had read there, and what it replaced was the commit of the update and no
    // one else's -- whatever other clients did in between.
    lemma RestoredMeansRestored(i: nat) returns (k: nat, m: nat)
      requires Valid() && file.phase == Restored && i < |nodes|
      requires file.entries[i].result.Some? && file.entries[i].result.value.status == Succeeded
      ensures k < |nodes[i].hist| && file.entries[i].restoreResult.Some?
      ensures Some(nodes[i].hist[k].disk.revision) == file.entries[i].restoreResult.value.after
      ensures before[i].current.Some?
      ensures PutBackAt(nodes[i].hist, k, m, before[i].current, nodes[i].hist[k].disk.revision)
      ensures readAt[i] < |nodes[i].hist| && before[i].current == nodes[i].hist[readAt[i]].disk.current
      ensures LinkOf(nodes[i].hist[k].disk.previous) == At(file.entries[i].request.commit)
    {
      hide Run, SoundState;
      var e, h, id := file.entries[i], nodes[i].hist, undoIds[i];
      assert SiteSound(i) && Undoing(e);
      assert EntrySound(e, network[i], nodes[i].disk, updateIds[i], undoIds[i], before[i]);
      assert id in Mine() && id in nodes[i].disk.records;
      var n :| 0 <= n < |h| && Some(h[n].disk.revision) == e.restoreRequest.value.expected
        && LinkOf(h[n].disk.current) == At(e.request.commit);
      k, m := RestoreInstalled(h, n, id);
    }

    // What a restored batch says of every node, unless its entry is doubtful: the update has
    // never moved the node, or the version of preflight was current again, by the restore or
    // by the node's own rollback.
    lemma RestoredMeansPutBack(i: nat) returns (k: nat, m: nat)
      requires Valid() && file.phase == Restored && i < |nodes| && !Doubtful(file.entries[i])
      ensures LeftAlone(nodes[i].hist, updateIds[i]) || (
        && k < |nodes[i].hist|
        && PutBackAt(nodes[i].hist, k, m, before[i].current, nodes[i].hist[k].disk.revision)
        && (|| (file.entries[i].restoreResult.Some?
                && file.entries[i].restoreResult.value.after == Some(nodes[i].hist[k].disk.revision))
            || (updateIds[i] in nodes[i].disk.records
                && nodes[i].disk.records[updateIds[i]].result.phase == RolledBack
                && nodes[i].disk.records[updateIds[i]].result.after == nodes[i].hist[k].disk.revision)))
    {
      hide Run, SoundState, Undoing, SiteSound, EntrySound, LeftAlone, PutBackAt;
      k, m := 0, 0;
      var e := file.entries[i];
      assert PhaseSound(file, frontend);
      if e.result.None? {
        PreparedIsUnknown(i);
      } else if e.result.value.status == Succeeded {
        k, m := RestoredMeansRestored(i);
      } else if e.result.value.status == Skipped {
        SkippedIsLeftAlone(i);
      } else {
        k, m := FailedIsPutBack(i);
      }
    }

    lemma PreparedIsUnknown(i: nat)
      requires Valid() && i < |nodes| && file.entries[i].phase == Prepared
      ensures updateIds[i] !in nodes[i].disk.records && LeftAlone(nodes[i].hist, updateIds[i])
    {
      hide Run, Confirmed;
      assert SiteSound(i) && updateIds[i] in Mine();
      assert EntrySound(file.entries[i], network[i], nodes[i].disk, updateIds[i], undoIds[i], before[i]);
      NeverKnown(nodes[i].hist, updateIds[i]);
      NotAnnouncedBefore(nodes[i].hist, updateIds[i]);
    }

    lemma UnswitchedIsLeftAlone(i: nat)
      requires Valid() && i < |nodes| && updateIds[i] in nodes[i].disk.records
      requires !nodes[i].disk.records[updateIds[i]].intent
      ensures LeftAlone(nodes[i].hist, updateIds[i])
    {
      hide Run, SoundState, Confirmed;
      assert SiteSound(i) && updateIds[i] in Mine();
      assert EntrySound(file.entries[i], network[i], nodes[i].disk, updateIds[i], undoIds[i], before[i]);
      nodes[i].LiveWorld();
      RecordNamed(nodes[i].disk, updateIds[i], nodes[i].past);
      NotMovedBefore(nodes[i].hist, updateIds[i]);
      NotAnnouncedBefore(nodes[i].hist, updateIds[i]);
    }

    lemma SkippedIsLeftAlone(i: nat)
      requires Valid() && i < |nodes| && file.entries[i].result.Some?
      requires file.entries[i].result.value.status == Skipped
      ensures var d := nodes[i].disk;
        && updateIds[i] in d.records && d.records[updateIds[i]].result.status == Skipped
        && LinkOf(d.records[updateIds[i]].baseline) == At(d.records[updateIds[i]].request.commit)
      ensures LeftAlone(nodes[i].hist, updateIds[i])
    {
      hide Run, SoundState, LeftAlone;
      assert SiteSound(i);
      assert EntrySound(file.entries[i], network[i], nodes[i].disk, updateIds[i], undoIds[i], before[i]);
      nodes[i].LiveWorld();
      RecordNamed(nodes[i].disk, updateIds[i], nodes[i].past);
      UnswitchedIsLeftAlone(i);
    }

    lemma FailedIsPutBack(i: nat) returns (k: nat, m: nat)
      requires Valid() && i < |nodes| && file.entries[i].result.Some?
      requires file.entries[i].result.value.status == Failed && !Unclear(file.entries[i].result.value)
      ensures LeftAlone(nodes[i].hist, updateIds[i]) || (
        && k < |nodes[i].hist| && updateIds[i] in nodes[i].disk.records
        && PutBackAt(nodes[i].hist, k, m, before[i].current, nodes[i].hist[k].disk.revision)
        && nodes[i].disk.records[updateIds[i]].result.phase == RolledBack
        && nodes[i].disk.records[updateIds[i]].result.after == nodes[i].hist[k].disk.revision)
    {
      hide Run, SoundState, LeftAlone;
      k, m := 0, 0;
      var h, id := nodes[i].hist, updateIds[i];
      assert SiteSound(i) && id in Mine();
      assert EntrySound(file.entries[i], network[i], nodes[i].disk, id, undoIds[i], before[i]);
      nodes[i].LiveWorld();
      RecordNamed(nodes[i].disk, id, nodes[i].past);
      if nodes[i].disk.records[id].intent {
        k, m := RollbackInstalled(h, id);
        BaselineAsRead(h, readAt[i], nodes[i].disk, id, before[i], network[i], Mine());
      } else {
        UnswitchedIsLeftAlone(i);
      }
    }

    // The body sent under a release id never changes, over all crashes and resumes.
    lemma FixedBody(m: nat, n: nat)
      requires Valid() && m < |posts| && n < |posts| && posts[m].body.id == posts[n].body.id
      ensures posts[m].body == posts[n].body && posts[m].node == posts[n].node
    {
    }

    // Before a body was sent, the batch file held it and said so; and when an update was
    // sent, the file held a complete or skipped result for every earlier node.
    lemma DurableFirst(n: nat)
      requires Valid() && n < |posts|
      ensures var p := posts[n];
        && p.node < |p.file.entries| && p.file.entries[p.node].Asked(p.restore) == Some(p.body)
        && p.file.entries[p.node].phase != Prepared
        && forall j :: 0 <= j < p.node ==> Good(p.file.entries[j].result)
    {
    }

    // Before an nginx command was sent, the file announced it.
    lemma AnnouncedFirst(n: nat)
      requires Valid() && n < |orders|
      ensures var o := orders[n];
        && o.node < |o.file.entries| && o.file.entries[o.node].phase == CommandSending
        && o.file.entries[o.node].Got(o.restore).Some?
        && o.file.entries[o.node].Got(o.restore).value.status == Succeeded
        && CommandsLeft(o.file.entries[o.node].Got(o.restore).value.phase) == if o.reload then 1 else 2
    {
    }

    // Restores go in reverse: when one was sent, every write of the batch was resolved and
    // every later node that had been updated was restored, all of it durably.
    lemma ReverseOrder(n: nat)
      requires Valid() && n < |posts| && posts[n].restore
      ensures var p := posts[n];
        && (forall j :: 0 <= j < |p.file.entries| ==> Resolved(p.file.entries[j]))
        && (forall j :: p.node < j < |p.file.entries| ==> Undoing(p.file.entries[j]))
    {
      assert PostSound(posts[n]);
    }

    // A batch that is "updated" has every node done, or on the requested commit when it was
    // asked, and one digest for a frontend.
    lemma UpdatedMeansEverywhere(i: nat)
      requires Valid() && file.phase == Updated && i < |nodes|
      ensures Good(file.entries[i].result)
      ensures file.entries[i].result.value.status == Skipped ==>
        && updateIds[i] in nodes[i].disk.records
        && nodes[i].disk.records[updateIds[i]].result.status == Skipped
        && LinkOf(nodes[i].disk.records[updateIds[i]].baseline) == At(file.entries[i].request.commit)
      ensures file.entries[i].result.value.status == Succeeded ==>
        && updateIds[i] in nodes[i].disk.records && CompleteRecord(nodes[i].disk.records[updateIds[i]])
        && nodes[i].disk.records[updateIds[i]].candidate.Some?
        && nodes[i].disk.records[updateIds[i]].candidate.value.commit == file.entries[i].request.commit
        && (frontend ==> nodes[i].disk.records[updateIds[i]].candidate.value.artifact == file.digest)
      ensures frontend ==> file.digest.Some? && file.entries[i].result.value.digest == file.digest
    {
      hide Run, SoundState;
      assert SiteSound(i) && updateIds[i] in Mine();
      assert EntrySound(file.entries[i], network[i], nodes[i].disk, updateIds[i], undoIds[i], before[i]);
      nodes[i].LiveWorld();
      if updateIds[i] in nodes[i].disk.records {
        RecordNamed(nodes[i].disk, updateIds[i], nodes[i].past);
      }
      if file.entries[i].result.value.status == Skipped {
        SkippedIsLeftAlone(i);
      }
    }
  }

  predicate DistinctIds(n: nat, updateIds: seq<ReleaseId>, undoIds: seq<ReleaseId>) {
    && |updateIds| == n && |undoIds| == n
    && forall i, j :: 0 <= i < n && 0 <= j < n ==>
         updateIds[i] != undoIds[j] && (i != j ==> updateIds[i] != updateIds[j] && undoIds[i] != undoIds[j])
  }

  // The whole program, on UUIDs that no node has seen: preflight, the first save, and then
  // any number of runs, each of which may die anywhere. The lemmas of Client apply to
  // whatever it leaves.
  method Deploy(nodes: seq<Node>, request: Request, frontend: bool, restorePolicy: bool,
                updateIds: seq<ReleaseId>, undoIds: seq<ReleaseId>)
    returns (client: Option<Client>)
    requires forall i, j :: 0 <= i < j < |nodes| ==> nodes[i] != nodes[j]
    requires DistinctIds(|nodes|, updateIds, undoIds) && request.restoreOf.None?
    requires forall i :: 0 <= i < |nodes| ==>
      nodes[i].Valid() && Bound(nodes[i].disk, map[], OurIds(updateIds, undoIds))
    modifies nodes
    ensures client.Some? ==> fresh(client.value) && client.value.Valid() && client.value.nodes == nodes
    ensures client.Some? && restorePolicy ==>
      forall i :: 0 <= i < |nodes| ==> client.value.before[i].current.Some?
  {
    hide SoundState, Bound, ReadAt;
    var ok, before, readAt := Preflight(nodes, OurIds(updateIds, undoIds));
    if !ok || (restorePolicy && exists i :: 0 <= i < |before| && before[i].current.None?) {
      return None;
    }
    var c := new Client(nodes, before, readAt, request, frontend, restorePolicy, updateIds, undoIds);
    c.Live();
    client := Some(c);
  }
}
