/** What the durable world of one target may look like, and how it may change.

    A World is everything that outlives a crash: the saved state and the `latest` link,
    together with ghost facts about the past. The publisher records a World after every
    atomic action; a Run is such a record. The lemmas at the end hold of every Run. */
module Protocol {
  import opened Release
  import opened State

  // Effects on the outside world, in the order in which they happened. A failed nginx
  // command was still issued.
  datatype Event =
    | Switched(to: Link)
    | Tested(link: Link, ok: bool)
    | Reloaded(link: Link, ok: bool)
    | Checked(version: Option<Version>, ok: bool)
    | Verified(version: Option<Version>, ok: bool)

  datatype Past = Past(
    log: seq<Event>,
    pairs: seq<Pair>,          // pairs[r] is the (current, previous) that revision r was drawn for
    activated: set<Revision>,  // revisions drawn after a reload on the link they were drawn with
    served: set<Revision>,     // revisions that have been durable
    clean: bool,               // no save has failed and no recovery_required record was taken over
    overwritten: bool,         // some record with a switch intent was replaced by a retry
    plain: bool)               // the target is not a frontend, so no version has an artifact digest

  datatype World = World(disk: TargetState, link: Link, past: Past)

  /* ---------- One record, one state, one world ---------- */

  predicate CompleteRecord(r: Record) {
    r.result.status == Succeeded && r.result.phase == Complete
  }

  // A record that no later operation may touch: an end reported as complete, or a failure
  // with its switch never announced or undone.
  predicate Settled(r: Record) {
    || (r.result.phase == Complete && r.result.Terminal())
    || (r.result.status == Failed && (!r.intent || r.result.phase == RolledBack))
  }

  predicate WithoutArtifact(v: Option<Version>) {
    v.Some? ==> v.value.artifact.None?
  }

  // The record reports a revision of its own: it has moved the current version.
  predicate HasMoved(r: Record) {
    r.result.after != r.result.before
  }

  ghost predicate SoundRecord(r: Record, p: Past) {
    && (p.plain ==> WithoutArtifact(r.candidate))
    && (r.result.before < |p.pairs| && p.pairs[r.result.before] == Pair(r.baseline, r.baselinePrevious))
    && (r.fingerprint.expected.Some? ==> r.fingerprint.expected.value == r.result.before)
    && r.result.before <= r.result.after && (HasMoved(r) ==> r.intent)
    && r.request == r.fingerprint.(digest := r.request.digest)
    && (r.result.after < |p.pairs|
        && (p.pairs[r.result.after] == Pair(r.baseline, r.baselinePrevious)
            || (r.candidate.Some? && p.pairs[r.result.after] == Pair(r.candidate, r.baseline))))
    && (r.baseline.None? ==> r.beforeLink == Absent)
    && (r.candidate.Some? ==> r.candidate.value.commit == r.request.commit)
    && (r.intent ==> CandidateNamed(r))
    && (r.tested ==> r.intent && Tested(LinkOf(r.candidate), true) in p.log)
    && (r.result.status == Succeeded ==> r.intent)
    && (p.clean && r.result.status == RecoveryRequired ==> r.intent)
    && (r.result.status == Skipped ==>
          r.result.phase == Complete && !r.intent && LinkOf(r.baseline) == At(r.request.commit))
    && (r.result.status == Failed && r.result.code != Superseded ==> !r.intent || r.result.phase == RolledBack)
    && (r.result.status == Running ==> r.result.phase != Complete && r.result.phase != RolledBack)
    && (r.result.phase == LatestSwitched ==> HasMoved(r))
    && (HasMoved(r) && r.result.phase != RolledBack ==> p.pairs[r.result.after] == Pair(r.candidate, r.baseline))
    && (r.result.phase == RolledBack ==> p.pairs[r.result.after] == Pair(r.baseline, r.baselinePrevious))
    && (r.result.phase == RolledBack ==> Reloaded(LinkOf(r.baseline), true) in p.log)
    && (r.result.phase == Complete && r.intent ==> Reloaded(LinkOf(r.candidate), true) in p.log)
    && (CompleteRecord(r) || r.result.phase == RolledBack ==> HasMoved(r) && r.result.after in p.activated)
    && (CompleteRecord(r) ==>
          r.result.activation == ReloadRequested && p.pairs[r.result.after] == Pair(r.candidate, r.baseline))
  }

  // A switched release that the current version still belongs to.
  predicate Pending(r: Record, v: Version) {
    && r.candidate.Some? && r.candidate.value.commit == v.commit && r.candidate.value.source == v.source
    && r.result.status == Succeeded && Resumable(r.result.phase)
  }

  ghost predicate Grounded(s: TargetState, p: Past) {
    || s.current.None?
    || s.revision in p.activated
    || (exists id :: id in s.records && Pending(s.records[id], s.current.value))
  }

  // A record that would not exist without a successful reload on `l`.
  predicate ReloadedBy(r: Record, l: Link) {
    || (r.result.phase == Complete && r.intent && LinkOf(r.candidate) == l)
    || (r.result.phase == RolledBack && LinkOf(r.baseline) == l)
  }

  predicate ReloadRecorded(s: TargetState) {
    exists id :: id in s.records && ReloadedBy(s.records[id], LinkOf(s.current))
  }

  predicate AwaitsRecovery(s: TargetState) {
    s.active.Some? && s.active.value in s.records
    && s.records[s.active.value].result.status == RecoveryRequired
  }

  ghost predicate SoundEntry(s: TargetState, id: ReleaseId, p: Past)
    requires id in s.records
  {
    var r := s.records[id];
    && r.request.id == id
    && SoundRecord(r, p)
    && r.result.after <= s.revision && (r.result.after == s.revision || r.result.after in p.served)
    && (r.result.before == s.revision || r.result.before in p.served)
  }

  // The current version is the one `r` started from, or the one it switched to.
  predicate AtEitherEnd(s: TargetState, r: Record) {
    LinkOf(s.current) == LinkOf(r.candidate) || LinkOf(s.current) == LinkOf(r.baseline)
  }

  ghost predicate SoundPairs(pairs: seq<Pair>, plain: bool) {
    plain ==> forall r :: 0 <= r < |pairs| ==>
      WithoutArtifact(pairs[r].current) && WithoutArtifact(pairs[r].previous)
  }

  ghost predicate SoundState(s: TargetState, p: Past) {
    && (s.revision < |p.pairs| && p.pairs[s.revision] == PairOf(s))
    && SoundPairs(p.pairs, p.plain)
    && (forall id :: id in s.records ==> SoundEntry(s, id, p))
    && (s.active.Some? ==>
          && s.active.value in s.records && !Settled(s.records[s.active.value])
          && (s.records[s.active.value].intent ==> AtEitherEnd(s, s.records[s.active.value])))
    && (p.clean ==> Grounded(s, p) || AwaitsRecovery(s))
  }

  // The link is that of the current version, or a record's switch intent accounts for it.
  predicate ExplainedBy(r: Record, l: Link) {
    r.intent && (l == LinkOf(r.candidate) || l == LinkOf(r.baseline))
  }

  ghost predicate Explained(s: TargetState, l: Link) {
    l == LinkOf(s.current) || exists id :: id in s.records && ExplainedBy(s.records[id], l)
  }

  ghost predicate ReloadsTested(log: seq<Event>) {
    forall k :: 0 <= k < |log| && log[k].Reloaded? ==> Tested(log[k].link, true) in log[..k]
  }

  ghost predicate Sound(w: World) {
    && SoundState(w.disk, w.past)
    && w.disk.revision in w.past.served
    && (forall r :: r in w.past.activated ==>
          r < |w.past.pairs| && Reloaded(LinkOf(w.past.pairs[r].current), true) in w.past.log)
    && (!w.past.overwritten ==> Explained(w.disk, w.link))
    && ReloadsTested(w.past.log)
  }

  /* ---------- Change ---------- */

  ghost predicate Later(p: Past, q: Past) {
    && p.log <= q.log
    && p.pairs <= q.pairs
    && p.activated <= q.activated && p.served <= q.served
    && q.plain == p.plain && (SoundPairs(p.pairs, p.plain) ==> SoundPairs(q.pairs, q.plain))
    && (q.clean ==> p.clean)
    && (p.overwritten ==> q.overwritten)
  }

  // b is the same release request as a, further along.
  ghost predicate Kept(a: Record, b: Record) {
    && b.request == a.request && b.fingerprint == a.fingerprint
    && b.baseline == a.baseline && b.baselinePrevious == a.baselinePrevious
    && b.result.before == a.result.before
    && (a.intent ==> b.intent && b.candidate == a.candidate)
    && (a.tested ==> b.tested)
    && (b.result.status == Running ==> a.result.status == Running)
    && a.result.after <= b.result.after
  }

  // b is the same client's second attempt after a ended in recovery_required.
  ghost predicate Retried(a: Record, b: Record) {
    && a.result.status == RecoveryRequired && b.fingerprint == a.fingerprint
    && a.result.after <= b.result.after
  }

  // A release whose move made the revision of s.
  predicate Owns(s: TargetState, id: ReleaseId) {
    id in s.records && s.records[id].result.after == s.revision && HasMoved(s.records[id])
  }

  ghost predicate OwnsAlone(s: TargetState, id: ReleaseId) {
    Owns(s, id) && forall o :: Owns(s, o) ==> o == id
  }

  ghost predicate Covers(s: TargetState, t: TargetState) {
    forall l :: Explained(s, l) ==> Explained(t, l)
  }

  // t follows from s without a new request being accepted.
  ghost predicate Continues(s: TargetState, t: TargetState) {
    && Moves(s, t)
    && (forall id :: id in s.records ==> id in t.records && Kept(s.records[id], t.records[id]))
    && (forall id :: id in t.records ==> id in s.records)
    && Covers(s, t)
  }

  // A new revision comes with the one record that it was drawn for; without one no record
  // reports a new revision.
  ghost predicate Moves(s: TargetState, t: TargetState) {
    if s.revision == t.revision then
      forall id :: id in s.records && id in t.records ==> t.records[id].result.after == s.records[id].result.after
    else s.revision < t.revision && exists id :: OwnsAlone(t, id)
  }

  // A save of t over s. Later(p) tells whether an intent was ever overwritten.
  ghost predicate Saveable(s: TargetState, t: TargetState, p: Past) {
    && s.revision <= t.revision && (s.revision != t.revision ==> exists id :: OwnsAlone(t, id))
    && (forall id :: id in s.records ==>
          && id in t.records
          && (Kept(s.records[id], t.records[id]) || Retried(s.records[id], t.records[id]))
          && (s.revision == t.revision && HasMoved(t.records[id]) ==>
                t.records[id].result.after == s.records[id].result.after))
    && (!p.overwritten ==> Covers(s, t))
  }

  // What an event says about the link before and after it.
  predicate Fits(e: Event, before: Link, after: Link) {
    match e
    case Switched(to) => after == to
    case Tested(l, _) => before == l && after == l
    case Reloaded(l, _) => before == l && after == l
    case Checked(_, _) => before == after
    case Verified(_, _) => before == after
  }

  // The log gains at most one event, and `latest` never moves without one.
  predicate Recorded(a: World, b: World) {
    || (b.past.log == a.past.log && b.link == a.link)
    || (|b.past.log| == |a.past.log| + 1 && b.past.log[..|a.past.log|] == a.past.log
        && Fits(b.past.log[|a.past.log|], a.link, b.link))
  }

  // Since `latest` was last switched, `l` has been reloaded.
  ghost predicate ReloadedSince(log: seq<Event>, l: Link) {
    exists n :: 0 <= n < |log| && log[n] == Reloaded(l, true) && forall q :: n < q < |log| ==> !log[q].Switched?
  }

  // Revisions are drawn one by one, each with `latest` on the version it is drawn for.
  ghost predicate Draws(a: World, b: World) {
    || (b.past.pairs == a.past.pairs && b.past.activated == a.past.activated)
    || (|b.past.pairs| == |a.past.pairs| + 1 && b.past.pairs[..|a.past.pairs|] == a.past.pairs
        && a.link == b.link == LinkOf(b.past.pairs[|a.past.pairs|].current)
        && b.past.activated <= a.past.activated + {|a.past.pairs|}
        && (|a.past.pairs| in b.past.activated ==> ReloadedSince(b.past.log, b.link)))
  }

  ghost predicate Step(a: World, b: World) {
    && Later(a.past, b.past) && Draws(a, b)
    && Recorded(a, b)
    && Saveable(a.disk, b.disk, b.past)
    && b.past.served <= a.past.served + {b.disk.revision}
  }

  // A target as registration finds it: nothing was logged or installed.
  ghost predicate Begins(w: World) {
    w.past.log == [] && w.past.served == {w.disk.revision} && |w.past.pairs| == 1 && w.past.activated == {}
  }

  ghost predicate Run(h: seq<World>) {
    && (|h| > 0 ==> Begins(h[0]))
    && (forall k :: 0 <= k < |h| ==> Sound(h[k]))
    && (forall k :: 0 < k < |h| ==> Step(h[k - 1], h[k]))
  }

  /* ---------- What the environment refuses ---------- */

  // Refused actions so far, a power cut included, and the saves among them.
  datatype Trouble = Trouble(refused: nat, unsaved: nat)

  function After(t: Trouble, ok: bool): Trouble {
    if ok then t else t.(refused := t.refused + 1)
  }

  function AfterSave(t: Trouble, ok: bool): Trouble {
    if ok then t else Trouble(t.refused + 1, t.unsaved + 1)
  }

  predicate Grew(a: Trouble, b: Trouble) {
    a.refused <= b.refused && a.unsaved <= b.unsaved
  }

  /* ---------- Elementary facts ---------- */

  lemma LaterTransitive(p: Past, q: Past, r: Past)
    requires Later(p, q) && Later(q, r)
    ensures Later(p, r)
  {
  }

  lemma SaveableThenContinues(s: TargetState, t: TargetState, u: TargetState, p: Past)
    requires Saveable(s, t, p) && Continues(t, u)
    ensures Saveable(s, u, p)
  {
    OwnerStays(t, u);
  }

  lemma OwnerStays(s: TargetState, t: TargetState)
    requires Continues(s, t)
    ensures s.revision == t.revision ==> forall id :: OwnsAlone(s, id) ==> OwnsAlone(t, id)
  {
    if s.revision == t.revision {
      forall id ensures Owns(t, id) <==> Owns(s, id) {
        assert id in s.records ==> Kept(s.records[id], t.records[id]);
      }
    }
  }

  lemma SaveableLater(s: TargetState, t: TargetState, p: Past, q: Past)
    requires Saveable(s, t, p) && Later(p, q)
    ensures Saveable(s, t, q)
  {
  }

  lemma SoundRecordLater(r: Record, p: Past, q: Past)
    requires SoundRecord(r, p) && Later(p, q)
    ensures SoundRecord(r, q)
  {
  }

  lemma SoundStateLater(s: TargetState, p: Past, q: Past)
    requires SoundState(s, p) && Later(p, q)
    ensures SoundState(s, q)
  {
    forall id | id in s.records ensures SoundEntry(s, id, q) {
      assert SoundEntry(s, id, p);
      SoundRecordLater(s.records[id], p, q);
    }
  }

  lemma RunExtended(h: seq<World>, w: World)
    requires Run(h) && |h| > 0
    requires Sound(w) && Step(h[|h| - 1], w)
    ensures Run(h + [w])
  {
  }

  /* ---------- The atomic actions, as steps between worlds ---------- */

  ghost function Landed(w: World, s: TargetState): World {
    World(s, w.link, w.past.(served := w.past.served + {s.revision}))
  }

  ghost function Logged(p: Past, e: Event): Past {
    p.(log := p.log + [e])
  }

  lemma SaveableReflexive(s: TargetState, p: Past)
    ensures Saveable(s, s, p)
  {
  }

  lemma StepPastOnly(w: World, q: Past)
    requires Sound(w) && Later(w.past, q) && q.served == w.past.served
    requires Recorded(w, World(w.disk, w.link, q)) && Draws(w, World(w.disk, w.link, q))
    requires ReloadsTested(q.log)
    ensures Sound(World(w.disk, w.link, q)) && Step(w, World(w.disk, w.link, q))
  {
    SoundStateLater(w.disk, w.past, q);
    SaveableReflexive(w.disk, q);
    ActivatedKept(w, World(w.disk, w.link, q));
    hide SoundState, Saveable, ReloadedSince;
  }

  lemma ActivatedKept(w: World, v: World)
    requires Sound(w) && Later(w.past, v.past) && Draws(w, v)
    ensures forall r :: r in v.past.activated ==>
      r < |v.past.pairs| && Reloaded(LinkOf(v.past.pairs[r].current), true) in v.past.log
  {
  }

  lemma StepSave(w: World, s: TargetState)
    requires Sound(w) && SoundState(s, w.past) && Saveable(w.disk, s, w.past)
    ensures Sound(Landed(w, s)) && Step(w, Landed(w, s))
    ensures SoundState(s, Landed(w, s).past)
  {
    SoundStateLater(s, w.past, Landed(w, s).past);
    SaveableLater(w.disk, s, w.past, Landed(w, s).past);
  }

  lemma LoggedTested(log: seq<Event>, e: Event)
    requires ReloadsTested(log)
    requires e.Reloaded? ==> Tested(e.link, true) in log
    ensures ReloadsTested(log + [e])
  {
    var more := log + [e];
    forall k | 0 <= k < |more| && more[k].Reloaded?
      ensures Tested(more[k].link, true) in more[..k]
    {
      if k < |log| {
        assert more[..k] == log[..k];
      } else {
        assert more[..k] == log;
      }
    }
  }

  lemma ReloadedThenQuiet(log: seq<Event>, l: Link, quiet: seq<Event>)
    requires forall q :: 0 <= q < |quiet| ==> !quiet[q].Switched?
    ensures ReloadedSince(log + ([Reloaded(l, true)] + quiet), l)
  {
    assert (log + ([Reloaded(l, true)] + quiet))[|log|] == Reloaded(l, true);
  }

  lemma StepSwitch(w: World, l: Link)
    requires Sound(w)
    requires !w.past.overwritten ==> Explained(w.disk, l)
    ensures var v := World(w.disk, l, Logged(w.past, Switched(l))); Sound(v) && Step(w, v)
  {
    LoggedTested(w.past.log, Switched(l));
    SoundStateLater(w.disk, w.past, Logged(w.past, Switched(l)));
    SaveableReflexive(w.disk, Logged(w.past, Switched(l)));
  }

  /* ---------- What a faultless rollback does to the world, in order ---------- */

  function CheckedEvents(v: Option<Version>): seq<Event> {
    if v.Some? then [Checked(v, true)] else []
  }

  function VerifyEvents(v: Option<Version>): seq<Event> {
    CheckedEvents(v) + [Verified(v, true)]
  }

  function ActivateEvents(l: Link): seq<Event> {
    [Tested(l, true), Reloaded(l, true)]
  }

  function RollbackEvents(v: Option<Version>): seq<Event> {
    CheckedEvents(v) + [Switched(LinkOf(v))] + ActivateEvents(LinkOf(v)) + VerifyEvents(v)
  }

  // What the activation of a version that `latest` is on already leaves in the log.
  function ActivationEvents(v: Option<Version>): seq<Event> {
    [Checked(v, true)] + ActivateEvents(LinkOf(v)) + VerifyEvents(v)
  }

  lemma Activated(log: seq<Event>, v: Option<Version>, l: Link, more: seq<Event>)
    requires more == ((log + [Checked(v, true)]) + ActivateEvents(l)) + VerifyEvents(v)
    ensures ReloadedSince(more, l) && (l == LinkOf(v) ==> more == log + ActivationEvents(v))
  {
    var before := log + [Checked(v, true), Tested(l, true)];
    assert more == before + ([Reloaded(l, true)] + VerifyEvents(v));
    ReloadedThenQuiet(before, l, VerifyEvents(v));
  }

  // A log that ends in a rollback is not one that ends in such an activation.
  lemma RollbackNotActivation(log: seq<Event>, more: seq<Event>, v: Option<Version>, w: Option<Version>)
    requires log <= more
    ensures more + RollbackEvents(v) != log + ActivationEvents(w)
  {
    var a, b := more + RollbackEvents(v), log + ActivationEvents(w);
    assert a[|more| + |CheckedEvents(v)|].Switched?;
    assert forall q :: |log| <= q < |b| ==> !b[q].Switched?;
  }
}
