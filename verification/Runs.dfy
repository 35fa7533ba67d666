/** What a Run promises between any two of its instants, however its operations, crashes,
    recoveries and foreign requests were interleaved. */
module Runs {
  import opened Release
  import opened State
  import opened Protocol
  import opened Transitions
  import opened Outcomes

  /* ---------- Revisions ---------- */

  lemma {:induction false} RunLater(h: seq<World>, i: nat, j: nat)
    requires Run(h) && i <= j < |h|
    ensures Later(h[i].past, h[j].past) && h[i].disk.revision <= h[j].disk.revision
    decreases j
  {
    hide Sound, Covers, Recorded;
    if i < j {
      RunLater(h, i, j - 1);
      assert Step(h[j - 1], h[j]);
      LaterTransitive(h[i].past, h[j - 1].past, h[j].past);
    }
  }

  // A revision names one (current, previous) pair for ever.
  lemma RevisionNamesPair(h: seq<World>, i: nat, j: nat)
    requires Run(h) && i <= j < |h| && h[i].disk.revision == h[j].disk.revision
    ensures PairOf(h[i].disk) == PairOf(h[j].disk)
  {
    RunLater(h, i, j);
    assert Sound(h[i]) && Sound(h[j]);
  }

  // No A-B-A: while a revision lasts nothing else is installed, and a pair that changes
  // does so under a revision that no earlier instant has seen.
  lemma NoABA(h: seq<World>, i: nat, k: nat, j: nat)
    requires Run(h) && i <= k <= j < |h|
    ensures h[i].disk.revision == h[j].disk.revision ==>
      h[k].disk.revision == h[i].disk.revision && PairOf(h[k].disk) == PairOf(h[i].disk)
    ensures PairOf(h[k].disk) != PairOf(h[j].disk) ==> h[i].disk.revision < h[j].disk.revision
  {
    RunLater(h, i, k);
    RunLater(h, k, j);
    if h[k].disk.revision == h[j].disk.revision {
      RevisionNamesPair(h, k, j);
    }
    if h[i].disk.revision == h[k].disk.revision {
      RevisionNamesPair(h, i, k);
    }
  }

  // A request that carries the revision read at instant i is let in at instant j only if
  // every instant between them had the pair that was read.
  lemma ExpectedRevisionGuards(h: seq<World>, i: nat, k: nat, j: nat, req: Request, frontend: bool)
    requires Run(h) && i <= k <= j < |h|
    requires req.expected == Some(h[i].disk.revision) && Admissible(h[j].disk, req, frontend)
    ensures PairOf(h[k].disk) == PairOf(h[i].disk)
  {
    NoABA(h, i, k, j);
  }

  /* ---------- Records ---------- */

  // A record is never forgotten, and stays bound to the request it was made for.
  lemma {:induction false} RecordsLast(h: seq<World>, i: nat, j: nat, id: ReleaseId)
    requires Run(h) && i <= j < |h| && id in h[i].disk.records
    ensures id in h[j].disk.records
    ensures h[j].disk.records[id].fingerprint == h[i].disk.records[id].fingerprint
    decreases j
  {
    hide Sound, Covers, Later, Recorded;
    if i < j {
      RecordsLast(h, i, j - 1, id);
      assert Step(h[j - 1], h[j]);
      var a, b := h[j - 1].disk.records[id], h[j].disk.records[id];
      assert Kept(a, b) || Retried(a, b);
    }
  }

  // A release that never needed recovery was accepted once: one request, one baseline,
  // one revision it started from, and one candidate once its switch was announced.
  lemma {:induction false} AcceptedOnce(h: seq<World>, i: nat, j: nat, id: ReleaseId)
    requires Run(h) && i <= j < |h| && id in h[i].disk.records
    requires forall k :: i <= k < j && id in h[k].disk.records ==>
      h[k].disk.records[id].result.status != RecoveryRequired
    ensures id in h[j].disk.records && Kept(h[i].disk.records[id], h[j].disk.records[id])
    decreases j
  {
    hide Sound, Covers, Later, Recorded;
    if i < j {
      AcceptedOnce(h, i, j - 1, id);
      assert Step(h[j - 1], h[j]);
      var a, b := h[j - 1].disk.records[id], h[j].disk.records[id];
      assert Kept(a, b) || Retried(a, b);
    }
  }

  // A step that lets `id` in: its record is new, or is not what it was.
  predicate LetIn(a: World, b: World, id: ReleaseId) {
    && id in b.disk.records && b.disk.records[id].result.status == Running
    && (id in a.disk.records ==> a.disk.records[id].result.status != Running)
  }

  // Over a whole run, such a release is let in at most once: it never starts to run again.
  lemma LetInOnce(h: seq<World>, i: nat, j: nat, id: ReleaseId)
    requires Run(h) && 0 < i < j < |h| && LetIn(h[i - 1], h[i], id)
    requires forall k :: i <= k < j && id in h[k].disk.records ==>
      h[k].disk.records[id].result.status != RecoveryRequired
    ensures !LetIn(h[j - 1], h[j], id)
  {
    hide Sound, Covers, Later, Recorded;
    AcceptedOnce(h, i, j - 1, id);
    assert Step(h[j - 1], h[j]);
    var a, b := h[j - 1].disk.records[id], h[j].disk.records[id];
    assert Kept(a, b) || Retried(a, b);
  }

  // The rollback target of a release is the pair that its revision named.
  lemma BaselineWasCurrent(h: seq<World>, i: nat, j: nat, id: ReleaseId)
    requires Run(h) && i < |h| && j < |h| && id in h[j].disk.records
    requires h[i].disk.revision == h[j].disk.records[id].result.before
    ensures OldPair(h[j].disk.records[id]) == PairOf(h[i].disk)
  {
    assert Sound(h[i]) && Sound(h[j]);
    assert SoundEntry(h[j].disk, id, h[j].past);
    if i <= j {
      RunLater(h, i, j);
    } else {
      RunLater(h, j, i);
    }
  }

  // In particular it is what the client saw when it read the revision it then sent.
  lemma BaselineIsWhatWasRead(h: seq<World>, i: nat, j: nat, id: ReleaseId)
    requires Run(h) && i < |h| && j < |h| && id in h[j].disk.records
    requires h[j].disk.records[id].fingerprint.expected == Some(h[i].disk.revision)
    ensures OldPair(h[j].disk.records[id]) == PairOf(h[i].disk)
  {
    assert Sound(h[j]);
    assert SoundEntry(h[j].disk, id, h[j].past);
    BaselineWasCurrent(h, i, j, id);
  }

  lemma {:induction false} ServedInstant(h: seq<World>, j: nat, r: Revision) returns (k: nat)
    requires Run(h) && j < |h| && r in h[j].past.served
    ensures k <= j && h[k].disk.revision == r
  {
    hide Sound, Saveable;
    k := j;
    while h[k].disk.revision != r
      invariant k <= j && r in h[k].past.served
      decreases k
    {
      assert k > 0;
      assert Step(h[k - 1], h[k]);
      k := k - 1;
    }
  }

  // The revision that a record reports really was that of the target, at some instant.
  lemma ReportedInstant(h: seq<World>, j: nat, id: ReleaseId) returns (k: nat)
    requires Run(h) && j < |h| && id in h[j].disk.records
    ensures k <= j && h[k].disk.revision == h[j].disk.records[id].result.after
    ensures k == 0 || h[k - 1].disk.revision < h[k].disk.revision
    ensures PairOf(h[k].disk) == h[j].past.pairs[h[k].disk.revision]
  {
    assert Sound(h[j]) && SoundEntry(h[j].disk, id, h[j].past);
    k := ServedInstant(h, j, h[j].disk.records[id].result.after);
    while k > 0 && h[k - 1].disk.revision == h[k].disk.revision
      invariant k <= j && h[k].disk.revision == h[j].disk.records[id].result.after
    {
      k := k - 1;
    }
    if k > 0 {
      RunLater(h, k - 1, k);
    }
    assert Sound(h[k]);
    RunLater(h, k, j);
  }

  // A completed release really was current: its candidate and its baseline were the stored
  // pair, under the revision that it reports.
  lemma CompletedWasCurrent(h: seq<World>, j: nat, id: ReleaseId) returns (k: nat)
    requires Run(h) && j < |h| && id in h[j].disk.records && CompleteRecord(h[j].disk.records[id])
    ensures k <= j && h[k].disk.revision == h[j].disk.records[id].result.after
    ensures PairOf(h[k].disk) == NewPair(h[j].disk.records[id])
  {
    assert Sound(h[j]) && SoundEntry(h[j].disk, id, h[j].past);
    k := ReportedInstant(h, j, id);
  }

  // And a release that reports its rollback really was undone: its baseline was current
  // again, under the revision that it reports.
  lemma RolledBackWasCurrent(h: seq<World>, j: nat, id: ReleaseId) returns (k: nat)
    requires Run(h) && j < |h| && id in h[j].disk.records && h[j].disk.records[id].result.phase == RolledBack
    ensures k <= j && h[k].disk.revision == h[j].disk.records[id].result.after
    ensures PairOf(h[k].disk) == OldPair(h[j].disk.records[id])
  {
    assert Sound(h[j]) && SoundEntry(h[j].disk, id, h[j].past);
    k := ReportedInstant(h, j, id);
  }

  // Every revision but the first was drawn at some instant, with `latest` on the version
  // that it was drawn for.
  lemma DrawnInstant(h: seq<World>, j: nat, r: Revision) returns (m: nat)
    requires Run(h) && j < |h| && 0 < r < |h[j].past.pairs|
    ensures 0 < m <= j && |h[m - 1].past.pairs| == r && |h[m].past.pairs| == r + 1
    ensures h[m].link == LinkOf(h[j].past.pairs[r].current)
    ensures r in h[j].past.activated ==> ReloadedSince(h[m].past.log, h[m].link)
  {
    hide Sound, Saveable, Recorded, ReloadedSince;
    m := j;
    while |h[m - 1].past.pairs| > r
      invariant 0 < m <= j && |h[m].past.pairs| > r
      invariant r in h[j].past.activated ==> r in h[m].past.activated
      decreases m
    {
      assert Step(h[m - 1], h[m]);
      m := m - 1;
    }
    assert Step(h[m - 1], h[m]);
    RunLater(h, m, j);
  }

  /* ---------- Who moved the target ---------- */

  // Every move belongs to one release, whose record reports the new revision.
  lemma MoveHasOwner(h: seq<World>, k: nat) returns (id: ReleaseId)
    requires Run(h) && 0 < k < |h| && h[k].disk.revision != h[k - 1].disk.revision
    ensures OwnsAlone(h[k].disk, id)
    ensures PairOf(h[k].disk) in {OldPair(h[k].disk.records[id]), NewPair(h[k].disk.records[id])}
  {
    assert Step(h[k - 1], h[k]) && Sound(h[k]);
    id :| OwnsAlone(h[k].disk, id);
    assert SoundEntry(h[k].disk, id, h[k].past);
  }

  lemma {:induction false} ReportsGrow(h: seq<World>, i: nat, j: nat, id: ReleaseId)
    requires Run(h) && i <= j < |h| && id in h[i].disk.records
    ensures id in h[j].disk.records
    ensures h[i].disk.records[id].result.after <= h[j].disk.records[id].result.after
    decreases j
  {
    hide Sound, Covers, Later, Recorded, Draws;
    if i < j {
      ReportsGrow(h, i, j - 1, id);
      assert Step(h[j - 1], h[j]);
      var a, b := h[j - 1].disk.records[id], h[j].disk.records[id];
      assert Kept(a, b) || Retried(a, b);
    }
  }

  // No instant has the release report a revision of its own, so no move is its own.
  ghost predicate NeverMoved(h: seq<World>, id: ReleaseId) {
    forall k :: 0 <= k < |h| && id in h[k].disk.records ==> !HasMoved(h[k].disk.records[id])
  }

  // A release with an expected revision can be retried only on that revision. So if its
  // last record reports no move, none of its earlier attempts has moved the target either.
  lemma NotMovedBefore(h: seq<World>, id: ReleaseId)
    requires Run(h) && |h| > 0 && id in h[|h| - 1].disk.records
    requires h[|h| - 1].disk.records[id].fingerprint.expected.Some? && !HasMoved(h[|h| - 1].disk.records[id])
    ensures NeverMoved(h, id)
  {
    var j := |h| - 1;
    forall k | 0 <= k < |h| && id in h[k].disk.records ensures !HasMoved(h[k].disk.records[id]) {
      RecordsLast(h, k, j, id);
      ReportsGrow(h, k, j, id);
      assert Sound(h[k]) && SoundEntry(h[k].disk, id, h[k].past);
      assert Sound(h[j]) && SoundEntry(h[j].disk, id, h[j].past);
    }
  }

  lemma NeverKnown(h: seq<World>, id: ReleaseId)
    requires Run(h) && |h| > 0 && id !in h[|h| - 1].disk.records
    ensures NeverMoved(h, id) && NeverAnnounced(h, id)
  {
    hide Run;
    forall k | 0 <= k < |h| ensures id !in h[k].disk.records {
      if id in h[k].disk.records {
        RecordsLast(h, k, |h| - 1, id);
      }
    }
  }

  // No attempt at the release has announced a switch.
  ghost predicate NeverAnnounced(h: seq<World>, id: ReleaseId) {
    forall k :: 0 <= k < |h| && id in h[k].disk.records ==> !h[k].disk.records[id].intent
  }

  // A switch that was announced and then came into doubt: only then can a retry hide it.
  ghost predicate Doubted(h: seq<World>, id: ReleaseId) {
    exists k :: 0 <= k < |h| && id in h[k].disk.records && InDoubtAt(h[k].disk.records[id])
  }

  predicate InDoubtAt(r: Record) {
    r.intent && r.result.status == RecoveryRequired
  }

  lemma {:induction false} IntentLasts(h: seq<World>, i: nat, j: nat, id: ReleaseId)
    requires Run(h) && i <= j < |h| && id in h[i].disk.records && h[i].disk.records[id].intent
    requires forall k :: i <= k < j && id in h[k].disk.records ==> !InDoubtAt(h[k].disk.records[id])
    ensures id in h[j].disk.records && h[j].disk.records[id].intent
    decreases j
  {
    hide Sound, Covers, Later, Recorded, Draws;
    if i < j {
      IntentLasts(h, i, j - 1, id);
      assert Step(h[j - 1], h[j]);
      var a, b := h[j - 1].disk.records[id], h[j].disk.records[id];
      assert Kept(a, b) || Retried(a, b);
    }
  }

  // A last record without an intent says so for all attempts, exactly if no attempt came
  // into doubt after its switch was announced.
  lemma NotAnnouncedBefore(h: seq<World>, id: ReleaseId)
    requires Run(h) && |h| > 0
    requires id in h[|h| - 1].disk.records ==> !h[|h| - 1].disk.records[id].intent
    ensures NeverAnnounced(h, id) <==> !Doubted(h, id)
  {
    hide Run;
    if !Doubted(h, id) {
      forall k | 0 <= k < |h| && id in h[k].disk.records ensures !h[k].disk.records[id].intent {
        if h[k].disk.records[id].intent {
          IntentLasts(h, k, |h| - 1, id);
        }
      }
    }
  }

  // What a release that has announced nothing has to do with `latest`: nothing.
  lemma LinkOfOthers(h: seq<World>, k: nat, id: ReleaseId)
    requires Run(h) && k < |h| && !h[k].past.overwritten && NeverAnnounced(h, id)
    ensures
      || h[k].link == LinkOf(h[k].disk.current)
      || exists o :: o in h[k].disk.records && o != id && ExplainedBy(h[k].disk.records[o], h[k].link)
  {
    LinkAlwaysExplained(h, k);
    if h[k].link != LinkOf(h[k].disk.current) {
      var o :| o in h[k].disk.records && ExplainedBy(h[k].disk.records[o], h[k].link);
      assert o != id;
    }
  }

  lemma NextMove(h: seq<World>, k: nat, j: nat) returns (m: nat)
    requires Run(h) && k <= j < |h| && h[k].disk.revision != h[j].disk.revision
    ensures k < m <= j && h[m - 1].disk.revision == h[k].disk.revision < h[m].disk.revision
  {
    hide Run;
    m := k;
    while h[m].disk.revision == h[k].disk.revision
      invariant k <= m <= j && (m == k || h[m - 1].disk.revision == h[k].disk.revision)
      decreases j - m
    {
      m := m + 1;
    }
    RunLater(h, m - 1, m);
  }

  // From the instant at which a record's revision was installed: either the target has kept
  // revision and pair ever since, or another release has moved it.
  lemma MovedSince(h: seq<World>, j: nat, id: ReleaseId) returns (k: nat, m: nat, o: ReleaseId)
    requires Run(h) && j < |h| && id in h[j].disk.records
    ensures k <= j && h[k].disk.revision == h[j].disk.records[id].result.after
    ensures k == 0 || h[k - 1].disk.revision < h[k].disk.revision
    ensures h[j].disk.records[id].result.after == h[j].disk.revision ==>
      forall n :: k <= n <= j ==> h[n].disk.revision == h[j].disk.revision && PairOf(h[n].disk) == PairOf(h[j].disk)
    ensures h[j].disk.records[id].result.after != h[j].disk.revision ==>
      && k < m <= j && o != id && OwnsAlone(h[m].disk, o)
      && h[m - 1].disk.revision == h[k].disk.revision < h[m].disk.revision
  {
    hide Run;
    k := ReportedInstant(h, j, id);
    m, o := k, id;
    if h[j].disk.records[id].result.after == h[j].disk.revision {
      forall n | k <= n <= j
        ensures h[n].disk.revision == h[j].disk.revision && PairOf(h[n].disk) == PairOf(h[j].disk)
      {
        NoABA(h, k, n, j);
        NoABA(h, n, j, j);
      }
    } else {
      m := NextMove(h, k, j);
      o := MoveHasOwner(h, m);
      if o == id {
        ReportsGrow(h, m, j, id);
      }
    }
  }

  /* ---------- Who leaves a revision ---------- */

  // At instant k release `id` moves the target for the first time.
  ghost predicate FirstMove(h: seq<World>, k: nat, id: ReleaseId) {
    && 0 < k < |h| && h[k - 1].disk.revision != h[k].disk.revision && Owns(h[k].disk, id)
    && (id in h[k - 1].disk.records ==> !HasMoved(h[k - 1].disk.records[id]))
  }

  ghost predicate Expects(h: seq<World>, k: nat, id: ReleaseId, r: Revision) {
    k < |h| && id in h[k].disk.records && h[k].disk.records[id].fingerprint.expected == Some(r)
  }

  // No lost update, as far as it goes: of all releases, those with one expected revision
  // among them, at most one takes the target off a given revision -- in whatever operation,
  // commands and startups included.
  lemma OneLeaves(h: seq<World>, i: nat, j: nat, a: ReleaseId, b: ReleaseId)
    requires Run(h) && FirstMove(h, i, a) && FirstMove(h, j, b)
    requires h[i - 1].disk.revision == h[j - 1].disk.revision
    ensures i == j && a == b
  {
    hide Run;
    if i < j {
      RunLater(h, i - 1, i);
      RunLater(h, i, j - 1);
    } else if j < i {
      RunLater(h, j - 1, j);
      RunLater(h, j, i - 1);
    } else {
      var _ := MoveHasOwner(h, i);
    }
  }

  // What the record of a release with an expected revision says about an earlier instant.
  lemma StartsAtExpected(h: seq<World>, k: nat, j: nat, id: ReleaseId, r: Revision)
    requires Run(h) && k <= j && Expects(h, j, id, r) && id in h[k].disk.records
    ensures Expects(h, k, id, r)
    ensures h[k].disk.records[id].result.before == h[j].disk.records[id].result.before == r
    ensures HasMoved(h[k].disk.records[id]) ==>
      HasMoved(h[j].disk.records[id]) && h[j].disk.records[id].result.after >= h[k].disk.records[id].result.after
  {
    RecordsLast(h, k, j, id);
    ReportsGrow(h, k, j, id);
    assert Sound(h[k]) && SoundEntry(h[k].disk, id, h[k].past);
    assert Sound(h[j]) && SoundEntry(h[j].disk, id, h[j].past);
  }

  // A release moves the target for the first time once.
  lemma FirstMoveOnce(h: seq<World>, i: nat, j: nat, id: ReleaseId, r: Revision)
    requires Run(h) && FirstMove(h, i, id) && FirstMove(h, j, id) && i <= j && Expects(h, j, id, r)
    ensures i == j
  {
    hide Run;
    if i < j {
      RecordsLast(h, i, j - 1, id);
      RecordsLast(h, j - 1, j, id);
      StartsAtExpected(h, i, j - 1, id, r);
    }
  }

  // A first move leaves the revision that its release expects, unless another release has
  // left that revision before; and exactly then it is a second one.
  lemma SecondMover(h: seq<World>, k: nat, id: ReleaseId, r: Revision) returns (i: nat, o: ReleaseId)
    requires Run(h) && FirstMove(h, k, id) && Expects(h, k, id, r)
    ensures h[k - 1].disk.revision != r <==>
      exists n :: 0 < n < k && h[n - 1].disk.revision == r && h[n].disk.revision != r
    ensures h[k - 1].disk.revision != r ==>
      0 < i < k && h[i - 1].disk.revision == r < h[i].disk.revision && OwnsAlone(h[i].disk, o) && o != id
  {
    hide Run;
    i, o := k, id;
    forall n | 0 < n < k && h[n - 1].disk.revision == r && h[n].disk.revision != r
      ensures h[k - 1].disk.revision != r
    {
      RunLater(h, n - 1, n);
      RunLater(h, n, k - 1);
    }
    if h[k - 1].disk.revision != r {
      StartsAtExpected(h, k, k, id, r);
      var n := StartInstant(h, k, id);
      i := NextMove(h, n, k - 1);
      o := MoveHasOwner(h, i);
      if o == id {
        RecordsLast(h, i, k - 1, id);
        RecordsLast(h, k - 1, k, id);
        StartsAtExpected(h, i, k - 1, id, r);
      }
    }
  }

  // The revision that a release started from was the target's before its first move.
  lemma StartInstant(h: seq<World>, k: nat, id: ReleaseId) returns (n: nat)
    requires Run(h) && FirstMove(h, k, id)
    ensures n < k && h[n].disk.revision == h[k].disk.records[id].result.before
  {
    assert Sound(h[k]) && SoundEntry(h[k].disk, id, h[k].past);
    hide Sound;
    n := ServedInstant(h, k, h[k].disk.records[id].result.before);
  }

  // Between d and e no release but `id` has come to report another revision.
  predicate OnlyMoves(d: TargetState, e: TargetState, id: ReleaseId) {
    forall i :: i in e.records && i != id ==>
      i in d.records && e.records[i].result.after == d.records[i].result.after
  }

  // An operation on release `id` alone, from instant n on: a first move in it is of `id`,
  // and off the revision that the operation began with.
  lemma MovesOfOne(h: seq<World>, n: nat, id: ReleaseId, q: nat, x: ReleaseId, r: Revision)
    requires Run(h) && n < q < |h| && FirstMove(h, q, x) && Expects(h, q, x, r)
    requires OnlyMoves(h[n].disk, h[|h| - 1].disk, id)
    ensures x == id && h[q - 1].disk.revision == h[n].disk.revision
  {
    hide Run;
    OwnerIsOne(h, n, id, q, x);
    RunLater(h, n, q - 1);
    if h[q - 1].disk.revision != h[n].disk.revision {
      var m := NextMove(h, n, q - 1);
      var o := MoveHasOwner(h, m);
      OwnerIsOne(h, n, id, m, o);
      RecordsLast(h, m, q - 1, id);
      RecordsLast(h, q - 1, q, id);
      StartsAtExpected(h, m, q - 1, id, r);
    }
  }

  lemma OwnerIsOne(h: seq<World>, n: nat, id: ReleaseId, q: nat, x: ReleaseId)
    requires Run(h) && n < q < |h| && h[q - 1].disk.revision != h[q].disk.revision && Owns(h[q].disk, x)
    requires OnlyMoves(h[n].disk, h[|h| - 1].disk, id)
    ensures x == id
  {
    hide Run;
    ReportsGrow(h, q, |h| - 1, x);
    RunLater(h, n, q - 1);
    RunLater(h, q - 1, q);
    assert x in h[|h| - 1].disk.records;
    if x != id {
      ReportedBound(h, n, x);
    }
  }

  lemma ReportedBound(h: seq<World>, n: nat, id: ReleaseId)
    requires Run(h) && n < |h| && id in h[n].disk.records
    ensures h[n].disk.records[id].result.after <= h[n].disk.revision
  {
    assert Sound(h[n]) && SoundEntry(h[n].disk, id, h[n].past);
  }

  // Within one operation on `id` that moves the target: it is the first move of `id`, off
  // another revision than the expected one, exactly if `id` had not moved and the target had.
  lemma SecondMove(h: seq<World>, n: nat, id: ReleaseId, r: Revision)
    requires Run(h) && Expects(h, n, id, r) && h[n].disk.revision != h[|h| - 1].disk.revision
    requires OnlyMoves(h[n].disk, h[|h| - 1].disk, id)
    ensures (exists q :: n < q < |h| && FirstMove(h, q, id) && h[q - 1].disk.revision != r) <==>
      !HasMoved(h[n].disk.records[id]) && h[n].disk.records[id].result.before != h[n].disk.revision
  {
    hide Run;
    forall q | n < q < |h| && FirstMove(h, q, id) && h[q - 1].disk.revision != r
      ensures !HasMoved(h[n].disk.records[id]) && h[n].disk.records[id].result.before != h[n].disk.revision
    {
      RecordsLast(h, n, q - 1, id);
      RecordsLast(h, q - 1, q, id);
      MovesOfOne(h, n, id, q, id, r);
      StartsAtExpected(h, n, q - 1, id, r);
    }
    if !HasMoved(h[n].disk.records[id]) && h[n].disk.records[id].result.before != h[n].disk.revision {
      var q := NextMove(h, n, |h| - 1);
      var o := MoveHasOwner(h, q);
      OwnerIsOne(h, n, id, q, o);
      RecordsLast(h, n, q - 1, id);
      StartsAtExpected(h, n, n, id, r);
      StillUnmoved(h, n, q - 1, id, r);
      assert FirstMove(h, q, id);
    }
  }

  // As long as the revision stays, a release does not come to report a move.
  lemma {:induction false} StillUnmoved(h: seq<World>, i: nat, j: nat, id: ReleaseId, r: Revision)
    requires Run(h) && i <= j < |h| && h[i].disk.revision == h[j].disk.revision
    requires Expects(h, i, id, r) && !HasMoved(h[i].disk.records[id])
    ensures Expects(h, j, id, r) && !HasMoved(h[j].disk.records[id])
    decreases j
  {
    hide Sound, Covers, Recorded, Draws;
    if i < j {
      RunLater(h, i, j - 1);
      RunLater(h, j - 1, j);
      StillUnmoved(h, i, j - 1, id, r);
      assert Step(h[j - 1], h[j]);
      RecordsLast(h, j - 1, j, id);
      StartsAtExpected(h, j - 1, j, id, r);
    }
  }

  // What the restore_of guard lets through names a snapshot that cleanup keeps.
  lemma RestoreTargetRetained(d: TargetState, p: Past, of: ReleaseId, commit: Commit)
    requires SoundState(d, p) && RestoreAllowed(d, of, commit)
    ensures d.records[of].baseline == d.current || d.records[of].baseline == d.previous
    ensures LinkOf(d.current) == At(commit) || LinkOf(d.previous) == At(commit)
  {
  }

  /* ---------- nginx ---------- */

  lemma StepLog(a: World, b: World)
    requires Step(a, b)
    ensures a.past.log <= b.past.log && |b.past.log| <= |a.past.log| + 1
    ensures |b.past.log| > |a.past.log| ==> Fits(b.past.log[|a.past.log|], a.link, b.link)
  {
  }

  // The instant at which the n-th event was logged.
  lemma EventInstant(h: seq<World>, j: nat, n: nat) returns (k: nat)
    requires Run(h) && j < |h| && n < |h[j].past.log|
    ensures 0 < k <= j && |h[k - 1].past.log| == n
    ensures h[k].past.log == h[j].past.log[..n + 1]
    ensures Fits(h[j].past.log[n], h[k - 1].link, h[k].link)
  {
    hide Sound, Step, Fits;
    k := j;
    while |h[k - 1].past.log| > n
      invariant 0 < k <= j && |h[k].past.log| > n
      invariant h[k].past.log <= h[j].past.log
      decreases k
    {
      StepLog(h[k - 1], h[k]);
      k := k - 1;
    }
    StepLog(h[k - 1], h[k]);
  }

  lemma Appended(before: seq<Event>, after: seq<Event>, n: nat)
    requires n < |after| && before == after[..n]
    ensures after[..n + 1] == before + [after[n]]
  {
  }

  lemma TestedBefore(log: seq<Event>, l: Link, ok: bool) returns (n: nat)
    requires ReloadsTested(log + [Reloaded(l, ok)])
    ensures n < |log| && log[n] == Tested(l, true)
  {
    var more := log + [Reloaded(l, ok)];
    assert more[|log|].Reloaded? && more[..|log|] == log;
    n :| n < |log| && log[n] == Tested(l, true);
  }

  // Every reload, in whichever operation, was issued with `latest` on a link that an
  // earlier nginx -t, issued on the same link, had passed.
  lemma ReloadedWhereTested(h: seq<World>, k: nat, l: Link, ok: bool) returns (j: nat)
    requires Run(h) && 0 < k < |h| && h[k].past.log == h[k - 1].past.log + [Reloaded(l, ok)]
    ensures h[k].link == l
    ensures 0 < j < k && h[j].past.log == h[j - 1].past.log + [Tested(l, true)] && h[j].link == l
  {
    hide SoundState, Explained, Step;
    assert Sound(h[k]);
    StepLog(h[k - 1], h[k]);
    var n := TestedBefore(h[k - 1].past.log, l, ok);
    j := EventInstant(h, k - 1, n);
    StepLog(h[j - 1], h[j]);
    Appended(h[j - 1].past.log, h[j].past.log, n);
  }

  /* ---------- The write-ahead invariant ---------- */

  // At every instant `latest` is on the stored current version, or the durable intent of
  // some record accounts for it -- as long as no intent had been overwritten by a retry.
  lemma LinkAlwaysExplained(h: seq<World>, k: nat)
    requires Run(h) && k < |h| && !h[k].past.overwritten
    ensures
      || h[k].link == LinkOf(h[k].disk.current)
      || exists id :: id in h[k].disk.records && h[k].disk.records[id].intent
           && h[k].link in {LinkOf(h[k].disk.records[id].candidate), LinkOf(h[k].disk.records[id].baseline)}
  {
    assert Sound(h[k]);
    if h[k].link != LinkOf(h[k].disk.current) {
      var id :| id in h[k].disk.records && ExplainedBy(h[k].disk.records[id], h[k].link);
      assert h[k].disk.records[id].intent;
    }
  }

  // Accepting a request under a used id keeps a link explained exactly if the current
  // version or another record explains it: the caller can see that in the old state.
  lemma RetryKeepsLink(s: TargetState, req: Request, fingerprint: Request, now: Time, l: Link)
    ensures Explained(AcceptedState(s, req, fingerprint, now), l) <==>
      || l == LinkOf(s.current)
      || exists i :: i in s.records && i != req.id && ExplainedBy(s.records[i], l)
  {
    var t := AcceptedState(s, req, fingerprint, now);
    assert t.records[req.id] == NewRecord(s, req, fingerprint);
    forall i | i in s.records && i != req.id
      ensures i in t.records && (ExplainedBy(t.records[i], l) <==> ExplainedBy(s.records[i], l))
    {
    }
  }
}
