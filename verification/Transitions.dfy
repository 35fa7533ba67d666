/** Every assignment of module State keeps a sound state sound and continues the record
    it works on. `s` is the publisher's working copy; it need not be saved yet. */
module Transitions {
  import opened Release
  import opened State
  import opened Protocol

  // What accepting `id` does to the ghost flags.
  ghost function AcceptedPast(p: Past, s: TargetState, id: ReleaseId): Past {
    p.(clean := p.clean && !AwaitsRecovery(s) && id !in s.records,
       overwritten := p.overwritten || (id in s.records && s.records[id].intent))
  }

  // `live`: after a reload on the link.
  ghost function Drawn(p: Past, pair: Pair, live: bool): Past {
    p.(pairs := p.pairs + [pair], activated := if live then p.activated + {|p.pairs|} else p.activated)
  }

  lemma SupersededSound(r: Record, now: Time, p: Past)
    requires SoundRecord(r, p)
    ensures SoundRecord(SupersededRecord(r, now), p) && Kept(r, SupersededRecord(r, now))
  {
  }

  lemma TakenOverRecord(s: TargetState, id: ReleaseId, now: Time, p: Past, i: ReleaseId)
    requires SoundState(s, p) && i in s.records
    ensures var t := TakenOver(s, id, now);
      && i in t.records && SoundRecord(t.records[i], p) && Kept(s.records[i], t.records[i])
      && t.records[i].result.after == s.records[i].result.after
      && (s.records[i].result.status == Succeeded ==> t.records[i] == s.records[i])
  {
    assert SoundEntry(s, i, p);
    if s.active == Some(i) && i != id {
      SupersededSound(s.records[i], now, p);
    }
  }

  lemma TakenOverRecords(s: TargetState, id: ReleaseId, now: Time, p: Past)
    requires SoundState(s, p)
    ensures var t := TakenOver(s, id, now);
      && t.current == s.current && t.revision == s.revision
      && (forall i :: i in s.records ==> i in t.records && Kept(s.records[i], t.records[i]))
      && (forall i :: i in s.records && s.records[i].result.status == Succeeded ==> t.records[i] == s.records[i])
      && (forall i :: i in t.records ==> SoundEntry(t, i, p))
      && (forall i :: i in s.records ==> t.records[i].result.after == s.records[i].result.after)
  {
    var t := TakenOver(s, id, now);
    assert t.records.Keys == s.records.Keys;
    forall i | i in s.records
      ensures i in t.records && SoundEntry(t, i, p) && Kept(s.records[i], t.records[i])
      ensures t.records[i].result.after == s.records[i].result.after
      ensures s.records[i].result.status == Succeeded ==> t.records[i] == s.records[i]
    {
      hide SoundRecord;
      assert SoundEntry(s, i, p);
      TakenOverRecord(s, id, now, p, i);
    }
  }

  // Kept records and an unchanged current version explain at least the same links.
  lemma ExplainedKept(s: TargetState, t: TargetState)
    requires forall i :: i in s.records ==> i in t.records && Kept(s.records[i], t.records[i])
    requires t.current == s.current
    ensures Covers(s, t)
  {
  }

  // The same when the current version moves between the ends of `id`.
  lemma ExplainedMoved(s: TargetState, t: TargetState, id: ReleaseId)
    requires forall i :: i in s.records ==> i in t.records && Kept(s.records[i], t.records[i])
    requires id in s.records && s.records[id].intent && AtEitherEnd(s, s.records[id])
    ensures Covers(s, t)
  {
  }

  // A new request ends the unfinished release it takes over from, and touches no other.
  lemma TakeoverEndsOne(s: TargetState, req: Request, fingerprint: Request, now: Time, i: ReleaseId)
    requires i in s.records && i != req.id
    ensures var t := AcceptedState(s, req, fingerprint, now);
      && t.active == Some(req.id) && !t.recovery && i in t.records
      && (s.active == Some(i) ==> t.records[i].result.Terminal())
      && (t.records[i] != s.records[i] ==>
            && s.active == Some(i) && !s.records[i].result.Terminal()
            && t.records[i].result.status == Failed && t.records[i].result.code == Superseded
            && t.records[i].result.finished == now && t.records[i].http == 409 && Kept(s.records[i], t.records[i]))
  {
  }

  lemma RecordAdded(t: TargetState, id: ReleaseId, n: Record, p: Past)
    requires forall i :: i in t.records ==> SoundEntry(t, i, p)
    requires SoundRecord(n, p) && n.request.id == id
    requires n.result.before == n.result.after == t.revision
    ensures var u := WithActive(t, id, n); forall i :: i in u.records ==> SoundEntry(u, i, p)
  {
  }

  lemma AddedCovers(s: TargetState, t: TargetState, id: ReleaseId, n: Record)
    requires t.current == s.current
    requires forall i :: i in s.records ==> i in t.records && Kept(s.records[i], t.records[i])
    requires id in s.records ==> !s.records[id].intent
    ensures Covers(s, WithActive(t, id, n))
  {
    var u := WithActive(t, id, n);
    forall l | Explained(s, l) ensures Explained(u, l) {
      if l != LinkOf(s.current) {
        var i :| i in s.records && ExplainedBy(s.records[i], l);
        assert Kept(s.records[i], t.records[i]);
        assert ExplainedBy(u.records[i], l);
      }
    }
  }

  lemma AddedGrounded(s: TargetState, t: TargetState, id: ReleaseId, n: Record, p: Past)
    requires t.current == s.current && t.revision == s.revision && id !in s.records && Grounded(s, p)
    requires forall i :: i in s.records && s.records[i].result.status == Succeeded ==>
      i in t.records && t.records[i] == s.records[i]
    ensures Grounded(WithActive(t, id, n), p)
  {
    var u := WithActive(t, id, n);
    if !(s.current.None? || s.revision in p.activated) {
      var i :| i in s.records && Pending(s.records[i], s.current.value);
      assert Pending(u.records[i], u.current.value);
    }
  }

  lemma EntriesLater(s: TargetState, p: Past, q: Past)
    requires forall i :: i in s.records ==> SoundEntry(s, i, p)
    requires Later(p, q)
    ensures forall i :: i in s.records ==> SoundEntry(s, i, q)
  {
  }

  lemma AcceptedKeeps(s: TargetState, req: Request, fingerprint: Request, now: Time, p: Past)
    requires SoundState(s, p)
    requires req == fingerprint.(digest := req.digest)
    requires fingerprint.expected.Some? ==> fingerprint.expected.value == s.revision
    requires req.id in s.records ==>
      s.records[req.id].result.status == RecoveryRequired && s.records[req.id].fingerprint == fingerprint
    ensures SoundState(AcceptedState(s, req, fingerprint, now), AcceptedPast(p, s, req.id))
    ensures Saveable(s, AcceptedState(s, req, fingerprint, now), AcceptedPast(p, s, req.id))
    ensures Later(p, AcceptedPast(p, s, req.id))
  {
    var id, n, q := req.id, NewRecord(s, req, fingerprint), AcceptedPast(p, s, req.id);
    var t := TakenOver(s, id, now);
    TakenOverRecords(s, id, now, p);
    EntriesLater(t, p, q);
    RecordAdded(t, id, n, q);
    if q.clean {
      AddedGrounded(s, t, id, n, q);
    }
    if !q.overwritten {
      AddedCovers(s, t, id, n);
    }
    AcceptedSaveable(s, t, id, n, q);
  }

  lemma AcceptedSaveable(s: TargetState, t: TargetState, id: ReleaseId, n: Record, p: Past)
    requires t.revision == s.revision
    requires forall i :: i in s.records ==>
      && i in t.records && Kept(s.records[i], t.records[i])
      && t.records[i].result.after == s.records[i].result.after
    requires !HasMoved(n) && (id in s.records ==> Retried(s.records[id], n))
    requires !p.overwritten ==> Covers(s, WithActive(t, id, n))
    ensures Saveable(s, WithActive(t, id, n), p)
  {
  }

  // A change of record `id` alone that is no news about the current version.
  lemma RecordChanged(s: TargetState, id: ReleaseId, r: Record, p: Past)
    requires SoundState(s, p) && id in s.records
    requires r.request.id == id && SoundRecord(r, p) && Kept(s.records[id], r)
    requires r.result.after == s.records[id].result.after
    requires s.active == Some(id) ==> !Settled(r) && (r.intent ==> AtEitherEnd(s, r))
    requires s.current.Some? && Pending(s.records[id], s.current.value) ==> Pending(r, s.current.value)
    requires s.active == Some(id) && s.records[id].result.status == RecoveryRequired ==>
      || r.result.status == RecoveryRequired
      || (s.current.Some? && Pending(r, s.current.value))
    ensures SoundState(WithRecord(s, id, r), p)
    ensures Continues(s, WithRecord(s, id, r))
  {
    hide SoundEntry, SoundRecord, Grounded, AwaitsRecovery, Kept, SoundPairs, Pending, Covers;
    var t := WithRecord(s, id, r);
    EntryChanged(s, id, r, p);
    ExplainedKept(s, t);
    if p.clean {
      GroundedChanged(s, id, r, p);
    }
  }

  lemma EntryChanged(s: TargetState, id: ReleaseId, r: Record, p: Past)
    requires forall i :: i in s.records ==> SoundEntry(s, i, p)
    requires id in s.records && r.request.id == id && SoundRecord(r, p) && Kept(s.records[id], r)
    requires r.result.after == s.records[id].result.after
    ensures var t := WithRecord(s, id, r);
      && (forall i :: i in t.records ==> SoundEntry(t, i, p))
      && (forall i :: i in s.records ==> i in t.records && Kept(s.records[i], t.records[i]))
  {
  }

  lemma GroundedChanged(s: TargetState, id: ReleaseId, r: Record, p: Past)
    requires id in s.records
    requires s.current.Some? && Pending(s.records[id], s.current.value) ==> Pending(r, s.current.value)
    requires s.active == Some(id) && s.records[id].result.status == RecoveryRequired ==>
      || r.result.status == RecoveryRequired
      || (s.current.Some? && Pending(r, s.current.value))
    requires Grounded(s, p) || AwaitsRecovery(s)
    ensures Grounded(WithRecord(s, id, r), p) || AwaitsRecovery(WithRecord(s, id, r))
  {
    var t := WithRecord(s, id, r);
    if s.current.None? || s.revision in p.activated {
    } else if Grounded(s, p) {
      var i :| i in s.records && Pending(s.records[i], s.current.value);
      assert Pending(t.records[i], t.current.value);
    } else if s.active == Some(id) && r.result.status != RecoveryRequired {
      assert Pending(t.records[id], t.current.value);
    }
  }

  lemma InPhaseKeeps(s: TargetState, id: ReleaseId, ph: Phase, p: Past)
    requires SoundState(s, p) && id in s.records
    requires IsStep(ph) && !Settled(s.records[id])
    requires s.records[id].result.status == Running || s.records[id].result.phase != RolledBack
    requires s.records[id].result.status == Succeeded ==> Resumable(ph)
    ensures SoundState(InPhase(s, id, ph), p) && Continues(s, InPhase(s, id, ph))
  {
    var r := s.records[id];
    RecordChanged(s, id, r.(result := r.result.(phase := ph)), p);
  }

  // Before the intent a record is unswitched, running and untouched by any revision.
  predicate Preparing(s: TargetState, id: ReleaseId) {
    && s.active == Some(id) && !s.recovery && id in s.records
    && var r := s.records[id];
       && r.result.status == Running && !r.intent && !r.tested
       && r.baseline == s.current && r.baselinePrevious == s.previous
       && r.result.before == s.revision && r.result.after == s.revision
       && r.request.id == id
  }

  lemma BaselineNotedKeeps(s: TargetState, id: ReleaseId, p: Past)
    requires SoundState(s, p) && Preparing(s, id)
    ensures SoundState(BaselineNoted(s, id), p) && Continues(s, BaselineNoted(s, id))
  {
    if s.current.Some? {
      RecordChanged(s, id, s.records[id].(baseline := s.current, beforeLink := LinkOf(s.current)), p);
    } else {
      ExplainedKept(s, s);
    }
  }

  lemma DigestResolvedKeeps(s: TargetState, id: ReleaseId, d: Digest, p: Past)
    requires SoundState(s, p) && Preparing(s, id)
    ensures SoundState(DigestResolved(s, id, d), p) && Continues(s, DigestResolved(s, id, d))
  {
    var r := s.records[id];
    RecordChanged(s, id, r.(result := r.result.(digest := Some(d))), p);
  }

  lemma WithCandidateKeeps(s: TargetState, id: ReleaseId, v: Version, p: Past)
    requires SoundState(s, p) && Preparing(s, id) && v.commit == s.records[id].request.commit
    requires p.plain ==> v.artifact.None?
    ensures SoundState(WithCandidate(s, id, v), p) && Continues(s, WithCandidate(s, id, v))
    ensures Preparing(WithCandidate(s, id, v), id)
  {
    RecordChanged(s, id, s.records[id].(candidate := Some(v)), p);
  }

  lemma WithIntentKeeps(s: TargetState, id: ReleaseId, p: Past)
    requires SoundState(s, p) && Preparing(s, id) && CandidateNamed(s.records[id])
    ensures SoundState(WithIntent(s, id), p) && Continues(s, WithIntent(s, id))
  {
    var r := s.records[id];
    RecordChanged(s, id, r.(intent := true, result := r.result.(phase := SwitchIntent)), p);
  }

  // Leaving the active mark: without an intent nothing hangs on the record.
  lemma SettledWithoutIntent(s: TargetState, id: ReleaseId, r: Record, t: TargetState, p: Past)
    requires SoundState(s, p) && id in s.records && !s.records[id].intent && !r.intent
    requires s.active == Some(id) || s.active == None
    requires r.request.id == id && SoundRecord(r, p) && Kept(s.records[id], r)
    requires r.result.after == s.records[id].result.after
    requires t == WithRecord(s, id, r).(active := None, recovery := t.recovery)
    ensures SoundState(t, p) && Continues(s, t)
  {
    hide SoundEntry, SoundRecord, SoundPairs, Covers, Kept, Grounded, AwaitsRecovery;
    assert SoundEntry(s, id, p);
    SettledEntries(s, id, r, t, p);
    if p.clean {
      SettledGrounded(s, id, r, t, p);
    }
    ExplainedKept(s, t);
  }

  lemma SettledGrounded(s: TargetState, id: ReleaseId, r: Record, t: TargetState, p: Past)
    requires id in s.records && SoundEntry(s, id, p) && !s.records[id].intent
    requires (s.active == Some(id) || s.active == None) && (Grounded(s, p) || AwaitsRecovery(s))
    requires t == WithRecord(s, id, r).(active := None, recovery := t.recovery) && p.clean
    ensures Grounded(t, p)
  {
    hide SoundPairs;
    if !(s.current.None? || s.revision in p.activated) {
      var i :| i in s.records && Pending(s.records[i], s.current.value);
      assert Pending(t.records[i], t.current.value);
    }
  }

  lemma SettledEntries(s: TargetState, id: ReleaseId, r: Record, t: TargetState, p: Past)
    requires forall i :: i in s.records ==> SoundEntry(s, i, p)
    requires id in s.records && r.request.id == id && SoundRecord(r, p) && Kept(s.records[id], r)
    requires r.result.after == s.records[id].result.after
    requires t == WithRecord(s, id, r).(active := None, recovery := t.recovery)
    ensures forall i :: i in t.records ==> SoundEntry(t, i, p)
    ensures forall i :: i in s.records ==> i in t.records && Kept(s.records[i], t.records[i])
  {
    hide SoundRecord;
    forall i | i in t.records ensures SoundEntry(t, i, p) {
      assert i in s.records ==> SoundEntry(s, i, p);
    }
  }

  lemma FailedKeeps(s: TargetState, id: ReleaseId, code: ErrorCode, now: Time, p: Past)
    requires SoundState(s, p) && id in s.records && !s.records[id].intent
    requires s.active == Some(id)
    ensures SoundState(FailedState(s, id, code, now), p) && Continues(s, FailedState(s, id, code, now))
  {
    var r, t := s.records[id], FailedState(s, id, code, now);
    assert SoundEntry(s, id, p);
    SettledWithoutIntent(s, id, t.records[id], t, p);
  }

  lemma SkippedKeeps(s: TargetState, id: ReleaseId, now: Time, p: Past)
    requires SoundState(s, p) && Preparing(s, id) && LinkOf(s.current) == At(s.records[id].request.commit)
    ensures SoundState(SkippedState(s, id, now), p) && Continues(s, SkippedState(s, id, now))
  {
    var t := SkippedState(s, id, now);
    SettledWithoutIntent(s, id, t.records[id], t, p);
  }

  lemma UncertainKeeps(s: TargetState, id: ReleaseId, code: ErrorCode, p: Past)
    requires SoundState(s, p) && id in s.records
    requires p.clean ==> s.records[id].intent
    requires s.records[id].intent ==> AtEitherEnd(s, s.records[id])
    ensures SoundState(UncertainState(s, id, code), p) && Continues(s, UncertainState(s, id, code))
  {
    var t := UncertainState(s, id, code);
    UncertainEntries(s, id, code, p);
    hide SoundEntry, Covers, SoundPairs, Kept;
    ExplainedKept(s, t);
  }

  lemma UncertainEntries(s: TargetState, id: ReleaseId, code: ErrorCode, p: Past)
    requires SoundState(s, p) && id in s.records && (p.clean ==> s.records[id].intent)
    ensures var t := UncertainState(s, id, code);
      && (forall i :: i in t.records ==> SoundEntry(t, i, p))
      && (forall i :: i in s.records ==> i in t.records && Kept(s.records[i], t.records[i]))
  {
  }

  // The current version moves to `pair`, under a freshly drawn revision.
  ghost function Moved(s: TargetState, id: ReleaseId, r: Record, pair: Pair, p: Past): TargetState {
    WithRecord(s, id, r).(current := pair.current, previous := pair.previous,
                          revision := |p.pairs|, active := None, recovery := false)
  }

  lemma MovedKeeps(s: TargetState, id: ReleaseId, r: Record, pair: Pair, live: bool, p: Past)
    requires SoundState(s, p) && id in s.records && s.revision in p.served
    requires s.records[id].intent && AtEitherEnd(s, s.records[id])
    requires p.plain ==> WithoutArtifact(pair.current) && WithoutArtifact(pair.previous)
    requires r.request.id == id && Kept(s.records[id], r)
    requires SoundRecord(r, Drawn(p, pair, live)) && r.result.after == |p.pairs|
    requires Grounded(Moved(s, id, r, pair, p), Drawn(p, pair, live))
    ensures SoundState(Moved(s, id, r, pair, p), Drawn(p, pair, live)) && Later(p, Drawn(p, pair, live))
    ensures Continues(s, Moved(s, id, r, pair, p))
  {
    hide Grounded, AwaitsRecovery, Covers, SoundEntry, SoundRecord, Pending;
    var q, t := Drawn(p, pair, live), Moved(s, id, r, pair, p);
    MovedEntries(s, id, r, pair, live, p);
    MovedOwns(s, id, r, pair, p);
    ExplainedMoved(s, t, id);
  }

  lemma MovedOwns(s: TargetState, id: ReleaseId, r: Record, pair: Pair, p: Past)
    requires SoundState(s, p) && id in s.records && Kept(s.records[id], r) && r.result.after == |p.pairs|
    ensures OwnsAlone(Moved(s, id, r, pair, p), id)
  {
    assert SoundEntry(s, id, p);
    forall o | o in s.records ensures s.records[o].result.after < |p.pairs| {
      assert SoundEntry(s, o, p);
    }
  }

  lemma MovedEntries(s: TargetState, id: ReleaseId, r: Record, pair: Pair, live: bool, p: Past)
    requires SoundState(s, p) && s.revision in p.served && Later(p, Drawn(p, pair, live))
    requires r.request.id == id && SoundRecord(r, Drawn(p, pair, live))
    requires id in s.records && r.result.before == s.records[id].result.before && r.result.after == |p.pairs|
    ensures var t := Moved(s, id, r, pair, p); forall i :: i in t.records ==> SoundEntry(t, i, Drawn(p, pair, live))
  {
  }

  lemma RecordLater(s: TargetState, id: ReleaseId, pair: Pair, live: bool, p: Past)
    requires SoundState(s, p) && id in s.records
    requires pair.current == s.records[id].candidate || pair.current == s.records[id].baseline
    requires pair.previous == s.records[id].baseline || pair.previous == s.records[id].baselinePrevious
    ensures SoundRecord(s.records[id], Drawn(p, pair, live)) && s.records[id].request.id == id
    ensures s.records[id].result.before < |p.pairs|
    ensures p.plain ==> WithoutArtifact(pair.current) && WithoutArtifact(pair.previous)
  {
  }

  lemma StagedKeeps(s: TargetState, id: ReleaseId, now: Time, p: Past)
    requires SoundState(s, p) && id in s.records && s.revision in p.served
    requires s.records[id].intent && AtEitherEnd(s, s.records[id])
    ensures var r := s.records[id];
      var q := Drawn(p, Pair(r.candidate, r.baseline), false);
      var t := StagedState(s, id, |p.pairs|, now);
      SoundState(t, q) && Continues(s, t) && Later(p, q)
  {
    hide SoundState, SoundPairs, Continues;
    var r, t := s.records[id], StagedState(s, id, |p.pairs|, now);
    RecordLater(s, id, Pair(r.candidate, r.baseline), false, p);
    assert Pending(t.records[id], t.current.value);
    MovedKeeps(s, id, t.records[id], Pair(r.candidate, r.baseline), false, p);
  }

  lemma CommittedKeeps(s: TargetState, id: ReleaseId, now: Time, p: Past)
    requires SoundState(s, p) && id in s.records && s.revision in p.served
    requires s.records[id].intent && AtEitherEnd(s, s.records[id])
    requires Reloaded(LinkOf(s.records[id].candidate), true) in p.log
    ensures var r := s.records[id];
      var q := Drawn(p, Pair(r.candidate, r.baseline), true);
      var t := CommittedState(s, id, |p.pairs|, now);
      SoundState(t, q) && Continues(s, t) && Later(p, q)
  {
    hide SoundState, SoundPairs, Continues;
    var r, t := s.records[id], CommittedState(s, id, |p.pairs|, now);
    RecordLater(s, id, Pair(r.candidate, r.baseline), true, p);
    MovedKeeps(s, id, t.records[id], Pair(r.candidate, r.baseline), true, p);
  }

  lemma TestedKeeps(s: TargetState, id: ReleaseId, now: Time, p: Past)
    requires SoundState(s, p) && id in s.records && s.records[id].intent
    requires !CompleteRecord(s.records[id]) && s.records[id].result.phase != RolledBack
    requires Tested(LinkOf(s.records[id].candidate), true) in p.log
    requires s.current.Some? && s.records[id].candidate.value.commit == s.current.value.commit
    requires s.records[id].candidate.value.source == s.current.value.source
    ensures SoundState(TestedState(s, id, now), p) && Continues(s, TestedState(s, id, now))
  {
    RecordChanged(s, id, TestedState(s, id, now).records[id], p);
  }

  // A finished rollback, as `fail` then marks it.
  function RolledBackState(s: TargetState, id: ReleaseId, rev: Revision, code: ErrorCode, now: Time): TargetState
    requires id in s.records
  {
    FailedState(RestoredState(s, id, rev), id, code, now)
  }

  lemma RolledBackKeeps(s: TargetState, id: ReleaseId, code: ErrorCode, now: Time, p: Past)
    requires SoundState(s, p) && id in s.records && s.revision in p.served
    requires s.records[id].intent && AtEitherEnd(s, s.records[id])
    requires Reloaded(LinkOf(s.records[id].baseline), true) in p.log
    ensures var r := s.records[id];
      var q := Drawn(p, Pair(r.baseline, r.baselinePrevious), true);
      var t := RolledBackState(s, id, |p.pairs|, code, now);
      SoundState(t, q) && Continues(s, t) && Later(p, q)
  {
    hide SoundState, SoundPairs, Continues;
    var r, t := s.records[id], RolledBackState(s, id, |p.pairs|, code, now);
    RecordLater(s, id, Pair(r.baseline, r.baselinePrevious), true, p);
    assert t == Moved(s, id, t.records[id], Pair(r.baseline, r.baselinePrevious), p);
    MovedKeeps(s, id, t.records[id], Pair(r.baseline, r.baselinePrevious), true, p);
  }

  lemma BaselineLink(s: TargetState, id: ReleaseId, p: Past)
    requires SoundState(s, p) && id in s.records
    ensures s.records[id].baseline.None? ==> s.records[id].beforeLink == Absent
  {
  }

  lemma RestoredReloaded(log: seq<Event>, more: seq<Event>, v: Option<Version>)
    requires more == log + RollbackEvents(v)
    ensures ReloadedSince(more, LinkOf(v))
  {
    var before := log + CheckedEvents(v) + [Switched(LinkOf(v)), Tested(LinkOf(v), true)];
    assert more == before + ([Reloaded(LinkOf(v), true)] + VerifyEvents(v));
    ReloadedThenQuiet(before, LinkOf(v), VerifyEvents(v));
  }

  lemma RecordNamed(s: TargetState, id: ReleaseId, p: Past)
    requires SoundState(s, p) && id in s.records
    ensures s.records[id].request.id == id && SoundRecord(s.records[id], p)
  {
  }

  // While `id` is being prepared, a clean current version that is not waiting for its
  // nginx commands was reloaded before it was installed.
  lemma ReloadedWhenNotPending(s: TargetState, id: ReleaseId, p: Past)
    requires SoundState(s, p) && Preparing(s, id) && s.current.Some?
    requires forall i :: i in s.records ==> !Pending(s.records[i], s.current.value)
    ensures p.clean ==> s.revision in p.activated
  {
  }

  lemma BaselinePlain(s: TargetState, id: ReleaseId, p: Past)
    requires SoundState(s, p) && id in s.records
    ensures p.plain ==> WithoutArtifact(s.records[id].baseline)
  {
  }

  lemma RecordedWasReloaded(s: TargetState, p: Past)
    requires SoundState(s, p)
    ensures ReloadRecorded(s) ==> Reloaded(LinkOf(s.current), true) in p.log
  {
    if ReloadRecorded(s) {
      var id :| id in s.records && ReloadedBy(s.records[id], LinkOf(s.current));
      assert SoundEntry(s, id, p);
    }
  }
}
