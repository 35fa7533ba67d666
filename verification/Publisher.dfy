/** The node publisher of one target (internal/application/publisher/runner.go).

    A Node's real fields are what the Go process reads and writes: the saved state, the
    `latest` link and two process flags. Its ghost fields record the past. Each method
    under "Atomic actions" is one indivisible effect whose outcome the environment picks,
    a power cut included: after one, `up` is false and no later action has any effect. */
module Publisher {
  import opened Release
  import opened State
  import opened Protocol
  import opened Transitions
  import opened Outcomes

  class Node {
    const frontend: bool      // release type frontend_static
    const repo: nat

    var disk: TargetState
    var link: Link
    var minted: nat           // revisions drawn so far; fresh identifiers survive a crash
    var up: bool
    var blocked: bool

    ghost var past: Past
    ghost var hist: seq<World>
    ghost var trouble: Trouble  // what the environment has refused so far

    ghost function Now(): World
      reads this
    {
      World(disk, link, past)
    }

    ghost predicate Valid()
      reads this
    {
      && |hist| > 0 && hist[|hist| - 1] == Now() && Run(hist)
      && minted == |past.pairs| && past.plain == !frontend
    }

    // `s` is a working copy that may be saved over the disk.
    ghost predicate Holds(s: TargetState)
      reads this
    {
      SoundState(s, past) && Saveable(disk, s, past)
    }

    // ensureTarget: a directory seen for the first time. A link found there is not ours.
    constructor (frontend: bool, repo: nat, occupied: bool, found: Link)
      requires found != Absent ==> occupied
      ensures Valid() && up && !blocked
      ensures disk == TargetState(0, None, None, None, occupied, map[]) && link == found
      ensures past.clean && past.overwritten == (found != Absent)
    {
      this.frontend, this.repo := frontend, repo;
      var empty := TargetState(0, None, None, None, occupied, map[]);
      disk, link, minted, up, blocked := empty, found, 1, true, false;
      past := Past([], [Pair(None, None)], {}, {0}, true, found != Absent, !frontend);
      hist := [World(empty, found, Past([], [Pair(None, None)], {}, {0}, true, found != Absent, !frontend))];
      trouble := Trouble(0, 0);
      new;
      assert Sound(hist[0]);
    }

    // A process on a target with a past.
    constructor Resumed(frontend: bool, repo: nat, disk: TargetState, link: Link, minted: nat, ghost h: seq<World>)
      requires Run(h) && |h| > 0 && h[|h| - 1].disk == disk && h[|h| - 1].link == link
      requires h[|h| - 1].past.plain == !frontend && |h[|h| - 1].past.pairs| == minted
      ensures Valid() && up && !blocked && trouble == Trouble(0, 0)
      ensures this.disk == disk && this.link == link && hist == h && past == h[|h| - 1].past
      ensures this.frontend == frontend && this.repo == repo
    {
      this.frontend, this.repo := frontend, repo;
      this.disk, this.link, this.minted, up, blocked := disk, link, minted, true, false;
      past, hist, trouble := h[|h| - 1].past, h, Trouble(0, 0);
    }

    lemma LiveWorld()
      requires Valid()
      ensures Sound(Now()) && SoundState(disk, past) && disk.revision in past.served
      ensures Holds(disk)
    {
    }

    lemma ActivatedReloaded()
      requires Valid() && disk.revision in past.activated
      ensures Reloaded(LinkOf(disk.current), true) in past.log
    {
      LiveWorld();
    }

    /* ---------- Atomic actions ---------- */

    // Loss of power. Nothing that was not durable survives it.
    method PowerCut()
      requires Valid()
      modifies this`up, this`trouble
      ensures Valid() && !up && trouble == After(old(trouble), false)
    {
      up, trouble := false, After(trouble, false);
    }

    ghost method Advance(w: World)
      requires |hist| > 0 && Run(hist) && minted == |w.past.pairs| && w.past.plain == !frontend
      requires Sound(w) && Step(hist[|hist| - 1], w)
      requires w.disk == disk && w.link == link
      modifies this`past, this`hist
      ensures Valid() && past == w.past && hist == old(hist) + [w]
    {
      hide SoundState, Step;
      RunExtended(hist, w);
      past := w.past;
      hist := hist + [w];
    }

    // The rename of AtomicWrite.
    method Land(s: TargetState)
      requires Valid() && Holds(s)
      modifies this`disk, this`past, this`hist
      ensures Valid() && Holds(s) && old(hist) <= hist
      ensures disk == s && past == old(past).(served := old(past).served + {s.revision})
    {
      ghost var w := Now();
      StepSave(w, s);
      disk := s;
      Advance(Landed(w, s));
      SaveableReflexive(s, past);
    }

    ghost method SaveFailed(s: TargetState)
      requires Valid() && Holds(s)
      modifies this`past, this`hist
      ensures Valid() && Holds(s) && old(hist) <= hist
      ensures past == old(past).(clean := false)
    {
      ghost var q := past.(clean := false);
      StepPastOnly(Now(), q);
      SoundStateLater(s, past, q);
      SaveableLater(disk, s, past, q);
      Advance(World(disk, link, q));
    }

    // Store.Save. An error may come after the rename, so the new state may be durable.
    method Save(s: TargetState) returns (ok: bool)
      requires Valid() && Holds(s)
      modifies this`disk, this`up, this`past, this`hist, this`trouble
      ensures Valid() && Holds(s) && old(hist) <= hist
      ensures disk == old(disk) || disk == s
      ensures ok ==> disk == s && up && s.revision in past.served
      ensures up ==> old(up)
      ensures !old(up) ==> disk == old(disk)
      ensures past == old(past).(served := past.served, clean := past.clean) && Later(old(past), past)
      ensures !ok && up ==> !past.clean
      ensures ok ==> past.clean == old(past.clean)
      ensures trouble == AfterSave(old(trouble), ok)
    {
      hide SoundState, Saveable, Sound, Run;
      ok := false;
      if up {
        var landed, reported, crash: bool := *, *, *;
        ok := landed && reported && !crash;
        if landed {
          Land(s);
        }
        if !ok && !crash {
          SaveFailed(s);
        }
        up := !crash;
      }
      trouble := AfterSave(trouble, ok);
    }

    ghost method Log(e: Event, s: TargetState)
      requires Valid() && Holds(s)
      requires e.Reloaded? ==> Tested(e.link, true) in past.log
      requires Fits(e, link, link)
      modifies this`past, this`hist
      ensures Valid() && Holds(s) && old(hist) <= hist
      ensures past == Logged(old(past), e)
    {
      ghost var q := Logged(past, e);
      LoggedTested(past.log, e);
      StepPastOnly(Now(), q);
      SoundStateLater(s, past, q);
      SaveableLater(disk, s, past, q);
      Advance(World(disk, link, q));
    }

    // The rename (or removal) inside fsutil.Switch.
    method Relink(to: Link, ghost s: TargetState)
      requires Valid() && Holds(s)
      requires !past.overwritten ==> Explained(disk, to)
      modifies this`link, this`past, this`hist
      ensures Valid() && Holds(s) && old(hist) <= hist
      ensures link == to && past == Logged(old(past), Switched(to))
    {
      ghost var q := Logged(past, Switched(to));
      StepSwitch(Now(), to);
      SoundStateLater(s, past, q);
      SaveableLater(disk, s, past, q);
      link := to;
      RunExtended(hist, World(disk, to, q));
      past := q;
      hist := hist + [World(disk, to, q)];
    }

    // fsutil.Switch. Like a save, it may fail after its rename.
    method Switch(to: Link, ghost s: TargetState) returns (ok: bool)
      requires Valid() && Holds(s)
      requires !past.overwritten ==> Explained(disk, to)
      modifies this`link, this`up, this`past, this`hist, this`trouble
      ensures Valid() && Holds(s) && old(hist) <= hist
      ensures link == old(link) || link == to
      ensures past == old(past).(log := past.log) && Later(old(past), past)
      ensures ok ==> up && link == to && past == Logged(old(past), Switched(to))
      ensures up ==> old(up)
      ensures !old(up) ==> link == old(link)
      ensures trouble == After(old(trouble), ok)
    {
      ok := false;
      if up {
        var landed, reported, crash: bool := *, *, *;
        ok := landed && reported && !crash;
        if landed {
          Relink(to, s);
        }
        up := !crash;
      }
      trouble := After(trouble, ok);
    }

    // nginx -t
    method Test(ghost s: TargetState) returns (ok: bool)
      requires Valid() && Holds(s)
      modifies this`up, this`past, this`hist, this`trouble
      ensures Valid() && Holds(s) && old(hist) <= hist
      ensures past == old(past).(log := past.log) && Later(old(past), past)
      ensures ok ==> up && past == Logged(old(past), Tested(link, true))
      ensures up ==> old(up)
      ensures trouble == After(old(trouble), ok)
    {
      ok := false;
      if up {
        var issued, good, crash: bool := *, *, *;
        ok := issued && good && !crash;
        if issued {
          Log(Tested(link, good), s);
        }
        up := !crash;
      }
      trouble := After(trouble, ok);
    }

    // nginx -s reload. It may be issued only where nginx -t has passed.
    method ReloadNginx(ghost s: TargetState) returns (ok: bool)
      requires Valid() && Holds(s)
      requires Tested(link, true) in past.log
      modifies this`up, this`past, this`hist, this`trouble
      ensures Valid() && Holds(s) && old(hist) <= hist
      ensures past == old(past).(log := past.log) && Later(old(past), past)
      ensures ok ==> up && past == Logged(old(past), Reloaded(link, true))
      ensures up ==> old(up)
      ensures trouble == After(old(trouble), ok)
    {
      ok := false;
      if up {
        var issued, good, crash: bool := *, *, *;
        ok := issued && good && !crash;
        if issued {
          Log(Reloaded(link, good), s);
        }
        up := !crash;
      }
      trouble := After(trouble, ok);
    }

    // verifySnapshot, as this transaction sees it (module Snapshots opens it up).
    method Check(v: Option<Version>, ghost s: TargetState) returns (ok: bool)
      requires Valid() && Holds(s)
      modifies this`up, this`past, this`hist, this`trouble
      ensures Valid() && Holds(s) && old(hist) <= hist
      ensures past == old(past).(log := past.log) && Later(old(past), past)
      ensures ok ==> up && v.Some? && past == Logged(old(past), Checked(v, true))
      ensures up ==> old(up)
      ensures trouble == After(old(trouble), ok)
    {
      ok := false;
      if up && v.Some? {
        var looked, good, crash: bool := *, *, *;
        ok := looked && good && !crash;
        if looked {
          Log(Checked(v, good), s);
        }
        up := !crash;
      }
      trouble := After(trouble, ok);
    }

    // Runtime.Verify and the frontend's HTTP probe.
    method Probe(v: Option<Version>, ghost s: TargetState) returns (ok: bool)
      requires Valid() && Holds(s)
      modifies this`up, this`past, this`hist, this`trouble
      ensures Valid() && Holds(s) && old(hist) <= hist
      ensures past == old(past).(log := past.log) && Later(old(past), past)
      ensures ok ==> up && past == Logged(old(past), Verified(v, true))
      ensures up ==> old(up)
      ensures trouble == After(old(trouble), ok)
    {
      ok := false;
      if up {
        var looked, good, crash: bool := *, *, *;
        ok := looked && good && !crash;
        if looked {
          Log(Verified(v, good), s);
        }
        up := !crash;
      }
      trouble := After(trouble, ok);
    }

    // Any other call into the environment: it leaves no trace here but may refuse.
    method Environment() returns (ok: bool)
      modifies this`up, this`trouble
      ensures ok ==> up
      ensures up ==> old(up)
      ensures trouble == After(old(trouble), ok)
    {
      var good, crash: bool := *, *;
      ok := up && good && !crash;
      up := up && !crash;
      trouble := After(trouble, ok);
    }

    // release.ID() for a state revision.
    method NewRevision(ghost pair: Pair, ghost live: bool, ghost s: TargetState) returns (rev: Revision)
      requires Valid() && Holds(s) && Later(past, Drawn(past, pair, live)) && link == LinkOf(pair.current)
      requires live ==> ReloadedSince(past.log, link)
      modifies this`minted, this`past, this`hist
      ensures Valid() && Holds(s) && old(hist) <= hist
      ensures rev == |old(past).pairs| && past == Drawn(old(past), pair, live)
    {
      rev := minted;
      ghost var q := Drawn(past, pair, live);
      StepPastOnly(Now(), q);
      SoundStateLater(s, past, q);
      SaveableLater(disk, s, past, q);
      minted := minted + 1;
      Advance(World(disk, link, q));
    }

    /* ---------- Ending a transaction ---------- */

    // s may be saved, and its record is between its two ends.
    ghost predicate HoldsSwitched(s: TargetState, id: ReleaseId)
      reads this
    {
      && Holds(s) && id in s.records && s.records[id].intent && s.records[id].candidate.Some?
      && s.revision in past.served && AtEitherEnd(s, s.records[id])
    }

    // The outcome is not known to be durable: mark the release for recovery.
    method Uncertain(s0: TargetState, id: ReleaseId, code: ErrorCode) returns (reply: Reply)
      requires Valid() && Holds(s0) && id in s0.records
      requires up && past.clean ==> s0.records[id].intent
      requires s0.records[id].intent ==> AtEitherEnd(s0, s0.records[id])
      modifies this
      ensures Valid() && old(hist) <= hist
      ensures link == old(link) && past.log == old(past).log
      ensures past.overwritten == old(past).overwritten && Later(old(past), past)
      ensures UncertainOutcome(old(disk), s0, id, code, disk)
      ensures reply == if up then Answer(UncertainState(s0, id, code).records[id], 503, false) else Lost
      ensures up ==> old(up)
      ensures Grew(old(trouble), trouble)
      ensures trouble == old(trouble) ==> blocked == old(blocked)
    {
      hide SoundState, SoundPairs, Saveable, Run, Kept;
      if !up {
        return Lost;
      }
      var s := s0.(recovery := true, active := Some(id));
      var rec := s.records[id];
      rec := rec.(http := 503, result := rec.result.(status := RecoveryRequired, code := code));
      if rec.intent {
        rec := rec.(result := rec.result.(activation := Unknown));
      }
      rec := rec.(result := rec.result.(rollback := Unavailable));
      if code == RecoveryFailed {
        rec := rec.(result := rec.result.(rollback := RollbackFailed));
      }
      s := s.(records := s.records[id := rec]);
      assert s == UncertainState(s0, id, code);
      UncertainKeeps(s0, id, code, past);
      SaveableThenContinues(disk, s0, s, past);
      var ok := Save(s);
      if !ok {
        blocked := true;
      }
      reply := if up then Answer(rec, rec.http, false) else Lost;
    }

    method Fail(s0: TargetState, id: ReleaseId, code: ErrorCode, now: Time) returns (reply: Reply)
      requires Valid() && id in s0.records && Holds(FailedState(s0, id, code, now))
      requires s0.records[id].intent ==> AtEitherEnd(s0, s0.records[id])
      modifies this
      ensures Valid() && old(hist) <= hist
      ensures link == old(link) && past.log == old(past).log
      ensures past.overwritten == old(past).overwritten && Later(old(past), past)
      ensures SaveOutcome(old(disk), FailedState(s0, id, code, now), id, disk)
      ensures up ==> Answered(reply, Failed) || Answered(reply, RecoveryRequired)
      ensures if up then reply.Answer? && !reply.replayed else reply == Lost
      ensures Answered(reply, Failed) ==>
        disk == FailedState(s0, id, code, now) && reply == Answer(disk.records[id], 500, false)
      ensures up ==> old(up)
      ensures Grew(old(trouble), trouble)
      ensures Excused(old(trouble), trouble, reply, 2)
      ensures Stamped(reply, {code}, now)
      ensures trouble == old(trouble) ==> blocked == old(blocked) && up && Answered(reply, Failed)
    {
      var s := s0;
      var rec := s.records[id];
      rec := rec.(http := 500, result := rec.result.(status := Failed, code := code, finished := now));
      s := s.(records := s.records[id := rec]);
      s := s.(active := None, recovery := false);
      assert s == FailedState(s0, id, code, now);
      var ok := Save(s);
      if !ok {
        reply := Uncertain(s, id, StatePersistFailed);
        return;
      }
      reply := Answer(rec, rec.http, false);
    }

    method CommitGitStage(s0: TargetState, id: ReleaseId, now: Time) returns (reply: Reply)
      requires Valid() && HoldsSwitched(s0, id) && link == LinkOf(s0.records[id].candidate)
      modifies this
      ensures Valid() && old(hist) <= hist
      ensures link == old(link) && past.log == old(past).log
      ensures past.overwritten == old(past).overwritten && Later(old(past), past)
      ensures SaveOutcome(old(disk), StagedState(s0, id, |old(past).pairs|, now), id, disk)
      ensures up ==> Answered(reply, Succeeded) || Answered(reply, RecoveryRequired)
      ensures if up then reply.Answer? && !reply.replayed else reply == Lost
      ensures Answered(reply, Succeeded) ==>
        disk == StagedState(s0, id, |old(past).pairs|, now) && reply == Answer(disk.records[id], 200, false)
      ensures up ==> old(up)
      ensures Grew(old(trouble), trouble)
      ensures Excused(old(trouble), trouble, reply, 2)
      ensures trouble == old(trouble) ==> blocked == old(blocked) && up && Answered(reply, Succeeded)
    {
      hide SoundState, SoundPairs, Saveable, Run, Continues;
      var rec := s0.records[id];
      StagedKeeps(s0, id, now, past);
      ghost var s1 := StagedState(s0, id, |past.pairs|, now);
      var rev := NewRevision(Pair(rec.candidate, rec.baseline), false, s0);
      SaveableThenContinues(disk, s0, s1, past);
      var s := s0.(previous := rec.baseline, current := rec.candidate);
      s := s.(revision := rev, active := None, recovery := false);
      rec := rec.(result := rec.result.(status := Succeeded, phase := LatestSwitched, activation := LinkSwitched));
      rec := rec.(result := rec.result.(rollback := NotNeeded, code := NoError, after := rev, finished := now));
      rec := rec.(http := 200);
      s := s.(records := s.records[id := rec]);
      assert s == s1;
      var ok := Save(s);
      if !ok {
        reply := Uncertain(s, id, StatePersistFailed);
        return;
      }
      reply := Answer(rec, rec.http, false);
    }

    // The assignments of a commit, and their save.
    method SaveCommitted(s0: TargetState, id: ReleaseId, now: Time) returns (ok: bool, s: TargetState)
      requires Valid() && HoldsSwitched(s0, id) && link == LinkOf(s0.records[id].candidate)
      requires ReloadedSince(past.log, link)
      modifies this`disk, this`up, this`minted, this`past, this`hist, this`trouble
      ensures Valid() && Holds(s) && old(hist) <= hist
      ensures s == CommittedState(s0, id, |old(past).pairs|, now) && AtEitherEnd(s, s.records[id])
      ensures past.log == old(past).log && past.overwritten == old(past).overwritten && Later(old(past), past)
      ensures disk == old(disk) || disk == s
      ensures ok ==> up && disk == s
      ensures up ==> old(up)
      ensures trouble == AfterSave(old(trouble), ok)
    {
      hide SoundState, SoundPairs, Saveable, Run, Continues;
      var rec := s0.records[id];
      CommittedKeeps(s0, id, now, past);
      ghost var s1 := CommittedState(s0, id, |past.pairs|, now);
      var rev := NewRevision(Pair(rec.candidate, rec.baseline), true, s0);
      SaveableThenContinues(disk, s0, s1, past);
      s := s0.(previous := rec.baseline, current := rec.candidate);
      s := s.(revision := rev, active := None, recovery := false);
      rec := rec.(result := rec.result.(status := Succeeded, phase := Complete, activation := ReloadRequested));
      rec := rec.(result := rec.result.(rollback := NotNeeded, code := NoError, after := rev, finished := now));
      rec := rec.(http := 200);
      s := s.(records := s.records[id := rec]);
      assert s == s1;
      ok := Save(s);
    }

    // Reload has succeeded and been verified: the candidate becomes current.
    method Commit(s0: TargetState, id: ReleaseId, now: Time) returns (reply: Reply)
      requires Valid() && HoldsSwitched(s0, id) && link == LinkOf(s0.records[id].candidate)
      requires ReloadedSince(past.log, link)
      modifies this
      ensures Valid() && old(hist) <= hist
      ensures link == old(link) && past.log == old(past).log
      ensures past.overwritten == old(past).overwritten && Later(old(past), past)
      ensures SaveOutcome(old(disk), CommittedState(s0, id, |old(past).pairs|, now), id, disk)
      ensures up ==> Answered(reply, Succeeded) || Answered(reply, RecoveryRequired)
      ensures if up then reply.Answer? && !reply.replayed else reply == Lost
      ensures Answered(reply, Succeeded) ==>
        disk == CommittedState(s0, id, |old(past).pairs|, now) && reply == Answer(disk.records[id], 200, false)
      ensures up ==> old(up)
      ensures Grew(old(trouble), trouble)
      ensures Excused(old(trouble), trouble, reply, 2)
      ensures Stamped(reply, {}, now)
      ensures up && trouble.unsaved == old(trouble).unsaved ==> Answered(reply, Succeeded)
      ensures trouble == old(trouble) ==> blocked == old(blocked) && up && Answered(reply, Succeeded)
    {
      hide SoundState, SoundPairs, Saveable, Run, Continues;
      var ok, s := SaveCommitted(s0, id, now);
      if !ok {
        reply := Uncertain(s, id, StatePersistFailed);
        return;
      }
      // cleanupSnapshots: a failure adds a warning and saves again.
      var cleaned := Environment();
      if !cleaned {
        var _ := Save(s);
      }
      reply := if up then Answer(s.records[id], s.records[id].http, false) else Lost;
    }

    // The snapshot's files, then the running server.
    method Verify(v: Option<Version>, ghost s: TargetState) returns (ok: bool)
      requires Valid() && Holds(s)
      modifies this`up, this`past, this`hist, this`trouble
      ensures Valid() && Holds(s) && old(hist) <= hist
      ensures past == old(past).(log := past.log) && Later(old(past), past)
      ensures ok ==> up && past.log == old(past).log + VerifyEvents(v)
      ensures up ==> old(up)
      ensures trouble == After(old(trouble), ok)
    {
      hide SoundState, SoundPairs, Saveable, Run, Valid, Holds;
      if v.Some? {
        ok := Check(v, s);
        if !ok {
          return;
        }
      }
      ok := Probe(v, s);
    }

    // verify and verifyRetainedAssets.
    method VerifyActivated(v: Option<Version>, ghost s: TargetState) returns (ok: bool)
      requires Valid() && Holds(s)
      modifies this`up, this`past, this`hist, this`trouble
      ensures Valid() && Holds(s) && old(hist) <= hist
      ensures past == old(past).(log := past.log) && Later(old(past), past)
      ensures ok ==> up && past.log == old(past).log + VerifyEvents(v)
      ensures up ==> old(up)
      ensures trouble == After(old(trouble), ok)
    {
      hide SoundState, SoundPairs, Saveable, Run;
      ok := Verify(v, s);
      if ok {
        ok := Environment();
      }
    }

    // A version's files, then its assets (installAssets, verifyRetainedAssets).
    method CheckInstalled(v: Option<Version>, ghost s: TargetState) returns (ok: bool)
      requires Valid() && Holds(s) && v.Some?
      modifies this`up, this`past, this`hist, this`trouble
      ensures Valid() && Holds(s) && old(hist) <= hist
      ensures past == old(past).(log := past.log) && Later(old(past), past)
      ensures ok ==> up && past.log == old(past).log + [Checked(v, true)]
      ensures up ==> old(up)
      ensures trouble == After(old(trouble), ok)
    {
      hide SoundState, SoundPairs, Saveable, Run;
      ok := Check(v, s);
      if ok {
        ok := Environment();
      }
    }

    method TestThenReload(ghost s: TargetState) returns (ok: bool)
      requires Valid() && Holds(s)
      modifies this`up, this`past, this`hist, this`trouble
      ensures Valid() && Holds(s) && old(hist) <= hist
      ensures past == old(past).(log := past.log) && Later(old(past), past)
      ensures ok ==> up && past.log == old(past).log + ActivateEvents(link)
      ensures up ==> old(up)
      ensures trouble == After(old(trouble), ok)
    {
      hide SoundState, SoundPairs, Saveable, Run, Explained, Valid, Holds;
      ok := Test(s);
      if ok {
        ok := ReloadNginx(s);
      }
    }

    // The baseline's files are checked and the link is put back on it.
    method SwitchBack(rec: Record, ghost s: TargetState) returns (ok: bool)
      requires Valid() && Holds(s)
      requires rec.baseline.None? ==> rec.beforeLink == Absent
      requires !past.overwritten ==> Explained(disk, LinkOf(rec.baseline))
      modifies this`link, this`up, this`past, this`hist, this`trouble
      ensures Valid() && Holds(s) && old(hist) <= hist
      ensures link == old(link) || link == LinkOf(rec.baseline)
      ensures past == old(past).(log := past.log) && Later(old(past), past)
      ensures ok ==> up && link == LinkOf(rec.baseline)
      ensures ok ==>
        past.log == old(past).log + (if rec.baseline.Some? then [Checked(rec.baseline, true)] else [])
                    + [Switched(link)]
      ensures up ==> old(up)
      ensures trouble == After(old(trouble), ok)
    {
      hide SoundState, SoundPairs, Saveable, Run, Explained, Valid, Holds;
      if rec.baseline.Some? {
        ok := Check(rec.baseline, s);
        if !ok {
          return;
        }
      }
      ok := Switch(RollbackLink(rec), s);
    }

    method RestoreLocal(rec: Record, ghost s: TargetState) returns (ok: bool)
      requires Valid() && Holds(s)
      requires rec.baseline.None? ==> rec.beforeLink == Absent
      requires !past.overwritten ==> Explained(disk, LinkOf(rec.baseline))
      modifies this`link, this`up, this`past, this`hist, this`trouble
      ensures Valid() && Holds(s) && old(hist) <= hist
      ensures link == old(link) || link == LinkOf(rec.baseline)
      ensures past == old(past).(log := past.log) && Later(old(past), past)
      ensures ok ==> up && link == LinkOf(rec.baseline) && past.log == old(past).log + RollbackEvents(rec.baseline)
      ensures up ==> old(up)
      ensures trouble == After(old(trouble), ok)
    {
      hide SoundState, SoundPairs, Saveable, Run, Explained, Valid, Holds;
      ok := SwitchBack(rec, s);
      if !ok {
        return;
      }
      ok := TestThenReload(s);
      if !ok {
        return;
      }
      ok := Verify(rec.baseline, s);
    }

    // The local rollback is done; record it as current again.
    method RecordRestored(s0: TargetState, id: ReleaseId, code: ErrorCode, now: Time) returns (reply: Reply)
      requires Valid() && HoldsSwitched(s0, id) && link == LinkOf(s0.records[id].baseline)
      requires ReloadedSince(past.log, link)
      modifies this
      ensures Valid() && old(hist) <= hist
      ensures link == old(link) && past.log == old(past).log
      ensures past.overwritten == old(past).overwritten && Later(old(past), past)
      ensures SaveOutcome(old(disk), RolledBackState(s0, id, |old(past).pairs|, code, now), id, disk)
      ensures up ==> Answered(reply, Failed) || Answered(reply, RecoveryRequired)
      ensures if up then reply.Answer? && !reply.replayed else reply == Lost
      ensures Answered(reply, Failed) ==>
        && disk == RolledBackState(s0, id, |old(past).pairs|, code, now)
        && reply == Answer(disk.records[id], 500, false)
      ensures up ==> old(up)
      ensures Grew(old(trouble), trouble)
      ensures Excused(old(trouble), trouble, reply, 2)
      ensures Stamped(reply, {code}, now)
      ensures trouble == old(trouble) ==> blocked == old(blocked) && up && Answered(reply, Failed)
    {
      hide SoundState, SoundPairs, Saveable, Run, Explained, Continues;
      var rec := s0.records[id];
      RolledBackKeeps(s0, id, code, now, past);
      ghost var s1 := RolledBackState(s0, id, |past.pairs|, code, now);
      var rev := NewRevision(Pair(rec.baseline, rec.baselinePrevious), true, s0);
      SaveableThenContinues(disk, s0, s1, past);
      var s := s0.(current := rec.baseline, previous := rec.baselinePrevious);
      s := s.(revision := rev, active := None, recovery := false);
      rec := rec.(result := rec.result.(activation := ActivationRestored, rollback := RollbackSucceeded));
      rec := rec.(result := rec.result.(after := rev, phase := RolledBack));
      s := s.(records := s.records[id := rec]);
      assert s == RestoredState(s0, id, rev);
      reply := Fail(s, id, code, now);
    }

    // Everything a restore does before it records its end.
    method PutBack(s0: TargetState, id: ReleaseId) returns (ok: bool)
      requires Valid() && HoldsSwitched(s0, id)
      requires !past.overwritten ==> Explained(disk, LinkOf(s0.records[id].baseline))
      modifies this`link, this`up, this`past, this`hist, this`trouble
      ensures Valid() && HoldsSwitched(s0, id) && old(hist) <= hist
      ensures link == old(link) || link == LinkOf(s0.records[id].baseline)
      ensures past == old(past).(log := past.log) && Later(old(past), past)
      ensures ok ==>
        && up && link == LinkOf(s0.records[id].baseline) && ReloadedSince(past.log, link)
        && past.log == old(past).log + RollbackEvents(s0.records[id].baseline)
      ensures up ==> old(up)
      ensures trouble == After(old(trouble), ok)
    {
      hide SoundState, SoundPairs, Saveable, Run, Explained, Continues;
      ok := Environment();
      if !ok {
        return;
      }
      var rec := s0.records[id];
      BaselineLink(s0, id, past);
      ok := RestoreLocal(rec, s0);
      if ok {
        RestoredReloaded(old(past).log, past.log, rec.baseline);
      }
    }

    // Put the baseline back. On success the pair is that of before the release, under a
    // new revision; otherwise the release waits for recovery.
    method Restore(s0: TargetState, id: ReleaseId, code: ErrorCode, now: Time) returns (reply: Reply)
      requires Valid() && HoldsSwitched(s0, id)
      requires !past.overwritten ==> Explained(disk, LinkOf(s0.records[id].baseline))
      modifies this
      ensures Valid() && old(hist) <= hist
      ensures link == old(link) || link == LinkOf(s0.records[id].baseline)
      ensures past.overwritten == old(past).overwritten && Later(old(past), past)
      ensures
        || UncertainOutcome(old(disk), s0, id, RecoveryFailed, disk)
        || (link == LinkOf(s0.records[id].baseline)
            && SaveOutcome(old(disk), RolledBackState(s0, id, |old(past).pairs|, code, now), id, disk))
      ensures up ==> Answered(reply, Failed) || Answered(reply, RecoveryRequired)
      ensures if up then reply.Answer? && !reply.replayed else reply == Lost
      ensures Answered(reply, Failed) ==>
        && disk == RolledBackState(s0, id, |old(past).pairs|, code, now)
        && reply == Answer(disk.records[id], 500, false)
        && link == LinkOf(s0.records[id].baseline)
        && past.log == old(past).log + RollbackEvents(s0.records[id].baseline)
      ensures up ==> old(up)
      ensures Grew(old(trouble), trouble)
      ensures Excused(old(trouble), trouble, reply, 1)
      ensures Stamped(reply, {code}, now)
      ensures trouble == old(trouble) ==> blocked == old(blocked) && up && Answered(reply, Failed)
    {
      hide SoundState, SoundPairs, Saveable, Run, Explained, Continues, Valid, Holds, Settled, RolledBackState;
      var ok := PutBack(s0, id);
      if ok {
        reply := RecordRestored(s0, id, code, now);
      } else {
        reply := Uncertain(s0, id, RecoveryFailed);
      }
    }

    /* ---------- Beginning a transaction ---------- */

    // The version that `of` replaced, which was of this commit, can be put back: `of` succeeded
    // and nothing has been installed since.
    ghost predicate Restorable(d: TargetState, of: ReleaseId, commit: Commit) {
      && of in d.records && d.records[of].result.status == Succeeded && d.records[of].result.after == d.revision
      && d.records[of].baseline.Some? && d.records[of].baseline.value.commit == commit
      && d.records[of].candidate.Some? && d.current.Some?
      && d.records[of].candidate.value.commit == d.current.value.commit
    }

    // What a request that goes no further is told by a node that works.
    ghost predicate Answers(d: TargetState, req: Request, frontend: bool, blocked: bool, reply: Reply) {
      if (req.restoreOf.Some? && req.expected.None?) || (req.digest.Some? && !frontend) then
        reply == Rejected(400, InvalidRequest)
      else if req.id in d.records && d.records[req.id].fingerprint != req then
        reply == Rejected(409, ReleaseIdConflict)
      else if req.id in d.records && d.records[req.id].result.status in {Succeeded, Skipped, Failed} then
        reply == Answer(d.records[req.id], d.records[req.id].http, true)
      else if req.id in d.records && d.records[req.id].result.status == Running then
        reply == Rejected(409, ReleaseRunning)
      else if blocked then reply == Rejected(503, PublicationBlocked)
      else if req.expected.Some? && req.expected.value != d.revision then reply == Rejected(409, RevisionConflict)
      else
        && reply == Rejected(409, RestoreConflict) && req.restoreOf.Some?
        && (!Restorable(d, req.restoreOf.value, req.commit)
            || (frontend && req.digest.Some? && d.records[req.restoreOf.value].baseline.value.artifact != req.digest))
    }

    // The in-process lock, then the node's lock file.
    method TakeLocks() returns (refused: Option<Reply>)
      modifies this`up, this`trouble
      ensures refused.None? ==> up
      ensures refused.Some? ==> refused.value == Lost || (up && Unready(refused.value))
      ensures refused.Some? ==> (refused.value == Lost <==> !up)
      ensures up ==> old(up)
      ensures Grew(old(trouble), trouble)
      ensures trouble == old(trouble) ==> refused.None?
    {
      var free := Environment();
      if !free {
        return Some(if up then Rejected(409, NodeBusy) else Lost);
      }
      var locked := Environment();
      var busy: bool := *;
      if !locked {
        return Some(if !up then Lost else if busy then Rejected(409, NodeBusy) else Rejected(503, LockFailed));
      }
      return None;
    }

    // Everything `apply` asks before it touches the state.
    method Admit(req: Request) returns (refused: Option<Reply>, admitted: Request)
      requires Valid()
      modifies this`up, this`blocked, this`trouble
      ensures Valid()
      ensures refused.None? ==>
        up && !old(blocked) && Admissible(disk, req, frontend) && admitted == Effective(disk, req, frontend)
      ensures refused.Some? ==> Refusal(disk, req, frontend, refused.value)
      ensures up ==> old(up)
      ensures refused.Some? ==> (refused.value == Lost <==> !up)
      ensures Grew(old(trouble), trouble)
      ensures trouble == old(trouble) ==> blocked == old(blocked)
      ensures trouble == old(trouble) && !blocked && Admissible(disk, req, frontend) ==> refused.None?
      // The answers, by what the request and the records say.
      ensures trouble == old(trouble) && refused.Some? ==>
        Answers(disk, req, frontend, blocked, refused.value)
      ensures refused.None? && req.restoreOf.Some? ==> Restorable(disk, req.restoreOf.value, req.commit)
    {
      hide Run;
      admitted := req;
      if !up {
        trouble := After(trouble, false);
        return Some(Lost), admitted;
      }
      if (req.restoreOf.Some? && req.expected.None?) || (req.digest.Some? && !frontend) {
        return Some(Rejected(400, InvalidRequest)), admitted;
      }
      refused := TakeLocks();
      if refused.Some? {
        return;
      }
      var loaded := Environment();
      if !loaded {
        blocked := true;
        return Some(if up then Rejected(503, StateUnavailable) else Lost), admitted;
      }
      var known := DuplicateReply(disk, req);
      if known.Some? {
        return known, admitted;
      }
      if blocked {
        return Some(Rejected(503, PublicationBlocked)), admitted;
      }
      if req.expected.Some? && req.expected.value != disk.revision {
        return Some(Rejected(409, RevisionConflict)), admitted;
      }
      if req.restoreOf.Some? {
        if !RestoreAllowed(disk, req.restoreOf.value, req.commit) {
          return Some(Rejected(409, RestoreConflict)), admitted;
        }
        var original := disk.records[req.restoreOf.value];
        if frontend && req.digest.None? {
          admitted := req.(digest := original.baseline.value.artifact);
        }
        if frontend && original.baseline.value.artifact != admitted.digest {
          return Some(Rejected(409, RestoreConflict)), admitted;
        }
      }
      return None, admitted;
    }

    // The durable mark of a step, made before the step runs.
    method BeginStep(s0: TargetState, id: ReleaseId, ph: Phase) returns (ok: bool, s: TargetState)
      requires Valid() && Holds(s0) && id in s0.records
      requires IsStep(ph) && !Settled(s0.records[id])
      requires s0.records[id].result.status == Running || s0.records[id].result.phase != RolledBack
      requires s0.records[id].result.status == Succeeded ==> Resumable(ph)
      modifies this`disk, this`up, this`past, this`hist, this`trouble
      ensures Valid() && Holds(s) && old(hist) <= hist
      ensures s == InPhase(s0, id, ph)
      ensures disk == old(disk) || disk == s
      ensures ok ==> disk == s && up && s.revision in past.served
      ensures up ==> old(up)
      ensures past == old(past).(served := past.served, clean := past.clean) && Later(old(past), past)
      ensures !ok && up ==> !past.clean
      ensures ok ==> past.clean == old(past).clean
      ensures trouble == AfterSave(old(trouble), ok)
    {
      hide SoundState, SoundPairs, Saveable, Run, Continues;
      InPhaseKeeps(s0, id, ph, past);
      s := s0;
      var rec := s.records[id];
      rec := rec.(result := rec.result.(phase := ph));
      s := s.(records := s.records[id := rec]);
      SaveableThenContinues(disk, s0, s, past);
      ok := Save(s);
    }

    ghost method NoteAccepted(req: Request, fingerprint: Request, now: Time)
      requires Valid()
      requires Enrollable(disk, req, fingerprint)
      modifies this`past, this`hist
      ensures Valid() && old(hist) <= hist && past == AcceptedPast(old(past), disk, req.id)
      ensures Later(old(past), past) && past.log == old(past).log && past.pairs == old(past).pairs
      ensures Holds(AcceptedState(disk, req, fingerprint, now))
    {
      hide SoundState, Saveable, Run, Sound, AcceptedState, ReloadsTested;
      LiveWorld();
      ghost var q := AcceptedPast(past, disk, req.id);
      AcceptedKeeps(disk, req, fingerprint, now, past);
      StepPastOnly(Now(), q);
      Advance(World(disk, link, q));
    }

    // The working copy of a release that began on d0 and has not switched anything.
    ghost predicate Prepares(d0: Origin, s: TargetState, id: ReleaseId)
      reads this
    {
      && Holds(s) && Preparing(s, id) && s.revision in past.served
      && Begun(d0, s, id) && Begun(d0, disk, id) && TookOver(d0.state, s, id)
      && PairOf(s) == PairOf(d0.state) && s.revision == d0.state.revision
    }

    predicate EndedUnswitched(e: TargetState, id: ReleaseId, reply: Reply) {
      e.active == None && !e.recovery && id in e.records && reply == Answer(e.records[id], 500, false)
    }

    // An end without a switch.
    method FailUnswitched(s0: TargetState, id: ReleaseId, code: ErrorCode, now: Time, ghost d0: Origin)
      returns (reply: Reply)
      requires Valid() && Prepares(d0, s0, id)
      modifies this
      ensures Valid() && old(hist) <= hist
      ensures link == old(link) && past.log == old(past).log
      ensures past.overwritten == old(past).overwritten && Later(old(past), past)
      ensures Begun(d0, disk, id)
      ensures up ==> Answered(reply, Failed) || Answered(reply, RecoveryRequired)
      ensures if up then reply.Answer? && !reply.replayed else reply == Lost
      ensures Answered(reply, Failed) ==> disk == FailedState(s0, id, code, now) && EndedUnswitched(disk, id, reply)
      ensures up ==> old(up)
      ensures Grew(old(trouble), trouble)
      ensures Excused(old(trouble), trouble, reply, 2)
      ensures Stamped(reply, {code}, now)
      ensures trouble == old(trouble) ==> blocked == old(blocked)
    {
      hide SoundState, SoundPairs, Saveable, Run, Continues, Begun;
      ghost var f := FailedState(s0, id, code, now);
      FailedKeeps(s0, id, code, now, past);
      SaveableThenContinues(disk, s0, f, past);
      BegunChanged(d0, s0, id, f);
      BegunChanged(d0, f, id, UncertainState(f, id, StatePersistFailed));
      reply := Fail(s0, id, code, now);
    }

    method UncertainUnswitched(s0: TargetState, id: ReleaseId, ghost d0: Origin) returns (reply: Reply)
      requires Valid() && Prepares(d0, s0, id)
      requires up ==> !past.clean
      modifies this
      ensures Valid() && old(hist) <= hist
      ensures link == old(link) && past.log == old(past).log
      ensures past.overwritten == old(past).overwritten && Later(old(past), past)
      ensures Begun(d0, disk, id)
      ensures Answered(reply, RecoveryRequired) ==> reply.record.result.code == StatePersistFailed
      ensures up ==> Answered(reply, RecoveryRequired)
      ensures if up then reply.Answer? && !reply.replayed else reply == Lost
      ensures up ==> old(up)
      ensures Grew(old(trouble), trouble)
      ensures trouble == old(trouble) ==> blocked == old(blocked)
    {
      hide SoundState, SoundPairs, Saveable, Run, Continues, Begun;
      BegunChanged(d0, s0, id, UncertainState(s0, id, StatePersistFailed));
      reply := Uncertain(s0, id, StatePersistFailed);
    }

    // takeover, the new record and its first save.
    method Enroll(req: Request, fingerprint: Request, now: Time)
      returns (go: bool, s: TargetState, reply: Reply)
      requires Valid()
      requires Enrollable(disk, req, fingerprint)
      modifies this
      ensures Valid() && old(hist) <= hist
      ensures link == old(link) && past.log == old(past).log && Later(old(past), past)
      ensures past.overwritten == AcceptedPast(old(past), old(disk), req.id).overwritten
      ensures past.clean ==> AcceptedPast(old(past), old(disk), req.id).clean
      ensures Begun(Origin(old(disk), fingerprint), disk, req.id)
      ensures go ==> up && Prepares(Origin(old(disk), fingerprint), s, req.id)
      ensures go ==> s == AcceptedState(old(disk), req, fingerprint, now)
      ensures !go && up ==> Answered(reply, RecoveryRequired)
      ensures !go ==> if up then reply.Answer? && !reply.replayed else reply == Lost
      ensures up ==> old(up)
      ensures Grew(old(trouble), trouble)
      ensures Excused(old(trouble), trouble, reply, 2)
      ensures trouble == old(trouble) ==> blocked == old(blocked) && go
    {
      hide SoundState, SoundPairs, Saveable, Run, Continues, Begun, AcceptedState, AcceptedPast;
      go, reply := false, Lost;
      ghost var d0 := Origin(disk, fingerprint);
      AcceptedShape(disk, req, fingerprint, now);
      BegunReflexive(d0, req.id);
      NoteAccepted(req, fingerprint, now);
      s := AcceptedState(disk, req, fingerprint, now);
      LiveWorld();
      go := Save(s);
      if !go {
        reply := UncertainUnswitched(s, req.id, d0);
      }
    }

    // The step that notes the stored current version as the rollback target.
    method VerifyBaseline(s0: TargetState, id: ReleaseId, now: Time, ghost d0: Origin)
      returns (go: bool, s: TargetState, reply: Reply)
      requires Valid() && Prepares(d0, s0, id)
      modifies this
      ensures Valid() && old(hist) <= hist
      ensures link == old(link) && past.log == old(past).log
      ensures past.overwritten == old(past).overwritten && Later(old(past), past)
      ensures Begun(d0, disk, id)
      ensures go ==> up && Prepares(d0, s, id)
      ensures go ==> s == BaselineNoted(InPhase(s0, id, Phase.VerifyBaseline), id)
      ensures go ==> id in disk.records && disk.records[id].result.status == Running
      ensures !go && up ==> Answered(reply, Failed) || Answered(reply, RecoveryRequired)
      ensures !go ==> if up then reply.Answer? && !reply.replayed else reply == Lost
      ensures !go && Answered(reply, Failed) ==> EndedUnswitched(disk, id, reply)
      ensures up ==> old(up)
      ensures Grew(old(trouble), trouble)
      ensures Excused(old(trouble), trouble, reply, 2)
      ensures Stamped(reply, {TargetUnavailable, BaselineCheckCancelled}, now)
      ensures trouble == old(trouble) ==> blocked == old(blocked) && go
    {
      hide SoundState, SoundPairs, Saveable, Run, Continues, Begun;
      go, reply, s := false, Lost, s0;
      var reachable := Environment();
      if !reachable {
        reply := FailUnswitched(s, id, TargetUnavailable, now, d0);
        return;
      }
      BegunChanged(d0, s, id, InPhase(s, id, Phase.VerifyBaseline));
      go, s := BeginStep(s, id, Phase.VerifyBaseline);
      if !go {
        reply := UncertainUnswitched(s, id, d0);
        return;
      }
      go, s, reply := NoteBaseline(s, id, now, d0);
    }

    // The body of that step.
    method NoteBaseline(s0: TargetState, id: ReleaseId, now: Time, ghost d0: Origin)
      returns (go: bool, s: TargetState, reply: Reply)
      requires Valid() && Prepares(d0, s0, id)
      modifies this
      ensures Valid() && old(hist) <= hist
      ensures link == old(link) && past.log == old(past).log
      ensures past.overwritten == old(past).overwritten && Later(old(past), past)
      ensures Begun(d0, disk, id)
      ensures go ==> up && Prepares(d0, s, id) && s == BaselineNoted(s0, id) && disk == old(disk)
      ensures !go && up ==> Answered(reply, Failed) || Answered(reply, RecoveryRequired)
      ensures !go ==> if up then reply.Answer? && !reply.replayed else reply == Lost
      ensures !go && Answered(reply, Failed) ==> EndedUnswitched(disk, id, reply)
      ensures up ==> old(up)
      ensures Grew(old(trouble), trouble)
      ensures Excused(old(trouble), trouble, reply, 2)
      ensures Stamped(reply, {BaselineCheckCancelled}, now)
      ensures trouble == old(trouble) ==> blocked == old(blocked) && go
    {
      hide SoundState, SoundPairs, Saveable, Run, Continues, Begun;
      reply, s := Lost, s0;
      go := Environment();
      if !go {
        reply := FailUnswitched(s, id, BaselineCheckCancelled, now, d0);
        return;
      }
      ghost var s1 := BaselineNoted(s, id);
      BaselineNotedKeeps(s, id, past);
      SaveableThenContinues(disk, s, s1, past);
      BegunChanged(d0, s, id, s1);
      if s.current.Some? {
        var rec := s.records[id];
        rec := rec.(baseline := s.current, beforeLink := At(s.current.value.commit));
        s := s.(records := s.records[id := rec]);
      }
    }

    // fsutil.Link and normalizeSnapshotLink: the commit that `latest` is on, if any.
    method LiveCommit() returns (ok: bool, live: Option<Commit>)
      modifies this`up, this`trouble
      ensures ok ==> up && live == if link.At? then Some(link.commit) else None
      ensures up ==> old(up)
      ensures trouble == After(old(trouble), ok)
    {
      live := if link.At? then Some(link.commit) else None;
      ok := Environment();
    }

    // The loop over st.Records: a switched release of this version whose nginx commands
    // are still to come.
    method FindPending(s: TargetState, v: Version) returns (found: Option<ReleaseId>)
      ensures found.Some? ==> found.value in s.records && Pending(s.records[found.value], v)
      ensures found.None? ==> forall i :: i in s.records ==> !Pending(s.records[i], v)
    {
      var rest := s.records.Keys;
      while rest != {}
        invariant rest <= s.records.Keys
        invariant forall i :: i in s.records && i !in rest ==> !Pending(s.records[i], v)
        decreases |rest|
      {
        var i :| i in rest;
        if Pending(s.records[i], v) {
          return Some(i);
        }
        rest := rest - {i};
      }
      return None;
    }

    predicate IsCurrently(d: TargetState, l: Link, commit: Commit, source: Source) {
      d.current.Some? && d.current.value.commit == commit && d.current.value.source == source && l == At(commit)
    }

    // A release that is current already: either hand back the switched release that is
    // still waiting for nginx, or record that there is nothing to do.
    method TrySkip(s: TargetState, id: ReleaseId, source: Source, now: Time, ghost d0: Origin)
      returns (done: bool, reply: Reply)
      requires Valid() && Prepares(d0, s, id) && AsAsked(s.records[id])
      modifies this
      ensures Valid() && old(hist) <= hist
      ensures link == old(link) && past.overwritten == old(past).overwritten && Later(old(past), past)
      ensures Begun(d0, disk, id)
      ensures !done ==> Prepares(d0, s, id)
      ensures !done && !(s.current.Some? && s.current.value.commit == s.records[id].request.commit) ==>
        past == old(past) && up == old(up) && trouble == old(trouble)
      ensures done ==> IsCurrently(s, old(link), s.records[id].request.commit, source)
      ensures trouble == old(trouble) && IsCurrently(s, old(link), s.records[id].request.commit, source) ==> done
      ensures trouble == old(trouble) && done ==> reply.Answer? && (reply.replayed || Answered(reply, Skipped))
      ensures done && reply.Answer? && reply.replayed ==>
        && reply.http == 200 && reply.record.request.id in s.records && reply.record.request.id != id
        && reply.record == s.records[reply.record.request.id] && Pending(reply.record, s.current.value)
        && disk == old(disk)
      ensures done && reply.Answer? && !reply.replayed ==>
        Answered(reply, Skipped) || Answered(reply, RecoveryRequired)
      ensures done && Answered(reply, Skipped) ==>
        && reply.record.result.digest == s.records[id].request.digest
        && disk == SkippedState(s, id, now) && reply == Answer(disk.records[id], 200, false)
        && link == LinkOf(s.current)
        && past.log == old(past).log + [Checked(s.current, true)]
        && (past.clean ==> disk.revision in past.activated && Reloaded(link, true) in past.log)
      ensures done ==> if up then reply.Answer? else reply == Lost
      ensures up ==> old(up)
      ensures Grew(old(trouble), trouble)
      ensures Excused(old(trouble), trouble, reply, 2)
      ensures Stamped(reply, {}, now)
      ensures trouble == old(trouble) ==> blocked == old(blocked)
    {
      hide SoundState, SoundPairs, Saveable, Run, Continues, Begun, Pending;
      done, reply := false, Lost;
      var req := s.records[id].request;
      if s.current.None? || s.current.value.commit != req.commit || s.current.value.source != source {
        return;
      }
      var readable, live := LiveCommit();
      if !readable || live != Some(req.commit) {
        return;
      }
      var intact := Check(s.current, s);
      if !intact {
        return;
      }
      done := true;
      var existing := FindPending(s, s.current.value);
      if existing.Some? {
        RecordNamed(s, existing.value, past);
        reply := Answer(s.records[existing.value], 200, true);
        return;
      }
      ReloadedWhenNotPending(s, id, past);
      reply := RecordSkipped(s, id, now, d0);
      if disk.revision in past.activated {
        ActivatedReloaded();
      }
    }

    method RecordSkipped(s0: TargetState, id: ReleaseId, now: Time, ghost d0: Origin) returns (reply: Reply)
      requires Valid() && Prepares(d0, s0, id) && LinkOf(s0.current) == At(s0.records[id].request.commit)
      modifies this
      ensures Valid() && old(hist) <= hist
      ensures link == old(link) && past.log == old(past).log
      ensures past.overwritten == old(past).overwritten && Later(old(past), past)
      ensures Begun(d0, disk, id)
      ensures up ==> Answered(reply, Skipped) || Answered(reply, RecoveryRequired)
      ensures if up then reply.Answer? && !reply.replayed else reply == Lost
      ensures Answered(reply, Skipped) ==>
        && disk == SkippedState(s0, id, now) && reply == Answer(disk.records[id], 200, false)
        && reply.record.result.digest == s0.records[id].result.digest
      ensures up ==> old(up)
      ensures Grew(old(trouble), trouble)
      ensures Excused(old(trouble), trouble, reply, 2)
      ensures Stamped(reply, {}, now)
      ensures trouble == old(trouble) ==> blocked == old(blocked) && up && Answered(reply, Skipped)
    {
      hide SoundState, SoundPairs, Saveable, Run, Continues, Begun;
      ghost var s1 := SkippedState(s0, id, now);
      SkippedKeeps(s0, id, now, past);
      SaveableThenContinues(disk, s0, s1, past);
      BegunChanged(d0, s0, id, s1);
      BegunChanged(d0, s0, id, UncertainState(s1, id, StatePersistFailed));
      var rec := s0.records[id];
      rec := rec.(result := rec.result.(status := Skipped, phase := Complete, finished := now));
      rec := rec.(http := 200);
      var s := s0.(records := s0.records[id := rec], active := None);
      assert s == s1;
      var ok := Save(s);
      if !ok {
        reply := Uncertain(s, id, StatePersistFailed);
        return;
      }
      reply := Answer(rec, rec.http, false);
    }

    method PreparingStep(s0: TargetState, id: ReleaseId, ph: Phase, ghost d0: Origin)
      returns (ok: bool, s: TargetState)
      requires Valid() && Prepares(d0, s0, id) && IsStep(ph)
      modifies this`disk, this`up, this`past, this`hist, this`trouble
      ensures Valid() && Prepares(d0, s, id) && old(hist) <= hist
      ensures s == InPhase(s0, id, ph)
      ensures past == old(past).(served := past.served, clean := past.clean) && Later(old(past), past)
      ensures ok ==> up && disk == s && past.clean == old(past).clean
      ensures up ==> old(up)
      ensures trouble == AfterSave(old(trouble), ok)
    {
      hide SoundState, SoundPairs, Saveable, Run, Continues, Begun;
      BegunChanged(d0, s0, id, InPhase(s0, id, ph));
      ok, s := BeginStep(s0, id, ph);
    }

    lemma CandidateChosen(s: TargetState, id: ReleaseId, v: Version, d0: Origin)
      requires Valid() && Prepares(d0, s, id) && v.commit == s.records[id].request.commit
      requires !frontend ==> v.artifact.None?
      ensures Prepares(d0, WithCandidate(s, id, v), id)
    {
      hide SoundState, SoundPairs, Saveable, Continues, Begun, Run;
      WithCandidateKeeps(s, id, v, past);
      SaveableThenContinues(disk, s, WithCandidate(s, id, v), past);
      BegunChanged(d0, s, id, WithCandidate(s, id, v));
    }

    lemma DigestNoted(s: TargetState, id: ReleaseId, d: Digest, d0: Origin)
      requires Valid() && Prepares(d0, s, id)
      ensures Prepares(d0, DigestResolved(s, id, d), id)
    {
      DigestResolvedKeeps(s, id, d, past);
      SaveableThenContinues(disk, s, DigestResolved(s, id, d), past);
      BegunChanged(d0, s, id, DigestResolved(s, id, d));
    }

    // r.source
    function SourceOf(digest: Option<Digest>): Source {
      if frontend then Artifact(repo, digest) else Git(repo)
    }

    // The registry names the digest of the commit, and the record keeps it.
    method ResolveDigest(s0: TargetState, id: ReleaseId, ghost d0: Origin)
      returns (ok: bool, s: TargetState, digest: Option<Digest>)
      requires Valid() && Prepares(d0, s0, id)
      modifies this`disk, this`up, this`past, this`hist, this`trouble
      ensures Valid() && Prepares(d0, s, id) && old(hist) <= hist
      ensures s == s0 || (digest.Some? && s == DigestResolved(s0, id, digest.value))
      ensures s.records[id].request == s0.records[id].request
      ensures forall i :: i in s0.records && i != id ==> i in s.records && s.records[i] == s0.records[i]
      ensures past == old(past).(served := past.served, clean := past.clean) && Later(old(past), past)
      ensures ok ==> up && disk == s && digest.Some? && s.records[id].result.digest == digest
      ensures up ==> old(up)
      ensures Grew(old(trouble), trouble)
      ensures trouble == old(trouble) ==> ok
    {
      hide SoundState, SoundPairs, Saveable, Run, Continues, Begun;
      s, digest := s0, None;
      ok := Environment();
      if !ok {
        return;
      }
      var resolved: Digest := *;
      digest := Some(resolved);
      DigestNoted(s, id, resolved, d0);
      var rec := s.records[id];
      rec := rec.(result := rec.result.(digest := digest));
      s := s.(records := s.records[id := rec]);
      ok := Save(s);
    }

    // Fetching the tree or the artifact, or making a snapshot of it.
    method Pull(ghost s: TargetState, ghost id: ReleaseId, ghost d0: Origin) returns (ok: bool)
      requires Valid() && Prepares(d0, s, id)
      modifies this`up, this`trouble
      ensures Valid() && Prepares(d0, s, id)
      ensures ok ==> up
      ensures up ==> old(up)
      ensures trouble == After(old(trouble), ok)
    {
      hide SoundState, SoundPairs, Saveable, Run, Continues, Begun;
      ok := Environment();
    }

    // The fetch step: a frontend commit without a digest is resolved first, and the
    // digest is saved before it is pulled.
    method FetchStep(s0: TargetState, id: ReleaseId, ghost d0: Origin)
      returns (ok: bool, s: TargetState, digest: Option<Digest>)
      requires Valid() && Prepares(d0, s0, id) && AsAsked(s0.records[id])
      modifies this`disk, this`up, this`past, this`hist, this`trouble
      ensures Valid() && Prepares(d0, s, id) && old(hist) <= hist
      ensures s.records[id].request == s0.records[id].request
      ensures forall i :: i in s0.records && i != id ==> i in s.records && s.records[i] == s0.records[i]
      ensures past == old(past).(served := past.served, clean := past.clean) && Later(old(past), past)
      ensures ok ==> up && disk == s && (frontend ==> digest.Some?)
      ensures s0.records[id].request.digest.Some? ==> digest == s0.records[id].request.digest
      ensures ok ==> s.records[id].result.digest == digest && (digest.Some? ==> frontend)
      ensures up ==> old(up)
      ensures Grew(old(trouble), trouble)
      ensures trouble == old(trouble) ==> ok
    {
      hide SoundState, SoundPairs, Saveable, Run, Continues, Begun, DigestResolved, Valid, Holds;
      digest := s0.records[id].request.digest;
      ok, s := PreparingStep(s0, id, Fetch, d0);
      if !ok {
        return;
      }
      if frontend && digest.None? {
        ok, s, digest := ResolveDigest(s, id, d0);
        if !ok {
          return;
        }
      }
      ok := Pull(s, id, d0);
    }

    // The requested commit and version, from this target's own source; a frontend is named
    // by the digest it was pulled by, the requested one if there is one.
    predicate FetchedCandidate(v: Option<Version>, req: Request) {
      && v.Some? && v.value.commit == req.commit && v.value.version == req.version
      && v.value.source == (if frontend then Artifact(repo, v.value.artifact) else Git(repo))
      && (frontend <==> v.value.artifact.Some?)
      && (frontend && req.digest.Some? ==> v.value.artifact == req.digest)
    }

    // Nothing has been resolved yet: the result still names what was asked for.
    predicate AsAsked(r: Record) {
      r.result.digest == r.request.digest && (r.request.digest.Some? ==> frontend)
    }

    // A candidate built from a fetched tree.
    method PrepareFetched(s0: TargetState, id: ReleaseId, ghost d0: Origin)
      returns (ok: bool, s: TargetState)
      requires Valid() && Prepares(d0, s0, id) && AsAsked(s0.records[id])
      modifies this`disk, this`up, this`past, this`hist, this`trouble
      ensures Valid() && Prepares(d0, s, id) && old(hist) <= hist
      ensures past == old(past).(served := past.served, clean := past.clean) && Later(old(past), past)
      ensures ok ==> up && FetchedCandidate(s.records[id].candidate, s0.records[id].request)
      ensures ok ==> CandidateNamed(s.records[id])
      ensures up ==> old(up)
      ensures Grew(old(trouble), trouble)
      ensures trouble == old(trouble) ==> ok
    {
      hide SoundState, SoundPairs, Saveable, Run, Continues, Begun, Preparing, Valid, Holds;
      var digest;
      ok, s, digest := FetchStep(s0, id, d0);
      if !ok {
        return;
      }
      ok, s := PreparingStep(s, id, Phase.PrepareSnapshot, d0);
      if !ok {
        return;
      }
      ok := Pull(s, id, d0);
      if !ok {
        return;
      }
      var manifest: Seal := *;
      var rec := s.records[id];
      var source := SourceOf(digest);
      var v := Version(rec.request.commit, source, ArtifactDigest(source), rec.request.version, manifest);
      CandidateChosen(s, id, v, d0);
      rec := rec.(candidate := Some(v));
      s := s.(records := s.records[id := rec]);
    }

    static function RetainedCandidate(original: Record, req: Request): Option<Version> {
      if original.baseline.Some? then Some(original.baseline.value.(version := req.version)) else None
    }

    // A candidate that is the retained baseline of an earlier release.
    method PrepareRestore(s0: TargetState, id: ReleaseId, of: ReleaseId, ghost d0: Origin)
      returns (ok: bool, s: TargetState)
      requires Valid() && Prepares(d0, s0, id)
      requires of in s0.records && s0.records[of].baseline.Some?
      requires s0.records[of].baseline.value.commit == s0.records[id].request.commit
      modifies this`disk, this`up, this`past, this`hist, this`trouble
      ensures Valid() && Prepares(d0, s, id) && old(hist) <= hist
      ensures past == old(past).(served := past.served, clean := past.clean, log := past.log) && Later(old(past), past)
      ensures ok ==> up
      ensures ok ==> s.records[id].result.digest == s0.records[id].result.digest
      ensures ok ==> s.records[id].candidate == RetainedCandidate(s0.records[of], s0.records[id].request)
      ensures up ==> old(up)
      ensures Grew(old(trouble), trouble)
      ensures trouble == old(trouble) ==> ok
    {
      hide SoundState, SoundPairs, Saveable, Run, Continues, Begun;
      var rec := s0.records[id];
      var candidate := s0.records[of].baseline.value.(version := rec.request.version);
      BaselinePlain(s0, of, past);
      CandidateChosen(s0, id, candidate, d0);
      rec := rec.(candidate := Some(candidate));
      s := s0.(records := s0.records[id := rec]);
      ok, s := PreparingStep(s, id, Phase.PrepareSnapshot, d0);
      if !ok {
        return;
      }
      ok := Check(Some(candidate), s);
    }

    // The candidate that a request asks for, in the state its release was accepted in.
    predicate RightCandidate(v: Option<Version>, records: map<ReleaseId, Record>, req: Request) {
      if req.restoreOf.Some? then
        && req.restoreOf.value in records && records[req.restoreOf.value].baseline.Some?
        && v == Some(records[req.restoreOf.value].baseline.value.(version := req.version))
      else FetchedCandidate(v, req)
    }

    predicate RestoreReady(records: map<ReleaseId, Record>, req: Request) {
      req.restoreOf.Some? ==>
        && req.restoreOf.value in records && records[req.restoreOf.value].baseline.Some?
        && records[req.restoreOf.value].baseline.value.commit == req.commit
        && records[req.restoreOf.value].baseline.value.artifact == req.digest
    }

    method MakeCandidate(s0: TargetState, id: ReleaseId, now: Time, ghost d0: Origin)
      returns (go: bool, s: TargetState, reply: Reply)
      requires Valid() && Prepares(d0, s0, id) && RestoreReady(s0.records, s0.records[id].request)
      requires AsAsked(s0.records[id])
      modifies this
      ensures Valid() && old(hist) <= hist
      ensures link == old(link) && past.overwritten == old(past).overwritten && Later(old(past), past)
      ensures Begun(d0, disk, id)
      ensures go ==> up && Prepares(d0, s, id)
      ensures go ==> CandidateNamed(s.records[id])
      ensures go ==> RightCandidate(s.records[id].candidate, s0.records, s0.records[id].request)
      ensures !go && up ==> Answered(reply, Failed) || Answered(reply, RecoveryRequired)
      ensures !go ==> if up then reply.Answer? && !reply.replayed else reply == Lost
      ensures !go && Answered(reply, Failed) ==> EndedUnswitched(disk, id, reply)
      ensures up ==> old(up)
      ensures Grew(old(trouble), trouble)
      ensures Excused(old(trouble), trouble, reply, 2)
      ensures Stamped(reply, {PrepareFailed}, now)
      ensures trouble == old(trouble) ==> blocked == old(blocked) && go
    {
      hide SoundState, SoundPairs, Saveable, Run, Continues, Begun;
      var req := s0.records[id].request;
      reply := Lost;
      if req.restoreOf.Some? {
        go, s := PrepareRestore(s0, id, req.restoreOf.value, d0);
      } else {
        go, s := PrepareFetched(s0, id, d0);
      }
      if !go {
        reply := FailUnswitched(s, id, PrepareFailed, now, d0);
      }
    }

    // The phase is recorded and the candidate's files are checked.
    method CheckCandidate(s0: TargetState, id: ReleaseId, ghost d0: Origin) returns (ok: bool, s: TargetState)
      requires Valid() && Prepares(d0, s0, id) && s0.records[id].candidate.Some?
      modifies this`disk, this`up, this`past, this`hist, this`trouble
      ensures Valid() && Prepares(d0, s, id) && old(hist) <= hist && s == InPhase(s0, id, Phase.VerifyCandidate)
      ensures past.overwritten == old(past).overwritten && Later(old(past), past)
      ensures ok ==> up && past.log == old(past).log + [Checked(s.records[id].candidate, true)]
      ensures up ==> old(up)
      ensures ok <==> trouble == old(trouble)
      ensures !ok ==> trouble == AfterSave(old(trouble), false) || trouble == After(old(trouble), false)
    {
      hide SoundState, SoundPairs, Saveable, Run, Continues, Begun;
      ok, s := PreparingStep(s0, id, Phase.VerifyCandidate, d0);
      if ok {
        ok := CheckInstalled(s.records[id].candidate, s);
      }
    }

    method VerifyCandidate(s0: TargetState, id: ReleaseId, now: Time, ghost d0: Origin)
      returns (go: bool, s: TargetState, reply: Reply)
      requires Valid() && Prepares(d0, s0, id) && s0.records[id].candidate.Some?
      modifies this
      ensures Valid() && old(hist) <= hist
      ensures link == old(link) && past.overwritten == old(past).overwritten && Later(old(past), past)
      ensures Begun(d0, disk, id)
      ensures go ==> up && Prepares(d0, s, id) && s == InPhase(s0, id, Phase.VerifyCandidate)
      ensures go ==> past.log == old(past).log + [Checked(s.records[id].candidate, true)]
      ensures !go && up ==> Answered(reply, Failed) || Answered(reply, RecoveryRequired)
      ensures !go ==> if up then reply.Answer? && !reply.replayed else reply == Lost
      ensures !go && Answered(reply, Failed) ==> EndedUnswitched(disk, id, reply)
      ensures up ==> old(up)
      ensures Grew(old(trouble), trouble)
      ensures Excused(old(trouble), trouble, reply, 2)
      ensures Stamped(reply, {CandidateInvalid, PrepareCancelled}, now)
      ensures trouble == old(trouble) ==> blocked == old(blocked) && go
    {
      hide SoundState, SoundPairs, Saveable, Run, Continues, Begun, EndedUnswitched;
      reply := Lost;
      go, s := CheckCandidate(s0, id, d0);
      if !go {
        reply := FailUnswitched(s, id, CandidateInvalid, now, d0);
        return;
      }
      go := Environment();  // the request's deadline
      if !go {
        reply := FailUnswitched(s, id, PrepareCancelled, now, d0);
      }
    }

    // A candidate that has been made and verified.
    method PrepareCandidate(s0: TargetState, id: ReleaseId, now: Time, ghost d0: Origin)
      returns (go: bool, s: TargetState, reply: Reply)
      requires Valid() && Prepares(d0, s0, id) && RestoreReady(s0.records, s0.records[id].request)
      requires AsAsked(s0.records[id])
      modifies this
      ensures Valid() && old(hist) <= hist
      ensures link == old(link) && past.overwritten == old(past).overwritten && Later(old(past), past)
      ensures Begun(d0, disk, id)
      ensures go ==> up && Prepares(d0, s, id) && CandidateNamed(s.records[id])
      ensures go ==> RightCandidate(s.records[id].candidate, s0.records, s0.records[id].request)
      ensures !go && up ==> Answered(reply, Failed) || Answered(reply, RecoveryRequired)
      ensures !go ==> if up then reply.Answer? && !reply.replayed else reply == Lost
      ensures !go && Answered(reply, Failed) ==> EndedUnswitched(disk, id, reply)
      ensures up ==> old(up)
      ensures Grew(old(trouble), trouble)
      ensures Excused(old(trouble), trouble, reply, 2)
      ensures Stamped(reply, {PrepareFailed, CandidateInvalid, PrepareCancelled}, now)
      ensures trouble == old(trouble) ==> blocked == old(blocked) && go
    {
      hide SoundState, SoundPairs, Saveable, Run, Continues, Begun, EndedUnswitched, Valid, Holds;
      go, s, reply := MakeCandidate(s0, id, now, d0);
      if go {
        go, s, reply := VerifyCandidate(s, id, now, d0);
      }
    }

    /* ---------- The switch and what follows it ---------- */

    // The release is past its intent, on top of d0, and so is what is on disk.
    ghost predicate Switches(d0: Origin, s: TargetState, id: ReleaseId)
      reads this
    {
      && HoldsSwitched(s, id) && s.records[id].result.status == Running && s.revision == d0.state.revision
      && OnTop(d0, s, id) && OnTop(d0, disk, id) && SameRelease(disk.records[id], s.records[id])
      && s.revision < |past.pairs|
    }

    // What every end of a switched release leaves behind. `agreed` says that the link was
    // on the current version of d0 when the release began.
    ghost predicate Safe(d0: Origin, id: ReleaseId, agreed: bool)
      reads this
    {
      FrozenBut(d0, disk, id) && (agreed ==> AllOrNothing(d0.state, disk, link, id))
    }

    method RecordIntent(s0: TargetState, id: ReleaseId, ghost d0: Origin, ghost agreed: bool)
      returns (go: bool, s: TargetState, reply: Reply)
      requires Valid() && Prepares(d0, s0, id) && CandidateNamed(s0.records[id])
      requires agreed ==> link == LinkOf(d0.state.current)
      modifies this
      ensures Valid() && old(hist) <= hist
      ensures link == old(link) && past.log == old(past).log
      ensures past.overwritten == old(past).overwritten && Later(old(past), past)
      ensures Safe(d0, id, agreed)
      ensures go ==> up && Switches(d0, s, id) && s == WithIntent(s0, id) && disk == s
      ensures !go && up ==> Answered(reply, RecoveryRequired)
      ensures !go ==> if up then reply.Answer? && !reply.replayed else reply == Lost
      ensures up ==> old(up)
      ensures Grew(old(trouble), trouble)
      ensures Excused(old(trouble), trouble, reply, 2)
      ensures trouble == old(trouble) ==> blocked == old(blocked) && go
    {
      hide SoundState, SoundPairs, Saveable, Run, Continues, OnTop, AllOrNothing, FrozenBut, TookOver;
      reply := Lost;
      LiveWorld();
      IntentOnTop(s0, id, d0);
      BegunFacts(d0, disk, id);
      OnTopFacts(d0, WithIntent(s0, id), id);
      OnTopUncertain(d0, WithIntent(s0, id), id, StatePersistFailed);
      OnTopFacts(d0, UncertainState(WithIntent(s0, id), id, StatePersistFailed), id);
      RevisionDrawn(s0, past);
      s := s0;
      var rec := s.records[id];
      rec := rec.(intent := true, result := rec.result.(phase := SwitchIntent));
      s := s.(records := s.records[id := rec]);
      assert s == WithIntent(s0, id);
      if agreed {
        OnTopInDoubt(d0, s, link, id);
        OnTopUncertain(d0, s, id, StatePersistFailed);
        OnTopInDoubt(d0, UncertainState(s, id, StatePersistFailed), link, id);
        BegunAllOrNothing(d0, disk, link, id);
      }
      go := Save(s);
      if !go {
        reply := Uncertain(s, id, StatePersistFailed);
      }
    }

    lemma IntentOnTop(s: TargetState, id: ReleaseId, d0: Origin)
      requires Valid() && Prepares(d0, s, id) && CandidateNamed(s.records[id])
      ensures Holds(WithIntent(s, id)) && OnTop(d0, WithIntent(s, id), id)
      ensures AtEitherEnd(s, WithIntent(s, id).records[id])
    {
      hide SoundState, SoundPairs, Saveable, Continues, OnTop, Begun;
      BegunOnTop(d0, s, id);
      WithIntentKeeps(s, id, past);
      SaveableThenContinues(disk, s, WithIntent(s, id), past);
    }

    // Restore for a release that has not ended.
    method RestoreSwitched(s0: TargetState, id: ReleaseId, code: ErrorCode, now: Time,
                           ghost d0: Origin, ghost agreed: bool)
      returns (reply: Reply)
      requires Valid() && Switches(d0, s0, id)
      requires agreed ==> OneOfItsLinks(link, s0.records[id])
      modifies this
      ensures Valid() && old(hist) <= hist
      ensures past.overwritten == old(past).overwritten && Later(old(past), past)
      ensures Safe(d0, id, agreed)
      ensures up ==> Answered(reply, Failed) || Answered(reply, RecoveryRequired)
      ensures if up then reply.Answer? && !reply.replayed else reply == Lost
      ensures Answered(reply, Failed) ==>
        WentBack(d0.state, disk, link, id) && reply == Answer(disk.records[id], 500, false)
      ensures up ==> old(up)
      ensures Grew(old(trouble), trouble)
      ensures Excused(old(trouble), trouble, reply, 1)
      ensures Stamped(reply, {code}, now)
      ensures trouble == old(trouble) ==> blocked == old(blocked) && up && Answered(reply, Failed)
    {
      hide SoundState, SoundPairs, Saveable, Run, Continues, OnTop, AllOrNothing, FrozenBut, Explained, Valid;
      ghost var rev, base := |past.pairs|, LinkOf(s0.records[id].baseline);
      OnTopExplains(d0, disk, id);
      OnTopFacts(d0, s0, id);
      OnTopUncertain(d0, s0, id, RecoveryFailed);
      OnTopFacts(d0, UncertainState(s0, id, RecoveryFailed), id);
      OnTopFacts(d0, disk, id);
      RolledBackEnd(d0, s0, id, rev, code, now);
      OnTopInDoubt(d0, disk, base, id);
      OnTopInDoubt(d0, UncertainState(s0, id, RecoveryFailed), base, id);
      if agreed {
        OnTopInDoubt(d0, disk, link, id);
        OnTopInDoubt(d0, UncertainState(s0, id, RecoveryFailed), link, id);
      }
      reply := Restore(s0, id, code, now);
    }

    // A step of a switched release.
    method SwitchingStep(s0: TargetState, id: ReleaseId, ph: Phase, ghost d0: Origin)
      returns (ok: bool, s: TargetState)
      requires Valid() && Switches(d0, s0, id) && IsStep(ph)
      modifies this`disk, this`up, this`past, this`hist, this`trouble
      ensures Valid() && Switches(d0, s, id) && old(hist) <= hist
      ensures s == InPhase(s0, id, ph)
      ensures past == old(past).(served := past.served, clean := past.clean) && Later(old(past), past)
      ensures ok ==> up && disk == s
      ensures up ==> old(up)
      ensures trouble == AfterSave(old(trouble), ok)
    {
      hide SoundState, SoundPairs, Saveable, Run, Continues, OnTop;
      OnTopFacts(d0, s0, id);
      OnTopInPhase(d0, s0, id, ph);
      ok, s := BeginStep(s0, id, ph);
    }

    // The switch step; from here on a disconnected client cannot interrupt.
    method SwitchLink(s0: TargetState, id: ReleaseId, now: Time, ghost d0: Origin, ghost agreed: bool)
      returns (go: bool, s: TargetState, reply: Reply)
      requires Valid() && Switches(d0, s0, id)
      requires agreed ==> link == LinkOf(d0.state.current)
      modifies this
      ensures Valid() && old(hist) <= hist
      ensures past.overwritten == old(past).overwritten && Later(old(past), past)
      ensures go ==> up && Switches(d0, s, id) && s == InPhase(s0, id, Phase.Switch)
      ensures go ==> link == LinkOf(s.records[id].candidate) && past.log == old(past).log + [Switched(link)]
      ensures !go ==> Safe(d0, id, agreed)
      ensures !go && up ==> Answered(reply, Failed) || Answered(reply, RecoveryRequired)
      ensures !go ==> if up then reply.Answer? && !reply.replayed else reply == Lost
      ensures !go && Answered(reply, Failed) ==>
        WentBack(d0.state, disk, link, id) && reply == Answer(disk.records[id], 500, false)
      ensures up ==> old(up)
      ensures Grew(old(trouble), trouble)
      ensures Excused(old(trouble), trouble, reply, 2)
      ensures Stamped(reply, {ActivationFailed}, now)
      ensures trouble == old(trouble) ==> blocked == old(blocked) && go
    {
      hide SoundState, SoundPairs, Saveable, Run, Continues, OnTop, AllOrNothing, Settled, Valid, FrozenBut;
      reply := Lost;
      OnTopFacts(d0, s0, id);
      go, s := SwitchingStep(s0, id, Phase.Switch, d0);
      if go {
        OnTopExplains(d0, disk, id);
        go := Switch(At(s.records[id].candidate.value.commit), s);
      }
      if !go {
        reply := RestoreSwitched(s, id, ActivationFailed, now, d0, agreed);
      }
    }

    // commitGitStage as the end of a staged release.
    method EndStage(s0: TargetState, id: ReleaseId, now: Time, ghost d0: Origin, ghost agreed: bool)
      returns (reply: Reply)
      requires Valid() && Switches(d0, s0, id) && link == LinkOf(s0.records[id].candidate)
      modifies this
      ensures Valid() && old(hist) <= hist
      ensures link == old(link) && past.log == old(past).log
      ensures past.overwritten == old(past).overwritten && Later(old(past), past)
      ensures Safe(d0, id, agreed)
      ensures up ==> Answered(reply, Succeeded) || Answered(reply, RecoveryRequired)
      ensures if up then reply.Answer? && !reply.replayed else reply == Lost
      ensures Answered(reply, Succeeded) ==>
        && WentForward(d0.state, disk, link, id) && reply == Answer(disk.records[id], 200, false)
        && SameRelease(disk.records[id], s0.records[id])
        && disk.records[id].result.phase == LatestSwitched
      ensures up ==> old(up)
      ensures Grew(old(trouble), trouble)
      ensures Excused(old(trouble), trouble, reply, 2)
      ensures Stamped(reply, {}, now)
      ensures trouble == old(trouble) ==> blocked == old(blocked) && up && Answered(reply, Succeeded)
    {
      hide SoundState, SoundPairs, Saveable, Run, Continues, OnTop, AllOrNothing;
      OnTopFacts(d0, s0, id);
      OnTopFacts(d0, disk, id);
      StagedEnd(d0, s0, id, |past.pairs|, now);
      OnTopInDoubt(d0, disk, link, id);
      reply := CommitGitStage(s0, id, now);
    }

    // nginx -t inside one Apply.
    method TestStep(s0: TargetState, id: ReleaseId, now: Time, ghost d0: Origin, ghost agreed: bool)
      returns (go: bool, s: TargetState, reply: Reply)
      requires Valid() && Switches(d0, s0, id) && link == LinkOf(s0.records[id].candidate)
      modifies this
      ensures Valid() && old(hist) <= hist
      ensures past.overwritten == old(past).overwritten && Later(old(past), past)
      ensures go ==> up && Switches(d0, s, id) && SameRelease(s.records[id], s0.records[id])
      ensures go ==> s.records[id].request == s0.records[id].request
      ensures go ==> link == old(link) && past.log == old(past).log + [Tested(link, true)]
      ensures !go ==> Safe(d0, id, agreed)
      ensures !go && up ==> Answered(reply, Failed) || Answered(reply, RecoveryRequired)
      ensures !go ==> if up then reply.Answer? && !reply.replayed else reply == Lost
      ensures !go && Answered(reply, Failed) ==>
        WentBack(d0.state, disk, link, id) && reply == Answer(disk.records[id], 500, false)
      ensures up ==> old(up)
      ensures Grew(old(trouble), trouble)
      ensures Excused(old(trouble), trouble, reply, 2)
      ensures Stamped(reply, {NginxTestFailed}, now)
      ensures trouble == old(trouble) ==> blocked == old(blocked) && go
    {
      hide SoundState, SoundPairs, Saveable, Run, Continues, OnTop, AllOrNothing, WentBack;
      reply := Lost;
      go, s := SwitchingStep(s0, id, Phase.NginxTest, d0);
      if go {
        go := Test(s);
      }
      if !go {
        reply := RestoreSwitched(s, id, NginxTestFailed, now, d0, agreed);
      }
    }

    // nginx -s reload inside one Apply.
    method ReloadStep(s0: TargetState, id: ReleaseId, now: Time, ghost d0: Origin, ghost agreed: bool)
      returns (go: bool, s: TargetState, reply: Reply)
      requires Valid() && Switches(d0, s0, id) && link == LinkOf(s0.records[id].candidate)
      requires Tested(link, true) in past.log
      modifies this
      ensures Valid() && old(hist) <= hist
      ensures past.overwritten == old(past).overwritten && Later(old(past), past)
      ensures go ==> up && Switches(d0, s, id) && SameRelease(s.records[id], s0.records[id])
      ensures go ==> s.records[id].request == s0.records[id].request
      ensures go ==> link == old(link) && past.log == old(past).log + [Reloaded(link, true)]
      ensures !go ==> Safe(d0, id, agreed)
      ensures !go && up ==> Answered(reply, Failed) || Answered(reply, RecoveryRequired)
      ensures !go ==> if up then reply.Answer? && !reply.replayed else reply == Lost
      ensures !go && Answered(reply, Failed) ==>
        WentBack(d0.state, disk, link, id) && reply == Answer(disk.records[id], 500, false)
      ensures up ==> old(up)
      ensures Grew(old(trouble), trouble)
      ensures Excused(old(trouble), trouble, reply, 2)
      ensures Stamped(reply, {NginxReloadFailed}, now)
      ensures trouble == old(trouble) ==> blocked == old(blocked) && go
    {
      hide SoundState, SoundPairs, Saveable, Run, Continues, OnTop, AllOrNothing, WentBack, Valid, Safe;
      reply := Lost;
      go, s := SwitchingStep(s0, id, Phase.Reload, d0);
      if go {
        go := ReloadNginx(s);
      }
      if !go {
        reply := RestoreSwitched(s, id, NginxReloadFailed, now, d0, agreed);
      }
    }

    // The activated files, the running server and the assets that old pages still load.
    method VerifyStep(s0: TargetState, id: ReleaseId, now: Time, ghost d0: Origin, ghost agreed: bool)
      returns (go: bool, s: TargetState, reply: Reply)
      requires Valid() && Switches(d0, s0, id) && link == LinkOf(s0.records[id].candidate)
      modifies this
      ensures Valid() && old(hist) <= hist
      ensures past.overwritten == old(past).overwritten && Later(old(past), past)
      ensures go ==> up && Switches(d0, s, id) && SameRelease(s.records[id], s0.records[id])
      ensures go ==> s.records[id].request == s0.records[id].request
      ensures go ==> link == old(link) && past.log == old(past).log + VerifyEvents(s0.records[id].candidate)
      ensures !go ==> Safe(d0, id, agreed)
      ensures !go && up ==> Answered(reply, Failed) || Answered(reply, RecoveryRequired)
      ensures !go ==> if up then reply.Answer? && !reply.replayed else reply == Lost
      ensures !go && Answered(reply, Failed) ==>
        WentBack(d0.state, disk, link, id) && reply == Answer(disk.records[id], 500, false)
      ensures up ==> old(up)
      ensures Grew(old(trouble), trouble)
      ensures Excused(old(trouble), trouble, reply, 2)
      ensures Stamped(reply, {ActivationFailed}, now)
      ensures trouble == old(trouble) ==> blocked == old(blocked) && go
    {
      hide SoundState, SoundPairs, Saveable, Run, Continues, OnTop, AllOrNothing, WentBack;
      reply := Lost;
      go, s := SwitchingStep(s0, id, Phase.VerifyActivation, d0);
      if go {
        go := VerifyActivated(s.records[id].candidate, s);
      }
      if !go {
        reply := RestoreSwitched(s, id, ActivationFailed, now, d0, agreed);
      }
    }

    method EndCommit(s0: TargetState, id: ReleaseId, now: Time, ghost d0: Origin, ghost agreed: bool)
      returns (reply: Reply)
      requires Valid() && Switches(d0, s0, id) && link == LinkOf(s0.records[id].candidate)
      requires ReloadedSince(past.log, link)
      modifies this
      ensures Valid() && old(hist) <= hist
      ensures link == old(link) && past.log == old(past).log
      ensures past.overwritten == old(past).overwritten && Later(old(past), past)
      ensures Safe(d0, id, agreed)
      ensures up ==> Answered(reply, Succeeded) || Answered(reply, RecoveryRequired)
      ensures if up then reply.Answer? && !reply.replayed else reply == Lost
      ensures Answered(reply, Succeeded) ==>
        && WentForward(d0.state, disk, link, id) && reply == Answer(disk.records[id], 200, false)
        && SameRelease(disk.records[id], s0.records[id]) && CompleteRecord(disk.records[id])
      ensures up ==> old(up)
      ensures Grew(old(trouble), trouble)
      ensures Excused(old(trouble), trouble, reply, 2)
      ensures Stamped(reply, {}, now)
      ensures trouble == old(trouble) ==> blocked == old(blocked) && up && Answered(reply, Succeeded)
    {
      hide SoundState, SoundPairs, Saveable, Run, Continues, OnTop, AllOrNothing;
      OnTopFacts(d0, s0, id);
      OnTopFacts(d0, disk, id);
      CommittedEnd(d0, s0, id, |past.pairs|, now);
      OnTopInDoubt(d0, disk, link, id);
      reply := Commit(s0, id, now);
    }

    /* ---------- Apply and Stage ---------- */

    // A release that turned out to be current, or is still waiting for nginx commands.
    ghost predicate FoundCurrent(d: TargetState, req: Request, reply: Reply)
      reads this
    {
      && reply.Answer? && d.current.Some? && d.current.value.commit == req.commit
      && (reply.replayed ==>
            && reply.http == 200 && reply.record.request.id in d.records && reply.record.request.id != req.id
            && reply.record == d.records[reply.record.request.id]
            && Pending(reply.record, d.current.value) && reply.record.result.status == Succeeded
            && reply.record.result.phase !in {Complete, RolledBack}
            && req.id in disk.records && disk.records[req.id].result.status == Running)
      && (!reply.replayed ==>
            && Answered(reply, Skipped) && reply.http == 200 && link == At(req.commit) && PairOf(disk) == PairOf(d)
            && req.id in disk.records && reply.record == disk.records[req.id]
            && disk.revision == d.revision && EndsWith(past.log, [Checked(d.current, true)])
            && (past.clean ==> disk.revision in past.activated && Reloaded(link, true) in past.log))
    }

    // Up to the noted baseline.
    method Begin(req: Request, fingerprint: Request, now: Time)
      returns (go: bool, s: TargetState, reply: Reply)
      requires Valid()
      requires Enrollable(disk, req, fingerprint)
      modifies this
      ensures Valid() && old(hist) <= hist
      ensures link == old(link) && past.log == old(past).log && Later(old(past), past)
      ensures past.overwritten == AcceptedPast(old(past), old(disk), req.id).overwritten
      ensures past.clean ==> AcceptedPast(old(past), old(disk), req.id).clean
      ensures Begun(Origin(old(disk), fingerprint), disk, req.id)
      ensures go ==> up && Prepares(Origin(old(disk), fingerprint), s, req.id)
      ensures go ==> req.id in s.records && s.records[req.id].request == req && s.current == old(disk).current
      ensures go ==> s.records[req.id].result.digest == req.digest
      ensures go ==> OthersKept(old(disk), s, req.id)
      ensures go ==> req.id in disk.records && disk.records[req.id].result.status == Running
      ensures !go && up ==> Answered(reply, Failed) || Answered(reply, RecoveryRequired)
      ensures !go ==> if up then reply.Answer? && !reply.replayed else reply == Lost
      ensures !go && Answered(reply, Failed) ==> EndedUnswitched(disk, req.id, reply)
      ensures up ==> old(up)
      ensures Grew(old(trouble), trouble)
      ensures Excused(old(trouble), trouble, reply, 2)
      ensures Stamped(reply, {TargetUnavailable, BaselineCheckCancelled}, now)
      ensures trouble == old(trouble) ==> blocked == old(blocked) && go
    {
      hide SoundState, SoundPairs, Saveable, Run, Continues, Begun, AcceptedState, AcceptedPast,
           Valid, Holds, Preparing;
      ghost var d0 := Origin(disk, fingerprint);
      AcceptedShape(disk, req, fingerprint, now);
      go, s, reply := Enroll(req, fingerprint, now);
      if go {
        go, s, reply := VerifyBaseline(s, req.id, now, d0);
      }
    }

    // What TrySkip found in the working copy was in the stored state.
    lemma SkipFound(d: TargetState, s: TargetState, req: Request, now: Time, reply: Reply, log: seq<Event>)
      requires PairOf(s) == PairOf(d) && s.revision == d.revision && OthersKept(d, s, req.id) && req.id in s.records
      requires reply.Answer? && s.current.Some? && s.current.value.commit == req.commit
      requires reply.replayed ==>
        && reply.http == 200 && reply.record.request.id in s.records && reply.record.request.id != req.id
        && reply.record == s.records[reply.record.request.id] && Pending(reply.record, s.current.value)
        && req.id in disk.records && disk.records[req.id].result.status == Running
      requires !reply.replayed ==>
        && disk == SkippedState(s, req.id, now) && reply == Answer(disk.records[req.id], 200, false)
        && link == LinkOf(s.current) && past.log == log + [Checked(s.current, true)]
        && (past.clean ==> disk.revision in past.activated && Reloaded(link, true) in past.log)
      ensures FoundCurrent(d, req, reply) && (reply.replayed ==> Answered(reply, Succeeded))
    {
    }

    // Up to a verified candidate, unless the release is current already.
    method PrepareRelease(req: Request, fingerprint: Request, now: Time)
      returns (go: bool, s: TargetState, reply: Reply)
      requires Valid()
      requires Enrollable(disk, req, fingerprint)
      requires req.restoreOf.Some? ==> RestoreAllowed(disk, req.restoreOf.value, req.commit)
      requires RestoreReady(disk.records, req) && (req.digest.Some? ==> frontend)
      modifies this
      ensures Valid() && old(hist) <= hist
      ensures link == old(link) && Later(old(past), past)
      ensures past.overwritten == AcceptedPast(old(past), old(disk), req.id).overwritten
      ensures past.clean ==> AcceptedPast(old(past), old(disk), req.id).clean
      ensures Begun(Origin(old(disk), fingerprint), disk, req.id)
      ensures go ==> up && Prepares(Origin(old(disk), fingerprint), s, req.id) && CandidateNamed(s.records[req.id])
      ensures go ==> RightCandidate(s.records[req.id].candidate, old(disk).records, req)
      ensures !go && up ==>
        FoundCurrent(old(disk), req, reply) || Answered(reply, Failed) || Answered(reply, RecoveryRequired)
      ensures !go ==> if up then reply.Answer? else reply == Lost
      ensures !go && Answered(reply, Skipped) && !reply.replayed ==>
        reply.record.result.digest == req.digest && past.log == old(past).log + [Checked(old(disk).current, true)]
      ensures !go && Answered(reply, Failed) ==> EndedUnswitched(disk, req.id, reply)
      ensures !go && (Answered(reply, Failed) || Answered(reply, RecoveryRequired)) ==> !reply.replayed
      ensures up ==> old(up)
      ensures Grew(old(trouble), trouble)
      ensures Excused(old(trouble), trouble, reply, 2)
      ensures Stamped(reply, UnswitchedCodes(), now)
      ensures trouble == old(trouble) ==> blocked == old(blocked)
      ensures trouble == old(trouble) ==>
        if IsCurrently(old(disk), old(link), req.commit, SourceOf(fingerprint.digest)) then
          !go && reply.Answer? && (reply.replayed || Answered(reply, Skipped))
        else go
    {
      hide SoundState, SoundPairs, Saveable, Run, Continues, Begun, AcceptedPast, NewRecord, Holds, Preparing,
           FoundCurrent, Pending, EndsWith, EndedUnswitched;
      ghost var d0 := Origin(disk, fingerprint);
      go, s, reply := Begin(req, fingerprint, now);
      if !go {
        return;
      }
      var done;
      done, reply := TrySkip(s, req.id, SourceOf(fingerprint.digest), now, d0);
      if done {
        go := false;
        if reply.Answer? && (reply.replayed || Answered(reply, Skipped)) {
          SkipFound(d0.state, s, req, now, reply, old(past).log);
        }
        return;
      }
      go, s, reply := PrepareCandidate(s, req.id, now, d0);
    }

    // nginx -t and nginx -s reload inside one Apply.
    method TestAndReload(s0: TargetState, id: ReleaseId, now: Time, ghost d0: Origin, ghost agreed: bool)
      returns (go: bool, s: TargetState, reply: Reply)
      requires Valid() && Switches(d0, s0, id) && link == LinkOf(s0.records[id].candidate)
      modifies this
      ensures Valid() && old(hist) <= hist
      ensures past.overwritten == old(past).overwritten && Later(old(past), past)
      ensures go ==> up && Switches(d0, s, id) && SameRelease(s.records[id], s0.records[id])
      ensures go ==> link == old(link) && past.log == old(past).log + ActivateEvents(link)
      ensures !go ==> Safe(d0, id, agreed)
      ensures !go && up ==> Answered(reply, Failed) || Answered(reply, RecoveryRequired)
      ensures !go ==> if up then reply.Answer? && !reply.replayed else reply == Lost
      ensures !go && Answered(reply, Failed) ==>
        WentBack(d0.state, disk, link, id) && reply == Answer(disk.records[id], 500, false)
      ensures up ==> old(up)
      ensures Grew(old(trouble), trouble)
      ensures Excused(old(trouble), trouble, reply, 2)
      ensures Stamped(reply, SwitchedCodes(), now)
      ensures trouble == old(trouble) ==> blocked == old(blocked) && go
    {
      hide SoundState, SoundPairs, Saveable, Run, Continues, OnTop, AllOrNothing, WentBack, Safe, Valid, Switches;
      go, s, reply := TestStep(s0, id, now, d0, agreed);
      if go {
        go, s, reply := ReloadStep(s, id, now, d0, agreed);
      }
    }

    lemma SwitchNamed(s: TargetState, id: ReleaseId, d0: Origin)
      requires Valid() && Switches(d0, s, id)
      ensures id in s.records
    {
    }

    // The rest of an Apply after its switch.
    method Finish(s0: TargetState, id: ReleaseId, now: Time, ghost d0: Origin, ghost agreed: bool)
      returns (reply: Reply)
      requires Valid() && Switches(d0, s0, id) && link == LinkOf(s0.records[id].candidate)
      modifies this
      ensures Valid() && old(hist) <= hist
      ensures past.overwritten == old(past).overwritten && Later(old(past), past)
      ensures Safe(d0, id, agreed)
      ensures if up then reply.Answer? && !reply.replayed else reply == Lost
      ensures up ==> Answered(reply, Succeeded) || Answered(reply, Failed) || Answered(reply, RecoveryRequired)
      ensures Answered(reply, Succeeded) ==>
        && WentForward(d0.state, disk, link, id) && reply == Answer(disk.records[id], 200, false)
        && SameRelease(disk.records[id], s0.records[id]) && CompleteRecord(disk.records[id])
        && link == old(link)
        && past.log == old(past).log + (ActivateEvents(link) + VerifyEvents(s0.records[id].candidate))
      ensures Answered(reply, Failed) ==>
        WentBack(d0.state, disk, link, id) && reply == Answer(disk.records[id], 500, false)
      ensures up ==> old(up)
      ensures Grew(old(trouble), trouble)
      ensures Excused(old(trouble), trouble, reply, 2)
      ensures Stamped(reply, SwitchedCodes(), now)
      ensures trouble == old(trouble) ==> blocked == old(blocked) && up && Answered(reply, Succeeded)
    {
      hide SoundState, SoundPairs, Saveable, Run, Continues, OnTop, AllOrNothing, WentBack, WentForward, Safe, Valid,
           Switches, ReloadedSince;
      SwitchNamed(s0, id, d0);
      ghost var log, candidate := past.log + [Tested(link, true)], s0.records[id].candidate;
      var go, s;
      go, s, reply := TestAndReload(s0, id, now, d0, agreed);
      if !go {
        return;
      }
      go, s, reply := VerifyStep(s, id, now, d0, agreed);
      if !go {
        return;
      }
      assert past.log == log + ([Reloaded(link, true)] + VerifyEvents(candidate));
      ReloadedThenQuiet(log, link, VerifyEvents(candidate));
      reply := EndCommit(s, id, now, d0, agreed);
    }

    // What follows the switch: nothing more for Stage, the nginx commands for Apply.
    function Aftermath(deferred: bool, l: Link, v: Option<Version>): seq<Event> {
      if deferred then [] else ActivateEvents(l) + VerifyEvents(v)
    }

    method Conclude(s0: TargetState, id: ReleaseId, now: Time, deferred: bool,
                    ghost d0: Origin, ghost agreed: bool)
      returns (reply: Reply)
      requires Valid() && Switches(d0, s0, id) && link == LinkOf(s0.records[id].candidate)
      modifies this
      ensures Valid() && old(hist) <= hist
      ensures past.overwritten == old(past).overwritten && Later(old(past), past)
      ensures Safe(d0, id, agreed)
      ensures if up then reply.Answer? && !reply.replayed else reply == Lost
      ensures up ==> Answered(reply, Succeeded) || Answered(reply, Failed) || Answered(reply, RecoveryRequired)
      ensures Answered(reply, Succeeded) ==>
        && WentForward(d0.state, disk, link, id) && reply == Answer(disk.records[id], 200, false)
        && SameRelease(disk.records[id], s0.records[id])
        && disk.records[id].result.phase == (if deferred then LatestSwitched else Complete)
        && link == old(link)
        && past.log == old(past).log + Aftermath(deferred, link, s0.records[id].candidate)
      ensures Answered(reply, Failed) ==>
        WentBack(d0.state, disk, link, id) && reply == Answer(disk.records[id], 500, false)
      ensures up ==> old(up)
      ensures Grew(old(trouble), trouble)
      ensures Excused(old(trouble), trouble, reply, 2)
      ensures Stamped(reply, SwitchedCodes(), now)
      ensures trouble == old(trouble) ==> blocked == old(blocked) && up && Answered(reply, Succeeded)
    {
      hide SoundState, SoundPairs, Saveable, Run, Continues, OnTop, AllOrNothing, WentBack, Safe, Valid, Switches;
      if deferred {
        reply := EndStage(s0, id, now, d0, agreed);
      } else {
        reply := Finish(s0, id, now, d0, agreed);
      }
    }

    // From the intent to the end.
    method Activate(s0: TargetState, id: ReleaseId, now: Time, deferred: bool,
                    ghost d0: Origin, ghost agreed: bool)
      returns (reply: Reply)
      requires Valid() && Prepares(d0, s0, id) && CandidateNamed(s0.records[id])
      requires agreed ==> link == LinkOf(d0.state.current)
      modifies this
      ensures Valid() && old(hist) <= hist
      ensures past.overwritten == old(past).overwritten && Later(old(past), past)
      ensures Safe(d0, id, agreed)
      ensures if up then reply.Answer? && !reply.replayed else reply == Lost
      ensures up ==> Answered(reply, Succeeded) || Answered(reply, Failed) || Answered(reply, RecoveryRequired)
      ensures Answered(reply, Succeeded) ==>
        && WentForward(d0.state, disk, link, id) && reply == Answer(disk.records[id], 200, false)
        && disk.records[id].candidate == s0.records[id].candidate
        && disk.records[id].result.phase == (if deferred then LatestSwitched else Complete)
        && past.log == old(past).log + ([Switched(link)] + Aftermath(deferred, link, disk.records[id].candidate))
      ensures Answered(reply, Failed) ==>
        WentBack(d0.state, disk, link, id) && reply == Answer(disk.records[id], 500, false)
      ensures up ==> old(up)
      ensures Grew(old(trouble), trouble)
      ensures Excused(old(trouble), trouble, reply, 2)
      ensures Stamped(reply, SwitchedCodes(), now)
      ensures trouble == old(trouble) ==> blocked == old(blocked) && up && Answered(reply, Succeeded)
    {
      hide SoundState, SoundPairs, Saveable, Run, Continues, OnTop, AllOrNothing, WentBack, WentForward, Safe, Begun,
           Aftermath, Valid, Switches;
      ghost var log := past.log;
      var go, s;
      go, s, reply := RecordIntent(s0, id, d0, agreed);
      if !go {
        return;
      }
      go, s, reply := SwitchLink(s, id, now, d0, agreed);
      if !go {
        return;
      }
      ghost var tail := Aftermath(deferred, link, s.records[id].candidate);
      reply := Conclude(s, id, now, deferred, d0, agreed);
      assert forall e :: (log + [e]) + tail == log + ([e] + tail);
    }

    // An admitted request names the artifact of the baseline that it restores.
    lemma EffectiveReady(fingerprint: Request)
      requires Valid() && Admissible(disk, fingerprint, frontend)
      ensures var req := Effective(disk, fingerprint, frontend);
        RestoreReady(disk.records, req) && (req.digest.Some? ==> frontend)
    {
      hide Run;
      LiveWorld();
      if fingerprint.restoreOf.Some? {
        BaselinePlain(disk, fingerprint.restoreOf.value, past);
      }
    }

    // An admitted request.
    method Transact(req: Request, fingerprint: Request, now: Time, deferred: bool) returns (reply: Reply)
      requires Valid() && up && Admissible(disk, fingerprint, frontend)
      requires req == Effective(disk, fingerprint, frontend)
      modifies this
      ensures Valid() && old(hist) <= hist && Later(old(past), past)
      ensures past.overwritten ==>
        old(past).overwritten || (req.id in old(disk).records && old(disk).records[req.id].intent)
      ensures if up then reply.Answer? else reply == Lost
      ensures Ended(reply)
      ensures reply.Answer? && reply.replayed ==> FoundCurrent(old(disk), req, reply)
      ensures FrozenBut(Origin(old(disk), fingerprint), disk, req.id)
      ensures old(link) == LinkOf(old(disk).current) ==> AllOrNothing(old(disk), disk, link, req.id)
      ensures reply.Answer? && !reply.replayed && Answered(reply, Succeeded) ==>
        && WentForward(old(disk), disk, link, req.id) && reply == Answer(disk.records[req.id], 200, false)
        && RightCandidate(disk.records[req.id].candidate, old(disk).records, req)
        && CandidateNamed(disk.records[req.id])
        && disk.records[req.id].result.phase == (if deferred then LatestSwitched else Complete)
        && EndsWith(past.log, [Switched(link)] + Aftermath(deferred, link, disk.records[req.id].candidate))
      ensures reply.Answer? && !reply.replayed && Answered(reply, Failed) ==>
        && (|| WentBack(old(disk), disk, link, req.id)
            || (Begun(Origin(old(disk), fingerprint), disk, req.id) && link == old(link)))
        && PairOf(disk) == PairOf(old(disk)) && EndedUnswitched(disk, req.id, reply)
      ensures reply.Answer? && !reply.replayed && Answered(reply, Skipped) ==>
        && FoundCurrent(old(disk), req, reply) && link == old(link) && reply.record.result.digest == req.digest
        && past.log == old(past).log + [Checked(old(disk).current, true)]
      ensures trouble == old(trouble) ==>
        if IsCurrently(old(disk), old(link), req.commit, SourceOf(fingerprint.digest)) then
          reply.Answer? && (reply.replayed || Answered(reply, Skipped))
        else Answered(reply, Succeeded) && !reply.replayed
      ensures Grew(old(trouble), trouble)
      ensures Excused(old(trouble), trouble, reply, 2)
      ensures Stamped(reply, UnswitchedCodes() + SwitchedCodes(), now)
      ensures trouble == old(trouble) ==> blocked == old(blocked)
    {
      hide SoundState, SoundPairs, Saveable, Run, Continues, Begun, OnTop, AllOrNothing, WentForward, RightCandidate,
           Preparing, Settled, FrozenBut;
      ghost var d0, agreed := Origin(disk, fingerprint), link == LinkOf(disk.current);
      var go, s;
      EffectiveReady(fingerprint);
      go, s, reply := PrepareRelease(req, fingerprint, now);
      BegunFacts(d0, disk, req.id);
      if !go {
        if agreed {
          BegunAllOrNothing(d0, disk, link, req.id);
        }
        return;
      }
      reply := Activate(s, req.id, now, deferred, d0, agreed);
      if Answered(reply, Succeeded) {
        ForwardNamed(old(disk), req.id);
      }
    }

    lemma ForwardNamed(d: TargetState, id: ReleaseId)
      requires Valid() && WentForward(d, disk, link, id) && disk.records[id].result.status == Succeeded
      ensures CandidateNamed(disk.records[id])
    {
      LiveWorld();
      RecordNamed(disk, id, past);
    }

    // Apply, and Stage when `deferred`.
    method Apply(req: Request, now: Time, deferred: bool) returns (reply: Reply)
      requires Valid()
      modifies this
      ensures Valid() && old(hist) <= hist && Later(old(past), past)
      ensures past.overwritten ==>
        old(past).overwritten || (req.id in old(disk).records && old(disk).records[req.id].intent)
      ensures if up then reply != Lost else reply == Lost
      ensures Ended(reply)
      ensures up ==> old(up)
      // A request that is not let in leaves no trace.
      ensures !Admissible(old(disk), req, frontend) || reply.Rejected? || !old(up) ==>
        disk == old(disk) && link == old(link) && past == old(past) && hist == old(hist)
      ensures up && !Admissible(old(disk), req, frontend) ==> reply.Rejected? || (reply.Answer? && reply.replayed)
      ensures reply.Rejected? || !Admissible(old(disk), req, frontend) ==> Refusal(old(disk), req, frontend, reply)
      ensures trouble == old(trouble) && old(up) && (old(blocked) || !Admissible(old(disk), req, frontend)) ==>
        Answers(old(disk), req, frontend, old(blocked), reply)
      ensures reply.Answer? && !reply.replayed && req.restoreOf.Some? ==>
        Restorable(old(disk), req.restoreOf.value, req.commit)
      // A replay on behalf of an admitted request speaks of another, switched release.
      ensures reply.Answer? && reply.replayed && Admissible(old(disk), req, frontend) ==>
        reply.record.request.id != req.id && FoundCurrent(old(disk), req, reply)
      // No later operation touches a completed record, wherever this one stops, and the
      // only new record is this request's.
      ensures Frozen(old(disk), disk)
      ensures FrozenBut(Origin(old(disk), req), disk, req.id)
      // Wherever it stops, the release is recoverable, undone or done.
      ensures old(link) == LinkOf(old(disk).current) ==> AllOrNothing(old(disk), disk, link, req.id)
      // What each answer means.
      ensures reply.Answer? && !reply.replayed && Answered(reply, Succeeded) ==>
        && WentForward(old(disk), disk, link, req.id) && reply == Answer(disk.records[req.id], 200, false)
        && RightCandidate(disk.current, old(disk).records, Effective(old(disk), req, frontend))
        && disk.current.Some? && disk.current.value.artifact == disk.records[req.id].result.digest
        && disk.records[req.id].result.phase == (if deferred then LatestSwitched else Complete)
        && EndsWith(past.log, [Switched(link)] + Aftermath(deferred, link, disk.current))
      ensures reply.Answer? && !reply.replayed && Answered(reply, Failed) ==>
        && (|| WentBack(old(disk), disk, link, req.id)
            || (Begun(Origin(old(disk), req), disk, req.id) && link == old(link)))
        && PairOf(disk) == PairOf(old(disk)) && EndedUnswitched(disk, req.id, reply)
      ensures reply.Answer? && !reply.replayed && Answered(reply, Skipped) ==>
        && FoundCurrent(old(disk), req, reply) && link == old(link)
        && reply.record.result.digest == Effective(old(disk), req, frontend).digest
        && past.log == old(past).log + [Checked(old(disk).current, true)]
        && (ReloadRecorded(old(disk)) ==> Reloaded(link, true) in past.log)
      // Which way it goes if the environment refuses nothing.
      ensures trouble == old(trouble) && old(up) && !old(blocked) && Admissible(old(disk), req, frontend) ==>
        if IsCurrently(old(disk), old(link), req.commit, SourceOf(req.digest)) then
          reply.Answer? && (reply.replayed || Answered(reply, Skipped))
        else Answered(reply, Succeeded) && !reply.replayed
      ensures Grew(old(trouble), trouble)
      ensures Excused(old(trouble), trouble, reply, 2)
      ensures Stamped(reply, UnswitchedCodes() + SwitchedCodes(), now)
      ensures trouble == old(trouble) ==> blocked == old(blocked)
    {
      hide SoundState, SoundPairs, Saveable, Run, Continues, Begun, OnTop, AllOrNothing, WentBack, RightCandidate,
           Frozen, FrozenBut, Admissible, Settled, Valid;
      NotBegun(Origin(disk, req), link, req.id);
      var refused, admitted := Admit(req);
      if refused.Some? {
        return refused.value;
      }
      LiveWorld();
      RecordedWasReloaded(disk, past);
      reply := Transact(admitted, req, now, deferred);
      LetInFrozen(Origin(old(disk), req), disk, frontend);
    }

    /* ---------- RollbackCurrent ---------- */

    // The loop over st.Records.
    method FindUndoable(d: TargetState) returns (found: Option<ReleaseId>)
      ensures found.Some? ==> found.value in d.records && Undoable(d.records[found.value], d)
      ensures found.None? ==> !CanRollBack(d)
    {
      var rest := d.records.Keys;
      while rest != {}
        invariant rest <= d.records.Keys
        invariant forall i :: i in d.records && i !in rest ==> !Undoable(d.records[i], d)
        decreases |rest|
      {
        var i :| i in rest;
        if Undoable(d.records[i], d) {
          return Some(i);
        }
        rest := rest - {i};
      }
      return None;
    }

    // What a staged rollback leaves: the pair exchanged, whole versions included.
    ghost predicate Exchanged(d: TargetState, id: ReleaseId)
      reads this
    {
      && PairOf(disk) == Pair(d.previous, d.current)
      && link == LinkOf(d.previous) && disk.revision > d.revision && disk.active == None && !disk.recovery
      && id in disk.records
      && var r := disk.records[id];
         r.result.phase == LatestSwitched && r.intent && NewPair(r) == PairOf(disk)
    }

    // Forward to the retained baseline of the release that made the current version.
    lemma WentToPrevious(d: TargetState, of: ReleaseId, freshId: ReleaseId)
      requires Valid() && of in d.records && Undoable(d.records[of], d)
      requires d.records[of].baseline == d.previous && d.previous.Some?
      requires var req := RollbackRequest(d, of, freshId);
        && RightCandidate(disk.current, d.records, req) && d.previous.value.(version := req.version) == d.previous.value
      requires WentForward(d, disk, link, freshId) && disk.records[freshId].result.phase == LatestSwitched
      requires disk.records[freshId].result.status == Succeeded
      ensures Exchanged(d, freshId)
    {
      LiveWorld();
      RecordNamed(disk, freshId, past);
    }

    // The part of RollbackCurrent that goes through Stage.
    method StageRollback(of: ReleaseId, freshId: ReleaseId, now: Time) returns (reply: Reply)
      requires Valid() && freshId !in disk.records && of in disk.records && Undoable(disk.records[of], disk)
      modifies this
      ensures Valid() && old(hist) <= hist && Later(old(past), past)
      ensures past.overwritten == old(past).overwritten
      ensures if up then reply != Lost else reply == Lost
      ensures up ==> old(up)
      ensures reply.Rejected? ==>
        Unready(reply) && disk == old(disk) && link == old(link) && past == old(past)
      ensures Frozen(old(disk), disk)
      ensures forall i :: i in disk.records && i !in old(disk).records ==> i == freshId
      ensures old(link) == LinkOf(old(disk).current) ==> AllOrNothing(old(disk), disk, link, freshId)
      ensures Answered(reply, Succeeded) && !reply.replayed ==>
        Exchanged(old(disk), freshId) && reply == Answer(disk.records[freshId], 200, false)
      ensures Answered(reply, Failed) && !reply.replayed ==> PairOf(disk) == PairOf(old(disk))
      ensures trouble == old(trouble) && old(up) && !old(blocked)
        && old(disk).current.value.commit != old(disk).previous.value.commit
        ==> Answered(reply, Succeeded) && !reply.replayed
      ensures Grew(old(trouble), trouble)
      ensures Excused(old(trouble), trouble, reply, 2)
      ensures trouble == old(trouble) ==> blocked == old(blocked)
    {
      hide SoundState, SoundPairs, Saveable, Run, Continues, Begun, AllOrNothing, Admissible, WentBack, WentForward,
           RightCandidate, Effective, Frozen, FoundCurrent, EndsWith, Aftermath, Sound, Settled, Exchanged;
      LiveWorld();
      RollbackAdmitted(disk, past, of, freshId);
      var req := RollbackRequest(disk, of, freshId);
      reply := Apply(req, now, true);
      if Answered(reply, Succeeded) && !reply.replayed {
        WentToPrevious(old(disk), of, freshId);
      }
    }

    // A staged release back to the stored previous version. `freshId` is a new UUID.
    method RollbackCurrent(freshId: ReleaseId, now: Time) returns (reply: Reply)
      requires Valid() && freshId !in disk.records
      modifies this
      ensures Valid() && old(hist) <= hist && Later(old(past), past)
      ensures past.overwritten == old(past).overwritten
      ensures if up then reply != Lost else reply == Lost
      ensures up ==> old(up)
      // Its own request is never the reason for a refusal.
      ensures reply.Rejected? ==>
        && (Unready(reply) || reply.reason == RollbackNotAvailable)
        && disk == old(disk) && link == old(link) && past == old(past)
      ensures reply.Rejected? && reply.reason == RollbackNotAvailable ==> !CanRollBack(old(disk))
      ensures reply.Answer? ==> CanRollBack(old(disk))
      ensures Frozen(old(disk), disk)
      ensures forall i :: i in disk.records && i !in old(disk).records ==> i == freshId
      ensures old(link) == LinkOf(old(disk).current) ==> AllOrNothing(old(disk), disk, link, freshId)
      ensures Answered(reply, Succeeded) && !reply.replayed ==>
        Exchanged(old(disk), freshId) && reply == Answer(disk.records[freshId], 200, false)
      ensures Answered(reply, Failed) && !reply.replayed ==> PairOf(disk) == PairOf(old(disk))
      ensures trouble == old(trouble) && old(up) && !old(blocked) && CanRollBack(old(disk))
        && old(disk).current.value.commit != old(disk).previous.value.commit
        ==> Answered(reply, Succeeded) && !reply.replayed
      ensures Grew(old(trouble), trouble)
      ensures Excused(old(trouble), trouble, reply, 2)
      ensures trouble == old(trouble) ==> blocked == old(blocked)
    {
      hide SoundState, SoundPairs, Saveable, Run, Continues, Begun, AllOrNothing, Frozen, Exchanged;
      FrozenReflexive(disk);
      BegunReflexive(Origin(disk, NoRequest(freshId)), freshId);
      if link == LinkOf(disk.current) {
        BegunAllOrNothing(Origin(disk, NoRequest(freshId)), disk, link, freshId);
      }
      if !up {
        trouble := After(trouble, false);
        return Lost;
      }
      var loaded := Environment();
      if !loaded {
        return if up then Rejected(503, StateUnavailable) else Lost;
      }
      var of := FindUndoable(disk);
      if of.None? {
        return Rejected(409, RollbackNotAvailable);
      }
      reply := StageRollback(of.value, freshId, now);
    }

    static function NoRequest(id: ReleaseId): Request {
      Request(id, None, None, 0, 0, None)
    }

    /* ---------- The nginx commands of a staged release ---------- */

    // Whether `id` is the release that is switched to now. It goes by commit and source.
    predicate IsCurrent(d: TargetState, l: Link, id: ReleaseId) {
      && id in d.records && d.records[id].intent && d.records[id].candidate.Some?
      && d.current.Some?
      && d.current.value.commit == d.records[id].candidate.value.commit
      && d.current.value.source == d.records[id].candidate.value.source
      && l == At(d.records[id].candidate.value.commit)
    }

    // Why a command on a release that is not current is turned away.
    function NotCurrent(d: TargetState, id: ReleaseId): Reply {
      if id !in d.records then Rejected(404, ReleaseNotFound)
      else if !d.records[id].intent || d.records[id].candidate.None? then Rejected(409, ReleaseNotFound)
      else Rejected(409, ReleaseNotCurrent)
    }

    // The common part of runNginxCommand.
    method OpenCommand(id: ReleaseId) returns (refused: Option<Reply>)
      modifies this`up, this`blocked, this`trouble
      ensures refused.None? ==> up && !old(blocked) && IsCurrent(disk, link, id)
      ensures refused.Some? ==> refused.value.Rejected? || refused.value == Lost
      ensures refused.Some? ==> (refused.value == Lost <==> !up)
      ensures up ==> old(up)
      ensures Grew(old(trouble), trouble)
      ensures trouble == old(trouble) ==> blocked == old(blocked)
      ensures trouble == old(trouble) && !blocked && IsCurrent(disk, link, id) ==> refused.None?
      ensures trouble == old(trouble) && !blocked && !IsCurrent(disk, link, id) ==>
        refused == Some(NotCurrent(disk, id))
    {
      if !up {
        trouble := After(trouble, false);
        return Some(Lost);
      }
      refused := TakeLocks();
      if refused.Some? {
        return;
      }
      var loaded := Environment();
      if !loaded {
        blocked := true;
        return Some(if up then Rejected(503, StateUnavailable) else Lost);
      }
      if blocked {
        return Some(Rejected(503, PublicationBlocked));
      }
      if id !in disk.records {
        return Some(Rejected(404, ReleaseNotFound));
      }
      var rec := disk.records[id];
      if !rec.intent || rec.candidate.None? {
        return Some(Rejected(409, ReleaseNotFound));
      }
      var candidate := rec.candidate.value;
      if disk.current.None? || disk.current.value.commit != candidate.commit
         || disk.current.value.source != candidate.source {
        return Some(Rejected(409, ReleaseNotCurrent));
      }
      var readable, live := LiveCommit();
      if !readable || live != Some(candidate.commit) {
        return Some(if up then Rejected(409, ReleaseNotCurrent) else Lost);
      }
      return None;
    }

    // The working copy of a command on `id`, which was loaded from d0.
    ghost predicate Commands(d0: TargetState, s: TargetState, id: ReleaseId)
      reads this
    {
      && HoldsSwitched(s, id) && IsCurrent(s, link, id) && !CompleteRecord(s.records[id]) && !Settled(s.records[id])
      && s.records[id].result.phase != RolledBack
      && id in d0.records && id in disk.records && !Settled(d0.records[id])
      && OnlyAt(d0, s, id) && OnlyAt(d0, disk, id)
      && PairOf(s) == PairOf(d0) && s.revision == d0.revision && PairOf(disk) == PairOf(d0)
      && SameRelease(s.records[id], d0.records[id]) && s.records[id].tested == d0.records[id].tested
      && disk.records[id].intent && disk.records[id].baseline == s.records[id].baseline
    }

    lemma CommandLoaded(id: ReleaseId)
      requires Valid() && IsCurrent(disk, link, id) && !Settled(disk.records[id])
      requires disk.records[id].result.phase != RolledBack
      ensures Commands(disk, disk, id)
      ensures disk.records[id].tested ==> Tested(link, true) in past.log
    {
    }

    method CommandStep(s0: TargetState, id: ReleaseId, ph: Phase, ghost d0: TargetState)
      returns (ok: bool, s: TargetState)
      requires Valid() && Commands(d0, s0, id) && Resumable(ph) && IsStep(ph)
      modifies this`disk, this`up, this`past, this`hist, this`trouble
      ensures Valid() && Commands(d0, s, id) && old(hist) <= hist
      ensures s == InPhase(s0, id, ph)
      ensures past == old(past).(served := past.served, clean := past.clean) && Later(old(past), past)
      ensures ok ==> up && disk == s
      ensures up ==> old(up)
      ensures trouble == AfterSave(old(trouble), ok)
    {
      hide SoundState, SoundPairs, Saveable, Run, Continues;
      ok, s := BeginStep(s0, id, ph);
    }

    // What a command that had to undo its release leaves behind.
    predicate CommandUndone(d: TargetState, e: TargetState, l: Link, id: ReleaseId, reply: Reply) {
      && id in d.records && id in e.records
      && PairOf(e) == OldPair(d.records[id]) && l == LinkOf(d.records[id].baseline)
      && e.revision > d.revision && e.active == None && !e.recovery
      && reply == Answer(e.records[id], 500, false) && e.records[id].result.rollback == RollbackSucceeded
      && e.records[id].result.phase == RolledBack && e.records[id].result.after == e.revision
    }

    method RestoreCommand(s0: TargetState, id: ReleaseId, code: ErrorCode, now: Time, ghost d0: TargetState)
      returns (reply: Reply)
      requires Valid() && Commands(d0, s0, id)
      modifies this
      ensures Valid() && old(hist) <= hist && Later(old(past), past)
      ensures past.overwritten == old(past).overwritten
      ensures OnlyAt(d0, disk, id) && Frozen(d0, disk) && InHand(d0, disk, link, id)
      ensures up ==> Answered(reply, Failed) || Answered(reply, RecoveryRequired)
      ensures if up then reply.Answer? && !reply.replayed else reply == Lost
      ensures Answered(reply, Failed) ==> CommandUndone(d0, disk, link, id, reply)
      ensures up ==> old(up)
      ensures Grew(old(trouble), trouble)
      ensures Excused(old(trouble), trouble, reply, 1)
      ensures Stamped(reply, {code}, now)
      ensures trouble == old(trouble) ==> blocked == old(blocked) && up && Answered(reply, Failed)
    {
      hide SoundState, SoundPairs, Saveable, Run, Continues, Explained, Frozen, OnlyAt;
      IntentExplains(disk, id);
      RevisionDrawn(s0, past);
      OnlyAtRestore(d0, s0, id, |past.pairs|, code, now);
      reply := Restore(s0, id, code, now);
      OnlyAtFrozen(d0, disk, id);
    }

    predicate CanAbort(d: TargetState, l: Link, id: ReleaseId) {
      IsCurrent(d, l, id) && d.records[id].result.phase in {LatestSwitched, NginxTestSucceeded}
    }

    predicate CanTest(d: TargetState, l: Link, id: ReleaseId) {
      IsCurrent(d, l, id) && d.records[id].result.phase in {LatestSwitched, Phase.NginxTest}
    }

    predicate CanReload(d: TargetState, l: Link, id: ReleaseId) {
      IsCurrent(d, l, id) && d.records[id].tested
      && d.records[id].result.phase in {NginxTestSucceeded, Phase.Reload, Phase.VerifyActivation}
    }

    method Abort(id: ReleaseId, now: Time) returns (reply: Reply)
      requires Valid()
      modifies this
      ensures Valid() && old(hist) <= hist && Later(old(past), past)
      ensures past.overwritten == old(past).overwritten
      ensures Frozen(old(disk), disk)
      ensures if up then reply != Lost else reply == Lost
      ensures reply.Rejected? ==> disk == old(disk) && link == old(link) && past == old(past)
      ensures OnlyAt(old(disk), disk, id) || (disk == old(disk) && !reply.Answer?)
      ensures InHand(old(disk), disk, link, id) || (disk == old(disk) && link == old(link))
      ensures reply.Answer? ==> Answered(reply, Failed) || Answered(reply, RecoveryRequired)
      ensures Answered(reply, Failed) ==> CommandUndone(old(disk), disk, link, id, reply)
      ensures reply.Answer? ==> CanAbort(old(disk), old(link), id)
      ensures trouble == old(trouble) && old(up) && !old(blocked) && IsCurrent(old(disk), old(link), id) ==>
        CanAbort(old(disk), old(link), id) || reply == Rejected(409, ReleaseNotCurrent)
      ensures trouble == old(trouble) && old(up) && !old(blocked) && !IsCurrent(old(disk), old(link), id) ==>
        reply == NotCurrent(old(disk), id)
      ensures trouble == old(trouble) && old(up) && !old(blocked) && CanAbort(old(disk), old(link), id) ==>
        Answered(reply, Failed)
      ensures Grew(old(trouble), trouble)
      ensures Excused(old(trouble), trouble, reply, 1)
      ensures Stamped(reply, {ReleaseAborted}, now)
      ensures trouble == old(trouble) ==> blocked == old(blocked)
    {
      hide SoundState, SoundPairs, Saveable, Run, Continues, Frozen;
      FrozenReflexive(disk);
      var refused := OpenCommand(id);
      if refused.Some? {
        return refused.value;
      }
      var s := disk;
      var phase := s.records[id].result.phase;
      if phase != LatestSwitched && phase != NginxTestSucceeded {
        return Rejected(409, ReleaseNotCurrent);
      }
      CommandLoaded(id);
      reply := RestoreCommand(s, id, ReleaseAborted, now, disk);
    }

    method SaveTested(s0: TargetState, id: ReleaseId, now: Time, ghost d0: TargetState)
      returns (ok: bool, s: TargetState)
      requires Valid() && Commands(d0, s0, id) && Tested(link, true) in past.log
      modifies this`disk, this`up, this`past, this`hist, this`trouble
      ensures Valid() && Holds(s) && old(hist) <= hist
      ensures s == TestedState(s0, id, now)
      ensures past.log == old(past).log && past.overwritten == old(past).overwritten && Later(old(past), past)
      ensures disk == old(disk) || disk == s
      ensures ok ==> up && disk == s
      ensures up ==> old(up)
      ensures trouble == AfterSave(old(trouble), ok)
    {
      hide SoundState, SoundPairs, Saveable, Run, Continues, Settled;
      ghost var s1 := TestedState(s0, id, now);
      TestedKeeps(s0, id, now, past);
      SaveableThenContinues(disk, s0, s1, past);
      s := s0;
      var rec := s.records[id];
      rec := rec.(tested := true, result := rec.result.(status := Succeeded, phase := NginxTestSucceeded));
      rec := rec.(result := rec.result.(activation := TestPassed, rollback := NotNeeded, finished := now));
      rec := rec.(http := 200);
      s := s.(records := s.records[id := rec]);
      assert s == s1;
      ok := Save(s);
    }

    method RecordTested(s0: TargetState, id: ReleaseId, now: Time, ghost d0: TargetState) returns (reply: Reply)
      requires Valid() && Commands(d0, s0, id) && Tested(link, true) in past.log
      modifies this
      ensures Valid() && old(hist) <= hist && Later(old(past), past)
      ensures past.overwritten == old(past).overwritten
      ensures link == old(link) && past.log == old(past).log
      ensures OnlyAt(d0, disk, id) && Frozen(d0, disk) && InHand(d0, disk, link, id)
      ensures up ==> Answered(reply, Succeeded) || Answered(reply, RecoveryRequired)
      ensures if up then reply.Answer? && !reply.replayed else reply == Lost
      ensures Answered(reply, Succeeded) ==>
        disk == TestedState(s0, id, now) && reply == Answer(disk.records[id], 200, false)
      ensures up ==> old(up)
      ensures Grew(old(trouble), trouble)
      ensures Excused(old(trouble), trouble, reply, 2)
      ensures Stamped(reply, {}, now)
      ensures trouble == old(trouble) ==> blocked == old(blocked) && up && Answered(reply, Succeeded)
    {
      hide SoundState, SoundPairs, Saveable, Run, Continues, Frozen;
      var ok, s := SaveTested(s0, id, now, d0);
      if !ok {
        reply := Uncertain(s, id, StatePersistFailed);
      } else {
        reply := Answer(s.records[id], s.records[id].http, false);
      }
      OnlyAtFrozen(d0, disk, id);
    }

    // nginx -t for a release that is switched and current.
    method TestCommand(id: ReleaseId, now: Time) returns (reply: Reply)
      requires Valid() && CanTest(disk, link, id)
      modifies this
      ensures Valid() && old(hist) <= hist && Later(old(past), past)
      ensures past.overwritten == old(past).overwritten
      ensures OnlyAt(old(disk), disk, id) && Frozen(old(disk), disk) && InHand(old(disk), disk, link, id)
      ensures if up then reply.Answer? && !reply.replayed else reply == Lost
      ensures Answered(reply, Failed) ==> CommandUndone(old(disk), disk, link, id, reply)
      ensures Answered(reply, Succeeded) ==>
        && disk == TestedState(InPhase(old(disk), id, Phase.NginxTest), id, now)
        && reply == Answer(disk.records[id], 200, false)
        && link == old(link) && past.log == old(past).log + [Tested(link, true)]
      ensures Acted(reply)
      ensures Grew(old(trouble), trouble)
      ensures Excused(old(trouble), trouble, reply, 2)
      ensures Stamped(reply, {NginxTestFailed}, now)
      ensures trouble == old(trouble) ==> blocked == old(blocked) && up && Answered(reply, Succeeded)
    {
      hide SoundState, SoundPairs, Saveable, Run, Continues, Frozen, OnlyAt, Valid, CommandUndone, InHand, TestedState;
      CommandLoaded(id);
      ghost var d0 := disk;
      var ok, s := CommandStep(disk, id, Phase.NginxTest, d0);
      if ok {
        ok := Test(s);
      }
      if !ok {
        reply := RestoreCommand(s, id, NginxTestFailed, now, d0);
        return;
      }
      reply := RecordTested(s, id, now, d0);
    }

    method NginxTest(id: ReleaseId, now: Time) returns (reply: Reply)
      requires Valid()
      modifies this
      ensures Valid() && old(hist) <= hist && Later(old(past), past)
      ensures past.overwritten == old(past).overwritten
      ensures Frozen(old(disk), disk)
      ensures if up then reply != Lost else reply == Lost
      ensures Acted(reply)
      ensures reply.Rejected? || (reply.Answer? && reply.replayed) ==>
        disk == old(disk) && link == old(link) && past == old(past)
      ensures OnlyAt(old(disk), disk, id) || (disk == old(disk) && !reply.Answer?)
      ensures InHand(old(disk), disk, link, id) || (disk == old(disk) && link == old(link))
      ensures reply.Answer? && reply.replayed ==> reply == Answer(disk.records[id], 200, true) && reply.record.tested
      ensures Answered(reply, Failed) && !reply.replayed ==> CommandUndone(old(disk), disk, link, id, reply)
      ensures Answered(reply, Succeeded) && !reply.replayed ==>
        && disk == TestedState(InPhase(old(disk), id, Phase.NginxTest), id, now)
        && reply == Answer(disk.records[id], 200, false)
        && link == old(link) && past.log == old(past).log + [Tested(link, true)]
      ensures reply.Answer? && !reply.replayed ==> CanTest(old(disk), old(link), id)
      ensures trouble == old(trouble) && old(up) && !old(blocked) && IsCurrent(old(disk), old(link), id) ==>
        var rec := old(disk).records[id];
        || CanTest(old(disk), old(link), id)
        || (if rec.result.phase == NginxTestSucceeded && rec.tested then reply == Answer(rec, 200, true)
            else reply == Rejected(409, TestNotAvailable))
      ensures trouble == old(trouble) && old(up) && !old(blocked) && !IsCurrent(old(disk), old(link), id) ==>
        reply == NotCurrent(old(disk), id)
      ensures trouble == old(trouble) && old(up) && !old(blocked) && CanTest(old(disk), old(link), id) ==>
        Answered(reply, Succeeded) && !reply.replayed
      ensures Grew(old(trouble), trouble)
      ensures Excused(old(trouble), trouble, reply, 2)
      ensures Stamped(reply, {NginxTestFailed}, now)
      ensures trouble == old(trouble) ==> blocked == old(blocked)
    {
      hide SoundState, SoundPairs, Saveable, Run, Continues, Frozen, OnlyAt;
      FrozenReflexive(disk);
      var refused := OpenCommand(id);
      if refused.Some? {
        return refused.value;
      }
      OnlyAtReflexive(disk, id);
      var s := disk;
      var rec := s.records[id];
      if rec.result.phase == NginxTestSucceeded && rec.tested {
        return Answer(rec, 200, true);
      }
      if rec.result.phase != LatestSwitched && rec.result.phase != Phase.NginxTest {
        return Rejected(409, TestNotAvailable);
      }
      reply := TestCommand(id, now);
    }

    method ReloadCommandStep(s0: TargetState, id: ReleaseId, now: Time, ghost d0: TargetState)
      returns (go: bool, s: TargetState, reply: Reply)
      requires Valid() && Commands(d0, s0, id) && Tested(link, true) in past.log
      modifies this
      ensures Valid() && old(hist) <= hist && Later(old(past), past)
      ensures past.overwritten == old(past).overwritten
      ensures go ==> up && Commands(d0, s, id) && s == InPhase(s0, id, Phase.Reload)
      ensures go ==> link == old(link) && past.log == old(past).log + [Reloaded(link, true)]
      ensures go ==> past.pairs == old(past).pairs
      ensures !go ==> OnlyAt(d0, disk, id) && Frozen(d0, disk) && InHand(d0, disk, link, id)
      ensures !go && up ==> Answered(reply, Failed) || Answered(reply, RecoveryRequired)
      ensures !go ==> if up then reply.Answer? && !reply.replayed else reply == Lost
      ensures !go && Answered(reply, Failed) ==> CommandUndone(d0, disk, link, id, reply)
      ensures up ==> old(up)
      ensures Grew(old(trouble), trouble)
      ensures Excused(old(trouble), trouble, reply, 2)
      ensures Stamped(reply, {NginxReloadFailed}, now)
      ensures trouble == old(trouble) ==> blocked == old(blocked) && go
    {
      hide SoundState, SoundPairs, Saveable, Run, Continues, Frozen, OnlyAt;
      reply := Lost;
      go, s := CommandStep(s0, id, Phase.Reload, d0);
      if go {
        go := ReloadNginx(s);
      }
      if !go {
        reply := RestoreCommand(s, id, NginxReloadFailed, now, d0);
      }
    }

    method VerifyCommandStep(s0: TargetState, id: ReleaseId, now: Time, ghost d0: TargetState)
      returns (go: bool, s: TargetState, reply: Reply)
      requires Valid() && Commands(d0, s0, id)
      modifies this
      ensures Valid() && old(hist) <= hist && Later(old(past), past)
      ensures past.overwritten == old(past).overwritten
      ensures go ==> up && Commands(d0, s, id) && s == InPhase(s0, id, Phase.VerifyActivation)
      ensures go ==> link == old(link) && past.log == old(past).log + VerifyEvents(s0.records[id].candidate)
      ensures go ==> past.pairs == old(past).pairs
      ensures !go ==> OnlyAt(d0, disk, id) && Frozen(d0, disk) && InHand(d0, disk, link, id)
      ensures !go && up ==> Answered(reply, Failed) || Answered(reply, RecoveryRequired)
      ensures !go ==> if up then reply.Answer? && !reply.replayed else reply == Lost
      ensures !go && Answered(reply, Failed) ==> CommandUndone(d0, disk, link, id, reply)
      ensures up ==> old(up)
      ensures Grew(old(trouble), trouble)
      ensures Excused(old(trouble), trouble, reply, 2)
      ensures Stamped(reply, {ActivationFailed}, now)
      ensures trouble == old(trouble) ==> blocked == old(blocked) && go
    {
      hide SoundState, SoundPairs, Saveable, Run, Continues, Frozen, OnlyAt;
      reply := Lost;
      go, s := CommandStep(s0, id, Phase.VerifyActivation, d0);
      if go {
        go := VerifyActivated(s.records[id].candidate, s);
      }
      if !go {
        reply := RestoreCommand(s, id, ActivationFailed, now, d0);
      }
    }

    method CommitCommand(s0: TargetState, id: ReleaseId, now: Time, ghost d0: TargetState) returns (reply: Reply)
      requires Valid() && Commands(d0, s0, id) && ReloadedSince(past.log, link)
      modifies this
      ensures Valid() && old(hist) <= hist && Later(old(past), past)
      ensures past.overwritten == old(past).overwritten
      ensures link == old(link) && past.log == old(past).log
      ensures OnlyAt(d0, disk, id) && Frozen(d0, disk) && InHand(d0, disk, link, id)
      ensures up ==> Answered(reply, Succeeded) || Answered(reply, RecoveryRequired)
      ensures if up then reply.Answer? && !reply.replayed else reply == Lost
      ensures Answered(reply, Succeeded) ==>
        disk == CommittedState(s0, id, |old(past).pairs|, now) && reply == Answer(disk.records[id], 200, false)
      ensures up ==> old(up)
      ensures Grew(old(trouble), trouble)
      ensures Excused(old(trouble), trouble, reply, 2)
      ensures Stamped(reply, {}, now)
      ensures trouble == old(trouble) ==> blocked == old(blocked) && up && Answered(reply, Succeeded)
    {
      hide SoundState, SoundPairs, Saveable, Run, Continues, Frozen;
      reply := Commit(s0, id, now);
      OnlyAtFrozen(d0, disk, id);
    }

    // A release that went through test and reload: it is current, complete and proved live.
    predicate CommandDone(d: TargetState, e: TargetState, l: Link, id: ReleaseId, reply: Reply) {
      && id in d.records && id in e.records
      && PairOf(e) == NewPair(d.records[id]) && l == LinkOf(d.records[id].candidate)
      && e.revision > d.revision && e.active == None && !e.recovery
      && CompleteRecord(e.records[id]) && e.records[id].result.after == e.revision
      && e.records[id].result.activation == ReloadRequested
      && SameRelease(d.records[id], e.records[id])
      && e.records[id].request == d.records[id].request
      && e.records[id].result.digest == d.records[id].result.digest
      && reply == Answer(e.records[id], 200, false)
    }

    // The reload and the verification of what it loaded.
    method ReloadThenVerify(id: ReleaseId, now: Time, ghost d0: TargetState)
      returns (go: bool, s: TargetState, reply: Reply)
      requires Valid() && Commands(d0, disk, id) && Tested(link, true) in past.log
      modifies this
      ensures Valid() && old(hist) <= hist && Later(old(past), past)
      ensures past.overwritten == old(past).overwritten
      ensures go ==> up && Commands(d0, s, id)
      ensures go ==> s == InPhase(InPhase(old(disk), id, Phase.Reload), id, Phase.VerifyActivation)
      ensures go ==> link == old(link) && past.pairs == old(past).pairs
      ensures go ==>
        past.log == old(past).log + ([Reloaded(link, true)] + VerifyEvents(old(disk).records[id].candidate))
      ensures !go ==> OnlyAt(d0, disk, id) && Frozen(d0, disk) && InHand(d0, disk, link, id)
      ensures !go && up ==> Answered(reply, Failed) || Answered(reply, RecoveryRequired)
      ensures !go ==> if up then reply.Answer? && !reply.replayed else reply == Lost
      ensures !go && Answered(reply, Failed) ==> CommandUndone(d0, disk, link, id, reply)
      ensures up ==> old(up)
      ensures Grew(old(trouble), trouble)
      ensures Excused(old(trouble), trouble, reply, 2)
      ensures Stamped(reply, {NginxReloadFailed, ActivationFailed}, now)
      ensures trouble == old(trouble) ==> blocked == old(blocked) && go
    {
      hide SoundState, SoundPairs, Saveable, Run, Continues, Frozen, OnlyAt, Commands, CommandUndone, InHand;
      CommandNamed(disk, id, d0);
      ghost var log, candidate := past.log, disk.records[id].candidate;
      go, s, reply := ReloadCommandStep(disk, id, now, d0);
      if !go {
        return;
      }
      CommandNamed(s, id, d0);
      go, s, reply := VerifyCommandStep(s, id, now, d0);
      assert (log + [Reloaded(link, true)]) + VerifyEvents(candidate)
          == log + ([Reloaded(link, true)] + VerifyEvents(candidate));
    }

    lemma CommandNamed(s: TargetState, id: ReleaseId, d0: TargetState)
      requires Valid() && Commands(d0, s, id)
      ensures id in s.records
    {
    }

    lemma CommittedIsDone(d: TargetState, l: Link, id: ReleaseId, rev: Revision, now: Time)
      requires CanReload(d, l, id) && rev > d.revision
      ensures var s := InPhase(InPhase(d, id, Phase.Reload), id, Phase.VerifyActivation);
        var e := CommittedState(s, id, rev, now);
        CommandDone(d, e, l, id, Answer(e.records[id], 200, false)) && e.current == d.records[id].candidate
    {
    }

    // nginx -s reload for a release that has passed nginx -t.
    method ReloadCommand(id: ReleaseId, now: Time) returns (reply: Reply)
      requires Valid() && CanReload(disk, link, id)
      modifies this
      ensures Valid() && old(hist) <= hist && Later(old(past), past)
      ensures past.overwritten == old(past).overwritten
      ensures OnlyAt(old(disk), disk, id) && Frozen(old(disk), disk) && InHand(old(disk), disk, link, id)
      ensures if up then reply.Answer? && !reply.replayed else reply == Lost
      ensures Answered(reply, Failed) ==> CommandUndone(old(disk), disk, link, id, reply)
      ensures Answered(reply, Succeeded) ==>
        && CommandDone(old(disk), disk, link, id, reply)
        && link == old(link) && Tested(link, true) in old(past).log
        && past.log == old(past).log + ([Reloaded(link, true)] + VerifyEvents(disk.current))
      ensures Acted(reply)
      ensures Grew(old(trouble), trouble)
      ensures Excused(old(trouble), trouble, reply, 2)
      ensures Stamped(reply, {NginxReloadFailed, ActivationFailed}, now)
      ensures trouble == old(trouble) ==> blocked == old(blocked) && up && Answered(reply, Succeeded)
    {
      hide SoundState, SoundPairs, Saveable, Run, Continues, Frozen, OnlyAt, ReloadedSince,
           CommandDone, InHand;
      CommandLoaded(id);
      RevisionDrawn(disk, past);
      ghost var d0, log, candidate := disk, past.log, disk.records[id].candidate;
      var go, s;
      go, s, reply := ReloadThenVerify(id, now, d0);
      if go {
        ReloadedThenQuiet(log, link, VerifyEvents(candidate));
        CommittedIsDone(d0, link, id, |past.pairs|, now);
        reply := CommitCommand(s, id, now, d0);
      }
    }

    method NginxReload(id: ReleaseId, now: Time) returns (reply: Reply)
      requires Valid()
      modifies this
      ensures Valid() && old(hist) <= hist && Later(old(past), past)
      ensures past.overwritten == old(past).overwritten
      ensures Frozen(old(disk), disk)
      ensures if up then reply != Lost else reply == Lost
      ensures Acted(reply)
      ensures reply.Rejected? || (reply.Answer? && reply.replayed) ==>
        disk == old(disk) && link == old(link) && past == old(past)
      ensures OnlyAt(old(disk), disk, id) || (disk == old(disk) && !reply.Answer?)
      ensures InHand(old(disk), disk, link, id) || (disk == old(disk) && link == old(link))
      ensures reply.Answer? && reply.replayed ==>
        && reply == Answer(disk.records[id], 200, true)
        && reply.record.result.phase == Complete && reply.record.result.activation == ReloadRequested
      ensures Answered(reply, Failed) && !reply.replayed ==> CommandUndone(old(disk), disk, link, id, reply)
      ensures Answered(reply, Succeeded) && !reply.replayed ==>
        && CommandDone(old(disk), disk, link, id, reply)
        && link == old(link) && Tested(link, true) in old(past).log
        && past.log == old(past).log + ([Reloaded(link, true)] + VerifyEvents(disk.current))
      ensures reply.Answer? && !reply.replayed ==> CanReload(old(disk), old(link), id)
      ensures trouble == old(trouble) && old(up) && !old(blocked) && IsCurrent(old(disk), old(link), id) ==>
        var rec := old(disk).records[id];
        || CanReload(old(disk), old(link), id)
        || (if rec.result.phase == Complete && rec.result.activation == ReloadRequested
            then reply == Answer(rec, 200, true) else reply == Rejected(409, ReloadNotAvailable))
      ensures trouble == old(trouble) && old(up) && !old(blocked) && !IsCurrent(old(disk), old(link), id) ==>
        reply == NotCurrent(old(disk), id)
      ensures trouble == old(trouble) && old(up) && !old(blocked) && CanReload(old(disk), old(link), id) ==>
        Answered(reply, Succeeded) && !reply.replayed
      ensures Grew(old(trouble), trouble)
      ensures Excused(old(trouble), trouble, reply, 2)
      ensures Stamped(reply, {NginxReloadFailed, ActivationFailed}, now)
      ensures trouble == old(trouble) ==> blocked == old(blocked)
    {
      hide SoundState, SoundPairs, Saveable, Run, Continues, Frozen, OnlyAt;
      FrozenReflexive(disk);
      var refused := OpenCommand(id);
      if refused.Some? {
        return refused.value;
      }
      OnlyAtReflexive(disk, id);
      var s := disk;
      var rec := s.records[id];
      if rec.result.phase == Complete && rec.result.activation == ReloadRequested {
        return Answer(rec, 200, true);
      }
      if (rec.result.phase != NginxTestSucceeded && rec.result.phase != Phase.Reload
          && rec.result.phase != Phase.VerifyActivation) || !rec.tested {
        return Rejected(409, ReloadNotAvailable);
      }
      reply := ReloadCommand(id, now);
    }

    /* ---------- Startup ---------- */

    // State, as the client reads it. It changes nothing.
    method Query(id: Option<ReleaseId>) returns (answer: LiveState)
      requires Valid()
      modifies this`up, this`trouble
      ensures Valid() && (up ==> old(up)) && Grew(old(trouble), trouble)
      ensures answer.Live? ==>
        && up && answer.revision == disk.revision && answer.current == disk.current && answer.previous == disk.previous
        && (id.Some? ==> id.value in disk.records && answer.release == Some(disk.records[id.value]))
      ensures answer.NotFound? ==> id.Some? && id.value !in disk.records
      ensures trouble == old(trouble) ==> up
      ensures trouble == old(trouble) && (id.Some? ==> id.value in disk.records) ==> answer.Live?
      ensures trouble == old(trouble) && id.Some? && id.value !in disk.records ==> answer.NotFound?
    {
      var readable := Environment();
      if !readable {
        return Unanswered;
      }
      if id.Some? && id.value !in disk.records {
        return NotFound;
      }
      return Live(disk.revision, disk.current, disk.previous,
                  if id.Some? then Some(disk.records[id.value]) else None);
    }

    // A startup keeps every recoverable state of a release that began on an idle target.
    twostate predicate RecoveryKeeps(d: TargetState, id: ReleaseId)
      reads this
    {
      d.active == None && AllOrNothing(d, old(disk), old(link), id) ==> AllOrNothing(d, disk, link, id)
    }

    // Where an undisturbed startup takes an interrupted release: forward if `latest` is on
    // its candidate, back otherwise; a release that had announced nothing just ends.
    twostate predicate Recovered(id: ReleaseId)
      requires id in old(disk).records
      reads this
    {
      && disk.active == None && !disk.recovery && id in disk.records
      && var r, result := old(disk).records[id], disk.records[id].result;
         if !r.intent then
           && PairOf(disk) == PairOf(old(disk)) && disk.revision == old(disk).revision && link == old(link)
           && result.status == Failed && result.code == Interrupted
         else if old(link) == LinkOf(r.candidate) then
           && CompleteRecord(disk.records[id])
           && PairOf(disk) == NewPair(r) && disk.revision > old(disk).revision && link == old(link)
           && past.log == old(past).log + ActivationEvents(r.candidate)
         else
           && result.status == Failed && result.code == Interrupted && result.phase == RolledBack
           && PairOf(disk) == OldPair(r) && disk.revision > old(disk).revision && link == LinkOf(r.baseline)
           && past.log == old(past).log + RollbackEvents(r.baseline)
    }

    // A startup completes release `id` only after every step of its activation.
    twostate predicate CompletedAfterActivation(id: ReleaseId)
      requires id in old(disk).records
      reads this
    {
      id in disk.records && CompleteRecord(disk.records[id]) ==>
        past.log == old(past).log + ActivationEvents(old(disk).records[id].candidate)
    }

    // Of a startup that finds `latest` on the candidate of interrupted release `id`: if one of
    // its actions is refused, none of them a save, and if it got as far as nginx or files at
    // all, the release is settled. It goes forward if every step of the activation succeeded,
    // and back to its baseline otherwise.
    twostate predicate SettledAfterOne(id: ReleaseId)
      requires id in old(disk).records
      reads this
    {
      var r := old(disk).records[id];
      up && trouble == After(old(trouble), false) && old(link) == LinkOf(r.candidate) && past.log != old(past).log ==>
        && disk.active == None && !disk.recovery && id in disk.records && disk.revision > old(disk).revision
        && if past.log == old(past).log + ActivationEvents(r.candidate) then
             PairOf(disk) == NewPair(r) && link == LinkOf(r.candidate) && CompleteRecord(disk.records[id])
           else
             && PairOf(disk) == OldPair(r) && link == LinkOf(r.baseline)
             && disk.records[id].result.status == Failed && disk.records[id].result.phase == RolledBack
             && disk.records[id].result.code == Interrupted
    }

    // An interrupted release that had not announced its switch.
    method RecoverUnswitched(id: ReleaseId, now: Time, ghost d0: TargetState)
      requires Valid() && disk.active == Some(id) && id in disk.records && !disk.records[id].intent
      modifies this
      ensures Valid() && old(hist) <= hist && Later(old(past), past)
      ensures past.overwritten == old(past).overwritten
      ensures OnlyAt(old(disk), disk, id) && link == old(link) && past.log == old(past).log
      ensures RecoveryKeeps(d0, id)
      ensures up ==> old(up)
      ensures Grew(old(trouble), trouble)
      ensures trouble == old(trouble) ==> blocked == old(blocked) && up && Recovered(id)
    {
      hide SoundState, SoundPairs, Saveable, Run, Continues, AllOrNothing;
      LiveWorld();
      FailedKeeps(disk, id, Interrupted, now, past);
      SaveableThenContinues(disk, disk, FailedState(disk, id, Interrupted, now), past);
      if d0.active == None && AllOrNothing(d0, disk, link, id) {
        InterruptedFailed(d0, disk, link, id, Interrupted, now);
      }
      var _ := Fail(disk, id, Interrupted, now);
    }

    lemma ActiveSwitched(id: ReleaseId)
      requires Valid() && disk.active == Some(id) && id in disk.records && disk.records[id].intent
      ensures HoldsSwitched(disk, id)
    {
    }

    // A found candidate is checked and activated once more.
    method Reactivate(id: ReleaseId) returns (ok: bool)
      requires Valid() && HoldsSwitched(disk, id)
      modifies this`up, this`past, this`hist, this`trouble
      ensures Valid() && HoldsSwitched(disk, id) && old(hist) <= hist
      ensures past == old(past).(log := past.log) && Later(old(past), past)
      ensures ok ==> up && ReloadedSince(past.log, link)
      ensures ok && link == LinkOf(disk.records[id].candidate) ==>
        past.log == old(past).log + ActivationEvents(disk.records[id].candidate)
      ensures up ==> old(up)
      ensures trouble == After(old(trouble), ok)
    {
      hide SoundState, SoundPairs, Saveable, Run, AtEitherEnd, ReloadedSince, ActivationEvents, VerifyEvents,
           ActivateEvents;
      ghost var s, log := disk, past.log;
      var candidate := disk.records[id].candidate;
      ok := Check(candidate, s);
      if !ok {
        return;
      }
      ok := TestThenReload(s);
      if !ok {
        return;
      }
      ok := VerifyActivated(candidate, s);
      if ok {
        Activated(log, candidate, link, past.log);
      }
    }

    // `latest` is on the candidate: forward if that activates, and back otherwise.
    method RecoverLinked(id: ReleaseId, now: Time, ghost d0: TargetState)
      requires Valid() && disk.active == Some(id) && HoldsSwitched(disk, id)
      requires link == LinkOf(disk.records[id].candidate)
      modifies this
      ensures Valid() && old(hist) <= hist && Later(old(past), past)
      ensures past.overwritten == old(past).overwritten
      ensures OnlyAt(old(disk), disk, id)
      ensures RecoveryKeeps(d0, id)
      ensures up ==> old(up)
      ensures Grew(old(trouble), trouble)
      ensures trouble == old(trouble) ==> blocked == old(blocked) && up && Recovered(id)
      ensures SettledAfterOne(id) && CompletedAfterActivation(id)
    {
      hide SoundState, SoundPairs, Saveable, Run, Continues, AllOrNothing, AtEitherEnd, OnlyAt, ReloadedSince, Valid;
      ghost var log, rec := past.log, disk.records[id];
      var active := Reactivate(id);
      if active {
        RecoverForward(id, now, d0);
      } else {
        RollbackNotActivation(log, past.log, rec.baseline, rec.candidate);
        RecoverBack(id, now, d0);
      }
    }

    // An interrupted release whose switch was announced goes forward if `latest` is on its
    // candidate and the candidate activates, and back otherwise.
    method RecoverSwitched(id: ReleaseId, now: Time, ghost d0: TargetState)
      requires Valid() && disk.active == Some(id) && id in disk.records && disk.records[id].intent
      modifies this
      ensures Valid() && old(hist) <= hist && Later(old(past), past)
      ensures past.overwritten == old(past).overwritten
      ensures OnlyAt(old(disk), disk, id)
      ensures RecoveryKeeps(d0, id)
      ensures up ==> old(up)
      ensures Grew(old(trouble), trouble)
      ensures trouble == old(trouble) ==> blocked == old(blocked) && up && Recovered(id)
      ensures SettledAfterOne(id) && CompletedAfterActivation(id)
    {
      hide SoundState, SoundPairs, Saveable, Run, Continues, AllOrNothing, AtEitherEnd, OnlyAt;
      ActiveSwitched(id);
      var readable := Environment();
      var live: Option<Commit> := None;
      if readable {
        readable, live := LiveCommit();
      }
      if !readable {
        RecoverLater(id, d0);
        return;
      }
      if live == Some(disk.records[id].candidate.value.commit) {
        RecoverLinked(id, now, d0);
      } else {
        RecoverBack(id, now, d0);
      }
    }

    method RecoverLater(id: ReleaseId, ghost d0: TargetState)
      requires Valid() && disk.active == Some(id) && HoldsSwitched(disk, id)
      modifies this
      ensures Valid() && old(hist) <= hist && Later(old(past), past)
      ensures past.overwritten == old(past).overwritten
      ensures OnlyAt(old(disk), disk, id) && past.log == old(past).log
      ensures id in disk.records && !CompleteRecord(disk.records[id])
      ensures RecoveryKeeps(d0, id)
      ensures up ==> old(up)
      ensures Grew(old(trouble), trouble)
    {
      hide SoundState, SoundPairs, Saveable, Run, Continues, AllOrNothing, AtEitherEnd;
      LiveWorld();
      ActiveRecord(disk, past);
      if d0.active == None && AllOrNothing(d0, disk, link, id) {
        InterruptedShape(d0, disk, link, id, past);
        InterruptedUncertain(d0, disk, link, id, RecoveryFailed);
      }
      var _ := Uncertain(disk, id, RecoveryFailed);
    }

    method RecoverForward(id: ReleaseId, now: Time, ghost d0: TargetState)
      requires Valid() && disk.active == Some(id) && HoldsSwitched(disk, id)
      requires link == LinkOf(disk.records[id].candidate) && ReloadedSince(past.log, link)
      modifies this
      ensures Valid() && old(hist) <= hist && Later(old(past), past)
      ensures past.overwritten == old(past).overwritten
      ensures OnlyAt(old(disk), disk, id) && past.log == old(past).log
      ensures up && trouble.unsaved == old(trouble).unsaved ==>
        && disk.active == None && !disk.recovery && id in disk.records && disk.revision > old(disk).revision
        && PairOf(disk) == NewPair(old(disk).records[id]) && link == old(link) && CompleteRecord(disk.records[id])
      ensures RecoveryKeeps(d0, id)
      ensures up ==> old(up)
      ensures Grew(old(trouble), trouble)
      ensures trouble == old(trouble) ==> blocked == old(blocked) && up
    {
      hide SoundState, SoundPairs, Saveable, Run, Continues, AllOrNothing, AtEitherEnd, Later;
      LiveWorld();
      if d0.active == None && AllOrNothing(d0, disk, link, id) {
        InterruptedShape(d0, disk, link, id, past);
        InterruptedCommitted(d0, disk, id, |past.pairs|, now);
      }
      var _ := Commit(disk, id, now);
    }

    method RecoverBack(id: ReleaseId, now: Time, ghost d0: TargetState)
      requires Valid() && disk.active == Some(id) && HoldsSwitched(disk, id)
      modifies this
      ensures Valid() && old(hist) <= hist && Later(old(past), past)
      ensures past.overwritten == old(past).overwritten
      ensures OnlyAt(old(disk), disk, id)
      ensures id in disk.records && !CompleteRecord(disk.records[id])
      ensures RecoveryKeeps(d0, id)
      ensures up ==> old(up)
      ensures Grew(old(trouble), trouble)
      ensures trouble == old(trouble) ==> blocked == old(blocked) && up
      ensures trouble == old(trouble) ==>
        && disk.active == None && !disk.recovery && id in disk.records && disk.revision > old(disk).revision
        && PairOf(disk) == OldPair(old(disk).records[id]) && link == LinkOf(old(disk).records[id].baseline)
        && disk.records[id].result.status == Failed && disk.records[id].result.phase == RolledBack
        && disk.records[id].result.code == Interrupted
        && past.log == old(past).log + RollbackEvents(old(disk).records[id].baseline)
      ensures trouble == old(trouble) && old(link) != LinkOf(old(disk).records[id].candidate) ==> Recovered(id)
    {
      hide SoundState, SoundPairs, Saveable, Run, Continues, Explained, AllOrNothing, AtEitherEnd, OnlyAt, Stamped;
      LiveWorld();
      ActiveRecord(disk, past);
      IntentExplains(disk, id);
      OnlyAtReflexive(disk, id);
      OnlyAtRestore(disk, disk, id, |past.pairs|, Interrupted, now);
      if d0.active == None && AllOrNothing(d0, disk, link, id) {
        InterruptedShape(d0, disk, link, id, past);
        InterruptedLinks(d0, disk, link, id);
        InterruptedUncertain(d0, disk, link, id, RecoveryFailed);
        InterruptedUncertain(d0, disk, LinkOf(disk.records[id].baseline), id, RecoveryFailed);
        InterruptedRolledBack(d0, disk, link, id, |past.pairs|, Interrupted, now);
      }
      var _ := Restore(disk, id, Interrupted, now);
    }

    // recoverStartup
    method RecoverStartup(id: ReleaseId, now: Time, ghost d0: TargetState)
      requires Valid() && disk.active == Some(id) && id in disk.records
      modifies this
      ensures Valid() && old(hist) <= hist && Later(old(past), past)
      ensures past.overwritten == old(past).overwritten
      ensures OnlyAt(old(disk), disk, id)
      ensures RecoveryKeeps(d0, id)
      ensures up ==> old(up)
      ensures Grew(old(trouble), trouble)
      ensures trouble == old(trouble) ==> blocked == old(blocked) && up && Recovered(id)
      ensures old(disk).records[id].intent ==> SettledAfterOne(id) && CompletedAfterActivation(id)
    {
      if disk.records[id].intent {
        RecoverSwitched(id, now, d0);
      } else {
        RecoverUnswitched(id, now, d0);
      }
    }

    method CheckStoredBaseline() returns (good: bool)
      requires Valid() && disk.current.Some?
      modifies this`up, this`past, this`hist, this`trouble
      ensures Valid() && old(hist) <= hist && Later(old(past), past)
      ensures past.overwritten == old(past).overwritten
      ensures up ==> old(up)
      ensures good ==> past.log == old(past).log + [Checked(disk.current, true)]
      ensures trouble == After(old(trouble), good)
    {
      hide SoundState, SoundPairs, Saveable, Run;
      LiveWorld();
      good := Environment();
      if good {
        good := CheckInstalled(disk.current, disk);
      }
    }

    method SaveFlag(flag: bool, ghost d0: TargetState, ghost id: ReleaseId) returns (ok: bool)
      requires Valid() && disk.active == None && disk.current.Some?
      modifies this`disk, this`up, this`past, this`hist, this`trouble
      ensures Valid() && old(hist) <= hist && Later(old(past), past)
      ensures past.overwritten == old(past).overwritten
      ensures disk == old(disk).(recovery := disk.recovery)
      ensures ok ==> up && disk.recovery == flag
      ensures past.log == old(past).log
      ensures RecoveryKeeps(d0, id)
      ensures up ==> old(up)
      ensures trouble == AfterSave(old(trouble), ok)
    {
      hide SoundState, SoundPairs, Saveable, Run, Continues, AllOrNothing;
      LiveWorld();
      if d0.active == None && AllOrNothing(d0, disk, link, id) {
        RecheckedAllOrNothing(d0, disk, link, id, flag);
      }
      RecheckedKeeps(disk, flag, past);
      var s := disk.(recovery := flag);
      SaveableThenContinues(disk, disk, s, past);
      ok := Save(s);
    }

    // checkStoredBaseline, and the flag that says how it went.
    method Recheck(ghost d0: TargetState, ghost id: ReleaseId) returns (good: bool, saved: bool)
      requires Valid() && disk.active == None && disk.current.Some?
      modifies this
      ensures Valid() && old(hist) <= hist && Later(old(past), past)
      ensures past.overwritten == old(past).overwritten
      ensures disk == old(disk).(recovery := disk.recovery) && link == old(link)
      ensures saved ==> up && disk.recovery == !good
      ensures good ==> past.log == old(past).log + [Checked(old(disk).current, true)]
      ensures !saved ==> blocked
      ensures RecoveryKeeps(d0, id)
      ensures up ==> old(up)
      ensures Grew(old(trouble), trouble)
      ensures trouble == old(trouble) <==> good && saved
      ensures trouble == old(trouble) ==> blocked == old(blocked)
    {
      hide SoundState, SoundPairs, Saveable, Run, Continues, AllOrNothing, Sound, Grounded;
      good := CheckStoredBaseline();
      saved := SaveFlag(!good, d0, id);
      if !saved {
        blocked := true;
      }
    }

    // The new process, up to ensureTarget's save.
    method Revive() returns (ready: bool)
      requires Valid()
      modifies this
      ensures Valid() && old(hist) <= hist && Later(old(past), past)
      ensures past.overwritten == old(past).overwritten
      ensures disk == old(disk) && link == old(link) && ready == up && past.log == old(past).log
      ensures ready ==> trouble == old(trouble)
      ensures Grew(old(trouble), trouble)
      ensures trouble == old(trouble) ==> ready
      ensures !blocked
    {
      hide SoundState, SoundPairs, Saveable, Run;
      up, blocked := true, false;
      LiveWorld();
      ready := Environment();
      if ready {
        ready := Save(disk);
      }
      up := ready;
    }

    lemma ActiveUnfinished()
      requires Valid() && disk.active.Some?
      ensures disk.active.value in disk.records && !CompleteRecord(disk.records[disk.active.value])
    {
      LiveWorld();
      ActiveRecord(disk, past);
    }

    method RecoverActive(now: Time, ghost d0: TargetState, ghost id: ReleaseId)
      requires Valid() && disk.active.Some?
      modifies this
      ensures Valid() && old(hist) <= hist && Later(old(past), past)
      ensures past.overwritten == old(past).overwritten
      ensures old(disk).active.value in old(disk).records
      ensures OnlyAt(old(disk), disk, old(disk).active.value) && Frozen(old(disk), disk)
      ensures forall i :: i in disk.records <==> i in old(disk).records
      ensures MarkedSwitched(old(disk)) ==>
        SettledAfterOne(old(disk).active.value) && CompletedAfterActivation(old(disk).active.value)
      ensures RecoveryKeeps(d0, id)
      ensures up ==> old(up)
      ensures Grew(old(trouble), trouble)
      ensures trouble == old(trouble) ==> blocked == old(blocked) && up && Recovered(old(disk).active.value)
    {
      hide SoundState, SoundPairs, Saveable, Run, Continues, AllOrNothing, OnlyAt, Sound, ActivationEvents,
           RollbackEvents;
      ghost var d := disk;
      LiveWorld();
      ActiveRecord(disk, past);
      if d0.active == None && AllOrNothing(d0, disk, link, id) {
        ActiveIsOurs(d0, disk, link, id);
      }
      RecoverStartup(disk.active.value, now, d0);
      OnlyAtFrozen(d, disk, d.active.value);
      OnlyAtSame(d, disk, d.active.value);
    }

    // NewWithRuntime: the process starts, whatever state the last one left behind.
    method Restart(now: Time, ghost d0: TargetState, ghost id: ReleaseId) returns (started: bool)
      requires Valid()
      modifies this
      ensures Valid() && old(hist) <= hist && Later(old(past), past)
      ensures past.overwritten == old(past).overwritten
      ensures started == up
      ensures Frozen(old(disk), disk)
      ensures forall i :: i in disk.records <==> i in old(disk).records
      ensures old(disk).active.None? ==> disk == old(disk).(recovery := disk.recovery) && link == old(link)
      ensures old(disk).active.Some? && disk != old(disk) ==> OnlyAt(old(disk), disk, old(disk).active.value)
      ensures MarkedSwitched(old(disk)) ==>
        SettledAfterOne(old(disk).active.value) && CompletedAfterActivation(old(disk).active.value)
      ensures RecoveryKeeps(d0, id)
      ensures Grew(old(trouble), trouble)
      ensures trouble == old(trouble) ==> started && !blocked && disk.active == None
      ensures trouble == old(trouble) && old(disk).active.Some? ==>
        old(disk).active.value in old(disk).records && Recovered(old(disk).active.value)
      ensures trouble == old(trouble) && (disk.current.Some? || old(disk).active.Some?) ==> !disk.recovery
      ensures old(disk).active.None? && old(disk).current.Some? && up && !blocked && !disk.recovery ==>
        past.log == old(past).log + [Checked(disk.current, true)]
      ensures trouble == old(trouble) && disk.current.None? && old(disk).active.None? ==>
        disk.recovery == old(disk).recovery
    {
      hide SoundState, SoundPairs, Saveable, Run, Continues, AllOrNothing, OnlyAt, Sound, Settled;
      FrozenReflexive(disk);
      if disk.active.Some? {
        ActiveUnfinished();
      }
      started := Revive();
      if !started {
        return;
      }
      if disk.active.Some? {
        RecoverActive(now, d0, id);
      } else if disk.current.Some? {
        var _, _ := Recheck(d0, id);
      }
      started := up;
    }
  }
}
