/** Where the code falls short of what one might expect of it: for each expectation a run
    that starts with an empty directory and ends where it fails. */
module Counterexamples {
  import opened Release
  import opened State
  import opened Protocol
  import opened Transitions
  import opened Outcomes
  import opened Publisher
  import opened Runs
  import opened Journeys
  import opened Batch

  /* ---------- Runs of one release ---------- */

  // A target as registration leaves it.
  function FreshState(): TargetState {
    TargetState(0, None, None, None, false, map[])
  }

  ghost function FreshWorld(plain: bool): World {
    World(FreshState(), Absent, Past([], [Pair(None, None)], {}, {0}, true, false, plain))
  }

  lemma FreshRun(plain: bool)
    ensures Run([FreshWorld(plain)])
  {
    assert Sound(FreshWorld(plain));
  }

  function Last(h: seq<World>): World
    requires |h| > 0
  {
    h[|h| - 1]
  }

  lemma LastSound(h: seq<World>)
    requires Run(h) && |h| > 0
    ensures Sound(Last(h))
  {
  }

  lemma Saved(h: seq<World>, s: TargetState) returns (g: seq<World>)
    requires Run(h) && |h| > 0
    requires SoundState(s, Last(h).past) && Saveable(Last(h).disk, s, Last(h).past)
    ensures g == h + [Landed(Last(h), s)] && Run(g) && SoundState(s, Last(g).past)
  {
    hide SoundState, Saveable;
    StepSave(Last(h), s);
    RunExtended(h, Landed(Last(h), s));
    g := h + [Landed(Last(h), s)];
  }

  // A new release may begin.
  ghost predicate Ready(h: seq<World>, req: Request, v: Version) {
    && Run(h) && |h| > 0 && req.id !in Last(h).disk.records
    && (req.expected.Some? ==> req.expected.value == Last(h).disk.revision)
    && v.commit == req.commit && v.artifact == req.digest && (Last(h).past.plain ==> v.artifact.None?)
  }

  // The working copy after the baseline was noted and the candidate was made.
  function Prepared(d: TargetState, req: Request, v: Version, now: Time): TargetState {
    WithCandidate(BaselineNoted(AcceptedState(d, req, req, now), req.id), req.id, v)
  }

  function Announced(d: TargetState, req: Request, v: Version, now: Time): TargetState {
    InPhase(WithIntent(Prepared(d, req, v, now), req.id), req.id, Phase.Switch)
  }

  lemma PreparedSound(w: World, req: Request, v: Version, now: Time)
    requires Sound(w) && req.id !in w.disk.records
    requires req.expected.Some? ==> req.expected.value == w.disk.revision
    requires v.commit == req.commit && v.artifact == req.digest && (w.past.plain ==> v.artifact.None?)
    ensures var (s, p) := (Prepared(w.disk, req, v, now), AcceptedPast(w.past, w.disk, req.id));
      SoundState(s, p) && Saveable(w.disk, s, p) && Preparing(s, req.id)
    ensures Later(w.past, AcceptedPast(w.past, w.disk, req.id))
  {
    hide SoundState, Saveable, Continues;
    var id, s0, p := req.id, AcceptedState(w.disk, req, req, now), AcceptedPast(w.past, w.disk, req.id);
    var s1 := BaselineNoted(s0, id);
    AcceptedKeeps(w.disk, req, req, now, w.past);
    BaselineNotedKeeps(s0, id, p);
    SaveableThenContinues(w.disk, s0, s1, p);
    WithCandidateKeeps(s1, id, v, p);
    SaveableThenContinues(w.disk, s1, WithCandidate(s1, id, v), p);
  }

  lemma AnnouncedSound(w: World, req: Request, v: Version, now: Time)
    requires Sound(w) && req.id !in w.disk.records
    requires req.expected.Some? ==> req.expected.value == w.disk.revision
    requires v.commit == req.commit && v.artifact == req.digest && (w.past.plain ==> v.artifact.None?)
    ensures var (s, p) := (Announced(w.disk, req, v, now), AcceptedPast(w.past, w.disk, req.id));
      SoundState(s, p) && Saveable(w.disk, s, p)
    ensures Later(w.past, AcceptedPast(w.past, w.disk, req.id))
  {
    hide SoundState, Saveable, Continues;
    PreparedSound(w, req, v, now);
    var s, p := Prepared(w.disk, req, v, now), AcceptedPast(w.past, w.disk, req.id);
    WithIntentKeeps(s, req.id, p);
    SaveableThenContinues(w.disk, s, WithIntent(s, req.id), p);
    InPhaseKeeps(WithIntent(s, req.id), req.id, Phase.Switch, p);
    SaveableThenContinues(w.disk, WithIntent(s, req.id), Announced(w.disk, req, v, now), p);
  }

  // Accepted, announced and switched, each step durable.
  lemma SwitchedRun(h: seq<World>, req: Request, v: Version, now: Time) returns (g: seq<World>)
    requires Ready(h, req, v)
    ensures Run(g) && h <= g && |g| > 0
    ensures var w := Last(h);
      && Last(g).disk == Announced(w.disk, req, v, now) && Last(g).link == At(v.commit)
      && Last(g).past == Logged(AcceptedPast(w.past, w.disk, req.id), Switched(At(v.commit)))
    ensures SoundState(Last(g).disk, Last(g).past)
  {
    hide SoundState, Saveable;
    var w, s := Last(h), Announced(Last(h).disk, req, v, now);
    var p := AcceptedPast(w.past, w.disk, req.id);
    assert Sound(w);
    AnnouncedSound(w, req, v, now);
    StepPastOnly(w, p);
    RunExtended(h, World(w.disk, w.link, p));
    g := Saved(h + [World(w.disk, w.link, p)], s);
    assert s.revision in p.served && Landed(World(w.disk, w.link, p), s).past == p;
    IntentExplains(s, req.id);
    StepSwitch(Last(g), At(v.commit));
    var next := World(s, At(v.commit), Logged(p, Switched(At(v.commit))));
    RunExtended(g, next);
    g := g + [next];
  }

  function Staged(d: TargetState, req: Request, v: Version, rev: Revision, now: Time): TargetState {
    StagedState(Announced(d, req, v, now), req.id, rev, now)
  }

  lemma StagedShape(d: TargetState, req: Request, v: Version, rev: Revision, now: Time)
    requires d.active == None
    ensures var e := Staged(d, req, v, rev, now);
      && e.current == Some(v) && e.previous == d.current && e.revision == rev && e.active == None
      && (forall i :: i in e.records <==> i in d.records || i == req.id)
      && (forall i :: i in d.records && i != req.id ==> e.records[i] == d.records[i])
      && e.records[req.id].intent && e.records[req.id].candidate == Some(v)
      && OldPair(e.records[req.id]) == PairOf(d) && e.records[req.id].result.phase == LatestSwitched
  {
  }

  // A move: the revision is drawn, then the state is saved.
  lemma MovedRun(h: seq<World>, pair: Pair, live: bool, t: TargetState) returns (g: seq<World>)
    requires Run(h) && |h| > 0 && Last(h).link == LinkOf(pair.current)
    requires live ==> ReloadedSince(Last(h).past.log, Last(h).link)
    requires Later(Last(h).past, Drawn(Last(h).past, pair, live)) && SoundState(t, Drawn(Last(h).past, pair, live))
    requires Continues(Last(h).disk, t)
    ensures Run(g) && |g| == |h| + 2 && h <= g && Last(g).disk == t && Last(g).link == Last(h).link
    ensures Last(g).past == Drawn(Last(h).past, pair, live).(served := Last(g).past.served)
    ensures SoundState(Last(g).disk, Last(g).past)
  {
    hide SoundState, Saveable, Continues, ReloadedSince;
    var w, q := Last(h), Drawn(Last(h).past, pair, live);
    LastSound(h);
    StepPastOnly(w, q);
    RunExtended(h, World(w.disk, w.link, q));
    SaveableReflexive(w.disk, q);
    SaveableThenContinues(w.disk, w.disk, t, q);
    g := Saved(h + [World(w.disk, w.link, q)], t);
  }

  // The staged end: a drawn revision, then the save.
  lemma StagedRun(h: seq<World>, req: Request, v: Version, now: Time) returns (g: seq<World>)
    requires Ready(h, req, v)
    ensures Run(g) && h <= g && |g| > 0
    ensures var w, s := Last(h), Announced(Last(h).disk, req, v, now);
      && Last(g).disk == Staged(w.disk, req, v, |w.past.pairs|, now) && Last(g).link == At(v.commit)
      && Last(g).past.log == w.past.log + [Switched(At(v.commit))]
      && Last(g).past.pairs == w.past.pairs + [Pair(Some(v), w.disk.current)]
      && Last(g).past.plain == w.past.plain
    ensures SoundState(Last(g).disk, Last(g).past)
  {
    hide SoundState, Saveable, Continues, SoundPairs;
    var w, s := Last(h), Announced(Last(h).disk, req, v, now);
    g := SwitchedRun(h, req, v, now);
    assert Sound(Last(g)) && s.records[req.id].baseline == w.disk.current;
    StagedKeeps(s, req.id, now, Last(g).past);
    g := MovedRun(g, Pair(Some(v), w.disk.current), false, Staged(w.disk, req, v, |w.past.pairs|, now));
  }

  // A release that was switched and whose local rollback then failed.
  function Stranded(d: TargetState, req: Request, v: Version, now: Time): TargetState {
    UncertainState(Announced(d, req, v, now), req.id, RecoveryFailed)
  }

  lemma StrandedRun(h: seq<World>, req: Request, v: Version, now: Time) returns (g: seq<World>)
    requires Ready(h, req, v)
    ensures Run(g) && h <= g && |g| > 0
    ensures Last(g).disk == Stranded(Last(h).disk, req, v, now) && Last(g).link == At(v.commit)
    ensures Last(g).past.pairs == Last(h).past.pairs && Last(g).past.plain == Last(h).past.plain
    ensures Last(g).past.log == Last(h).past.log + [Switched(At(v.commit))]
    ensures Last(g).past.overwritten == Last(h).past.overwritten
  {
    hide SoundState, Saveable, Continues;
    var s := Announced(Last(h).disk, req, v, now);
    g := SwitchedRun(h, req, v, now);
    UncertainKeeps(s, req.id, RecoveryFailed, Last(g).past);
    SaveableReflexive(s, Last(g).past);
    SaveableThenContinues(s, s, Stranded(Last(h).disk, req, v, now), Last(g).past);
    g := Saved(g, Stranded(Last(h).disk, req, v, now));
  }

  /* ---------- The link of a retried release ---------- */

  // The write-ahead invariant fails without its condition: a first release is switched, its
  // local rollback fails, and it is marked for recovery. Its retry is let in, and `latest`
  // stays on a candidate that nothing accounts for any more.
  lemma RetryCanLoseLink(req: Request, v: Version, now: Time) returns (h: seq<World>)
    requires req.expected.None? && req.restoreOf.None? && req.digest.None?
    requires v.commit == req.commit && v.artifact.None?
    ensures Run(h) && |h| > 0 && h[0] == FreshWorld(true)
    ensures !Last(h).past.overwritten && Explained(Last(h).disk, Last(h).link)
    ensures Last(h).disk == Stranded(FreshState(), req, v, now)
    ensures Admissible(Last(h).disk, req, false)
    ensures !Explained(AcceptedState(Last(h).disk, req, req, now), Last(h).link)
  {
    hide SoundState, Saveable, Continues;
    FreshRun(true);
    h := StrandedRun([FreshWorld(true)], req, v, now);
    assert Sound(Last(h));
    RetryKeepsLink(Last(h).disk, req, req, now, At(v.commit));
  }

  /* ---------- What a skip may rest on ---------- */

  // A staged release whose last save reported an error after its rename.
  function Unconfirmed(d: TargetState, req: Request, v: Version, rev: Revision, now: Time): TargetState {
    UncertainState(Staged(d, req, v, rev, now), req.id, StatePersistFailed)
  }

  lemma UnconfirmedRun(h: seq<World>, req: Request, v: Version, now: Time) returns (g: seq<World>)
    requires Ready(h, req, v)
    ensures Run(g) && h <= g && |g| > 0
    ensures Last(g).disk == Unconfirmed(Last(h).disk, req, v, |Last(h).past.pairs|, now) && Last(g).link == At(v.commit)
    ensures Last(g).past.log == Last(h).past.log + [Switched(At(v.commit))]
    ensures |Last(g).past.pairs| == |Last(h).past.pairs| + 1 && Last(g).past.plain == Last(h).past.plain
    ensures !Last(g).past.clean
  {
    g := StagedRun(h, req, v, now);
    g := DoubtfulSave(g, req.id);
  }

  // The save of the last state reported an error although it landed; the release is marked.
  lemma DoubtfulSave(h: seq<World>, id: ReleaseId) returns (g: seq<World>)
    requires Run(h) && |h| > 0 && id in Last(h).disk.records && Last(h).disk.records[id].intent
    requires AtEitherEnd(Last(h).disk, Last(h).disk.records[id])
    ensures Run(g) && h <= g && |g| > 0
    ensures Last(g).disk == UncertainState(Last(h).disk, id, StatePersistFailed) && Last(g).link == Last(h).link
    ensures Last(g).past.log == Last(h).past.log && Last(g).past.pairs == Last(h).past.pairs
    ensures Last(g).past.plain == Last(h).past.plain && !Last(g).past.clean
  {
    hide SoundState, Saveable, Continues, SoundPairs;
    var w := Last(h);
    var q := w.past.(clean := false);
    assert Sound(w);
    StepPastOnly(w, q);
    RunExtended(h, World(w.disk, w.link, q));
    g := h + [World(w.disk, w.link, q)];
    assert Sound(Last(g));
    UncertainKeeps(w.disk, id, StatePersistFailed, q);
    SaveableReflexive(w.disk, q);
    SaveableThenContinues(w.disk, w.disk, UncertainState(w.disk, id, StatePersistFailed), q);
    g := Saved(g, UncertainState(w.disk, id, StatePersistFailed));
  }

  // After a failed save a skip need not mean a reload. A new request for the same commit
  // supersedes the staged release, which then waits for no nginx command any more, and is
  // skipped unless the environment refuses something -- nothing was ever reloaded.
  method SkipWithoutReload(first: Request, v: Version, req: Request, repo: nat, now: Time)
    returns (node: Node, reply: Reply)
    requires first.expected.None? && first.digest.None? && v.commit == first.commit == req.commit
    requires v.source == Git(repo) && v.artifact.None?
    requires req.id != first.id && req.expected.None? && req.restoreOf.None? && req.digest.None?
    ensures fresh(node) && node.Valid() && node.hist[0] == FreshWorld(true)
    ensures node.trouble == Trouble(0, 0) ==> Answered(reply, Skipped) && !reply.replayed
    ensures Answered(reply, Skipped) && !reply.replayed ==> forall l, ok :: Reloaded(l, ok) !in node.past.log
  {
    hide Run, SoundState, AllOrNothing, Frozen, FrozenBut, Begun, WentBack;
    FreshRun(true);
    ghost var h := UnconfirmedRun([FreshWorld(true)], first, v, now);
    node := new Node.Resumed(false, repo, Unconfirmed(FreshState(), first, v, 1, now), At(v.commit), 2, h);
    ghost var log := node.past.log;
    reply := node.Apply(req, now, true);
  }

  // What the durable state itself promises. A sound state with a completed release of the
  // current commit, or with a rollback to it, has been reloaded on it in every past that it
  // fits; without such a record it also fits a past without that reload.
  lemma PromiseOfASkip(s: TargetState, p: Past)
    requires SoundState(s, p)
    ensures ReloadRecorded(s) <==>
      forall q: Past :: q.pairs == p.pairs && SoundState(s, q) ==> Reloaded(LinkOf(s.current), true) in q.log
  {
    forall q: Past | ReloadRecorded(s) && SoundState(s, q) ensures Reloaded(LinkOf(s.current), true) in q.log {
      RecordedWasReloaded(s, q);
    }
    if !ReloadRecorded(s) {
      var e := Reloaded(LinkOf(s.current), true);
      var q := p.(log := Without(p.log, e), clean := false);
      WithoutIt(p.log, e);
      ForgottenSound(s, p);
    }
  }

  function Without(log: seq<Event>, e: Event): seq<Event> {
    if log == [] then []
    else if log[0] == e then Without(log[1..], e)
    else [log[0]] + Without(log[1..], e)
  }

  lemma {:induction false} WithoutIt(log: seq<Event>, e: Event)
    ensures forall f :: f in Without(log, e) <==> f in log && f != e
  {
    if log != [] {
      WithoutIt(log[1..], e);
      assert log == [log[0]] + log[1..];
    }
  }

  lemma ForgottenSound(s: TargetState, p: Past)
    requires SoundState(s, p) && !ReloadRecorded(s)
    ensures var e := Reloaded(LinkOf(s.current), true);
      SoundState(s, p.(log := Without(p.log, e), clean := false))
  {
    var e := Reloaded(LinkOf(s.current), true);
    var q := p.(log := Without(p.log, e), clean := false);
    WithoutIt(p.log, e);
    forall id | id in s.records ensures SoundEntry(s, id, q) {
      assert SoundEntry(s, id, p) && !ReloadedBy(s.records[id], LinkOf(s.current));
    }
  }

  /* ---------- What a batch restore leaves behind ---------- */

  // A request is let in over an unfinished release and then cannot be prepared.
  function TakenAway(d: TargetState, other: Request, now: Time): TargetState {
    FailedState(AcceptedState(d, other, other, now), other.id, PrepareFailed, now)
  }

  lemma TakenAwayRun(h: seq<World>, other: Request, now: Time) returns (g: seq<World>)
    requires Run(h) && |h| > 0 && Admissible(Last(h).disk, other, false) && other.restoreOf.None?
    ensures Run(g) && h <= g && |g| > 0
    ensures Last(g).disk == TakenAway(Last(h).disk, other, now) && Last(g).link == Last(h).link
    ensures Last(g).past.pairs == Last(h).past.pairs && Last(g).past.plain == Last(h).past.plain
    ensures exists k :: |h| <= k < |g| && g[k].disk == AcceptedState(Last(h).disk, other, other, now)
  {
    hide SoundState, Saveable, Continues, SoundPairs;
    var w, s := Last(h), AcceptedState(Last(h).disk, other, other, now);
    var q := AcceptedPast(w.past, w.disk, other.id);
    assert Sound(w);
    AcceptedKeeps(w.disk, other, other, now, w.past);
    StepPastOnly(w, q);
    RunExtended(h, World(w.disk, w.link, q));
    g := Saved(h + [World(w.disk, w.link, q)], s);
    var k := |g| - 1;
    FailedKeeps(s, other.id, PrepareFailed, now, Last(g).past);
    SaveableReflexive(s, Last(g).past);
    SaveableThenContinues(s, s, TakenAway(w.disk, other, now), Last(g).past);
    g := Saved(g, TakenAway(w.disk, other, now));
    assert g[k].disk == s;
  }

  function Completed(d: TargetState, req: Request, v: Version, rev: Revision, now: Time): TargetState {
    CommittedState(Announced(d, req, v, now), req.id, rev, now)
  }

  lemma Told(h: seq<World>, e: Event) returns (g: seq<World>)
    requires Run(h) && |h| > 0 && Fits(e, Last(h).link, Last(h).link)
    requires e.Reloaded? ==> Tested(e.link, true) in Last(h).past.log
    ensures Run(g) && h <= g && |g| > 0
    ensures |g| == |h| + 1 && Last(g) == World(Last(h).disk, Last(h).link, Logged(Last(h).past, e))
  {
    hide SoundState, Saveable;
    var w := Last(h);
    assert Sound(w);
    LoggedTested(w.past.log, e);
    StepPastOnly(w, Logged(w.past, e));
    RunExtended(h, World(w.disk, w.link, Logged(w.past, e)));
    g := h + [World(w.disk, w.link, Logged(w.past, e))];
  }

  // Switched, tested and reloaded.
  lemma ReloadedRun(h: seq<World>, req: Request, v: Version, now: Time) returns (g: seq<World>)
    requires Ready(h, req, v)
    ensures Run(g) && h <= g && |g| > |h|
    ensures Last(g).disk == Announced(Last(h).disk, req, v, now) && Last(g).link == At(v.commit)
    ensures Last(g).past.pairs == Last(h).past.pairs && Last(g).past.plain == Last(h).past.plain
    ensures ReloadedSince(Last(g).past.log, At(v.commit)) && Reloaded(At(v.commit), true) in Last(g).past.log
    ensures SoundState(Last(g).disk, Last(g).past) && Last(g).disk.revision in Last(g).past.served
  {
    hide SoundState, Saveable, Run;
    g := SwitchedRun(h, req, v, now);
    g := Told(g, Tested(At(v.commit), true));
    ghost var log := Last(g).past.log;
    g := Told(g, Reloaded(At(v.commit), true));
    ReloadedThenQuiet(log, At(v.commit), []);
    assert Last(g).past.log == log + ([Reloaded(At(v.commit), true)] + []);
    LastSound(g);
  }

  // A whole apply whose last save reported an error.
  lemma LostCommitRun(h: seq<World>, req: Request, v: Version, now: Time) returns (g: seq<World>)
    requires Ready(h, req, v)
    ensures Run(g) && h <= g && |g| > 0
    ensures Last(g).disk ==
      UncertainState(Completed(Last(h).disk, req, v, |Last(h).past.pairs|, now), req.id, StatePersistFailed)
    ensures Last(g).link == At(v.commit)
    ensures |Last(g).past.pairs| == |Last(h).past.pairs| + 1 && Last(g).past.plain == Last(h).past.plain
    ensures exists k :: |h| <= k < |g| && g[k].disk == Completed(Last(h).disk, req, v, |Last(h).past.pairs|, now)
  {
    hide SoundState, Saveable, Continues, SoundPairs, Run, ReloadedSince, Announced, AcceptedPast, Later;
    var d, t := Last(h).disk, Completed(Last(h).disk, req, v, |Last(h).past.pairs|, now);
    CompletedShape(d, req, v, |Last(h).past.pairs|, now);
    g := ReloadedRun(h, req, v, now);
    CommittedKeeps(Last(g).disk, req.id, now, Last(g).past);
    g := MovedRun(g, Pair(Some(v), d.current), true, t);
    var k := |g| - 1;
    g := DoubtfulSave(g, req.id);
    assert g[k].disk == t;
  }

  lemma CompletedShape(d: TargetState, req: Request, v: Version, rev: Revision, now: Time)
    ensures var (s, e) := (Announced(d, req, v, now), Completed(d, req, v, rev, now));
      && (forall i :: i in e.records <==> i in d.records || i == req.id) && CompleteRecord(e.records[req.id])
      && e.records[req.id].intent && e.records[req.id].candidate == Some(v) && e.current == Some(v)
      && req.id in s.records && s.records[req.id].intent && AtEitherEnd(s, s.records[req.id])
      && s.records[req.id].candidate == Some(v)
      && s.records[req.id].baseline == d.current
  {
    AnnouncedFacts(d, req, v, now);
  }

  // Five ways in which a restored batch can have left a node switched.
  datatype Doubt =
    | CommandRefused    // an nginx command was refused, and the refusal replaced the success
    | PostRefused       // a repeated POST was refused, the first one having moved the revision
    | TakenOverLater    // another client took the release over after a doubtful save
    | CommitDoubted     // the commit's save reported an error; the result is final as it is
    | RetriedLate       // a late POST was let in after a failed local rollback, and failed early

  function EndOf(doubt: Doubt, d: TargetState, body: Request, v: Version, other: Request, now: Time): TargetState {
    match doubt
    case CommandRefused => Staged(d, body, v, 2, now)
    case PostRefused => Unconfirmed(d, body, v, 2, now)
    case TakenOverLater => TakenAway(Unconfirmed(d, body, v, 2, now), other, now)
    case CommitDoubted => UncertainState(Completed(d, body, v, 2, now), body.id, StatePersistFailed)
    case RetriedLate => TakenAway(Stranded(d, body, v, now), body, now)
  }

  // What the client then holds in its file.
  function EntryOf(doubt: Doubt, d: TargetState, body: Request): Entry
    requires body.id in d.records
  {
    match doubt
    case CommandRefused =>
      Entry(body, CommandAnswered, Some(Heard(Rejected(409, NodeBusy), body.id)), None, None)
    case PostRefused => Entry(body, TurnedAway, None, None, None)
    case TakenOverLater => Entry(body, ResultSaved, Some(Seen(d.records[body.id])), None, None)
    case CommitDoubted => Entry(body, NeedsRecovery, Some(Seen(d.records[body.id])), None, None)
    case RetriedLate => Entry(body, ResultSaved, Some(Seen(d.records[body.id])), None, None)
  }

  lemma EndRun(doubt: Doubt, h: seq<World>, body: Request, v: Version, other: Request, now: Time)
    returns (g: seq<World>)
    requires Ready(h, body, v) && |Last(h).past.pairs| == 2 && body.restoreOf.None? && body.digest.None?
    requires Plain(other) && other.id !in Last(h).disk.records && other.id != body.id
    ensures Run(g) && h <= g && |g| > 0
    ensures Last(g).disk == EndOf(doubt, Last(h).disk, body, v, other, now) && Last(g).link == At(v.commit)
    ensures |Last(g).past.pairs| == (if doubt.RetriedLate? then 2 else 3)
    ensures Last(g).past.plain == Last(h).past.plain
  {
    hide SoundState, SoundPairs, Saveable, Continues, Run, Sound;
    match doubt {
      case CommandRefused => g := StagedRun(h, body, v, now);
      case PostRefused => g := UnconfirmedRun(h, body, v, now);
      case TakenOverLater =>
        g := UnconfirmedRun(h, body, v, now);
        g := TakenAwayRun(g, other, now);
      case CommitDoubted => g := LostCommitRun(h, body, v, now);
      case RetriedLate =>
        g := StrandedRun(h, body, v, now);
        g := TakenAwayRun(g, body, now);
    }
  }

  // A request that carries no condition.
  predicate Plain(req: Request) {
    req.expected.None? && req.restoreOf.None? && req.digest.None?
  }

  predicate FourIds(a: ReleaseId, b: ReleaseId, c: ReleaseId, d: ReleaseId) {
    a != b && a != c && a != d && b != c && b != d && c != d
  }

  // The end leaves `latest` on the update. Of the five entries only the last is not doubtful:
  // the node's record is the one that a release without any switch would have left.
  ghost predicate LeftOn(doubt: Doubt, d: TargetState, body: Request, v: Version, other: Request, undo: ReleaseId,
                         now: Time)
    requires body.id !in d.records && other.id !in d.records && undo !in d.records
    requires body.id != other.id && body.id != undo && other.id != undo
  {
    var e := EndOf(doubt, d, body, v, other, now);
    && undo !in e.records && body.id in e.records && e.records[body.id].fingerprint == body
    && (if doubt.RetriedLate? then
          && e.current == d.current && e.active == None && !e.recovery
          && e.records[body.id] == TakenAway(d, body, now).records[body.id]
          && e.records[body.id].result.status == Failed && !e.records[body.id].intent
        else e.current == Some(v) && e.records[body.id].candidate == Some(v))
    && (doubt.PostRefused? ==> e.revision == 2 && DuplicateReply(e, body).None?)
    && var entry := EntryOf(doubt, e, body);
       && (Doubtful(entry) <==> !doubt.RetriedLate?) && Resolved(entry)
       && (entry.result.Some? ==>
             entry.result.value.status in {Failed, RecoveryRequired} && Confirmed(e, body.id, entry.result.value))
       && entry.request == body && entry.phase != NodePhase.Prepared
       && entry.restoreRequest.None? && entry.restoreResult.None?
  }

  lemma StagedFacts(d: TargetState, body: Request, v: Version, other: Request, undo: ReleaseId, now: Time)
    requires body.id !in d.records && other.id !in d.records && undo !in d.records
    requires body.id != other.id && body.id != undo && other.id != undo
    ensures LeftOn(CommandRefused, d, body, v, other, undo, now)
    ensures LeftOn(PostRefused, d, body, v, other, undo, now)
  {
    AnnouncedFacts(d, body, v, now);
    hide Announced;
  }

  lemma TakenOverFacts(d: TargetState, body: Request, v: Version, other: Request, undo: ReleaseId, now: Time)
    requires body.id !in d.records && other.id !in d.records && undo !in d.records
    requires body.id != other.id && body.id != undo && other.id != undo
    ensures LeftOn(TakenOverLater, d, body, v, other, undo, now)
  {
    AnnouncedFacts(d, body, v, now);
    hide Announced;
  }

  lemma CommitFacts(d: TargetState, body: Request, v: Version, other: Request, undo: ReleaseId, now: Time)
    requires body.id !in d.records && other.id !in d.records && undo !in d.records
    requires body.id != other.id && body.id != undo && other.id != undo
    ensures LeftOn(CommitDoubted, d, body, v, other, undo, now)
  {
    AnnouncedFacts(d, body, v, now);
    hide Announced;
  }

  lemma RetriedFacts(d: TargetState, body: Request, v: Version, other: Request, undo: ReleaseId, now: Time)
    requires body.id !in d.records && other.id !in d.records && undo !in d.records
    requires body.id != other.id && body.id != undo && other.id != undo
    ensures LeftOn(RetriedLate, d, body, v, other, undo, now)
  {
    AnnouncedFacts(d, body, v, now);
    hide Announced;
  }

  lemma EndFacts(doubt: Doubt, d: TargetState, body: Request, v: Version, other: Request, undo: ReleaseId, now: Time)
    requires body.id !in d.records && other.id !in d.records && undo !in d.records
    requires body.id != other.id && body.id != undo && other.id != undo
    ensures LeftOn(doubt, d, body, v, other, undo, now)
  {
    match doubt {
      case CommandRefused => StagedFacts(d, body, v, other, undo, now);
      case PostRefused => StagedFacts(d, body, v, other, undo, now);
      case TakenOverLater => TakenOverFacts(d, body, v, other, undo, now);
      case CommitDoubted => CommitFacts(d, body, v, other, undo, now);
      case RetriedLate => RetriedFacts(d, body, v, other, undo, now);
    }
  }

  lemma AnnouncedFacts(d: TargetState, body: Request, v: Version, now: Time)
    ensures var s := Announced(d, body, v, now);
      && (forall i :: i in s.records <==> i in d.records || i == body.id)
      && s.records[body.id].fingerprint == body && s.records[body.id].request == body
      && s.records[body.id].candidate == Some(v)
      && PairOf(s) == PairOf(d) && s.revision == d.revision && s.active == Some(body.id)
  {
  }

  // A client whose batch of one node ended as restored although it sent no restore.
  method Forget(node: Node, ghost n: nat, before: Before, body: Request, undo: ReleaseId, e: Entry)
    returns (client: Client)
    requires node.Valid() && ReadAt(node, n, before)
    requires body.expected == Some(before.revision) && body.restoreOf.None? && body.id != undo
    requires body.id in node.disk.records ==> node.disk.records[body.id].fingerprint == body
    requires undo !in node.disk.records && Resolved(e) && e.request == body
    requires e.result.Some? ==>
      e.result.value.status in {Failed, RecoveryRequired} && Confirmed(node.disk, body.id, e.result.value)
    requires e.phase != NodePhase.Prepared && e.restoreRequest.None? && e.restoreResult.None?
    ensures fresh(client) && client.Valid() && client.nodes == [node] && client.updateIds == [body.id]
    ensures client.before == [before] && client.file == File(Restored, None, [e])
  {
    hide Run, SoundState;
    var sent: map<ReleaseId, Request> := map[body.id := body];
    client := new Client.Resumed([node], [before], [n], false, false, [body.id], [undo],
                                 File(Restored, None, [e]), [sent]);
  }

  // "A restored batch has put every updated node back" is false for each of them: the batch
  // is restored, no restore was sent, and `latest` is still on the update. Four entries are
  // doubtful. The fifth is not, and no reader of file and records can tell: the node never
  // moved its current version, and the record is that of a release that switched nothing.
  method RestoreForgets(doubt: Doubt, first: Request, v0: Version, body: Request, v: Version, other: Request,
                        undo: ReleaseId, now: Time)
    returns (node: Node, client: Client)
    requires first.expected.None? && first.digest.None? && v0.commit == first.commit && v0.artifact.None?
    requires body.expected == Some(1) && body.restoreOf.None? && body.digest.None?
    requires v.commit == body.commit && v.artifact.None? && Plain(other) && v.commit != v0.commit
    requires FourIds(first.id, body.id, other.id, undo)
    ensures fresh(node) && node.Valid() && node.hist[0] == FreshWorld(true)
    ensures fresh(client) && client.Valid() && client.nodes == [node] && client.updateIds == [body.id]
    ensures client.before == [Before(1, Some(v0))]
    ensures client.file.phase == Restored && |client.file.entries| == 1
    ensures Doubtful(client.file.entries[0]) <==> !doubt.RetriedLate?
    ensures node.link == At(v.commit) && body.id in node.disk.records && undo !in node.disk.records
    ensures !doubt.RetriedLate? ==>
      node.disk.current == Some(v) && node.disk.records[body.id].candidate == Some(v)
    ensures doubt.PostRefused? ==>
      DuplicateReply(node.disk, body).None? && body.expected.value != node.disk.revision  // 409, revision conflict
    ensures doubt.RetriedLate? ==>
      && node.disk.current == Some(v0) && node.disk.active == None && !node.disk.recovery
      && exists k :: 0 <= k < |node.hist| && node.hist[k].disk.current == Some(v0)
           && node.disk.records[body.id] == TakenAway(node.hist[k].disk, body, now).records[body.id]
  {
    hide Run, SoundState, EndOf, EntryOf, Doubtful, Resolved, Confirmed;
    FreshRun(true);
    ghost var h := StagedRun([FreshWorld(true)], first, v0, now);
    var d := Staged(FreshState(), first, v0, 1, now);
    ghost var g := EndRun(doubt, h, body, v, other, now);
    EndFacts(doubt, d, body, v, other, undo, now);
    var e := EndOf(doubt, d, body, v, other, now);
    node := new Node.Resumed(false, 0, e, At(v.commit), if doubt.RetriedLate? then 2 else 3, g);
    assert g[|h| - 1] == Last(h);
    client := Forget(node, |h| - 1, Before(1, Some(v0)), body, undo, EntryOf(doubt, e, body));
    assert node.hist[|h| - 1].disk == d;
  }

  /* ---------- Results reported as complete ---------- */

  lemma CommitDoubtedShape(d: TargetState, id: ReleaseId, other: Request, now: Time)
    requires id in d.records && CompleteRecord(d.records[id]) && other.id !in d.records && Plain(other)
    ensures var e := UncertainState(d, id, StatePersistFailed);
      && id in e.records && e.active == Some(id) && Admissible(e, other, false)
      && e.records[id].result.phase == Complete && e.records[id].result.status == RecoveryRequired
      && id in TakenAway(e, other, now).records
      && TakenAway(e, other, now).records[id] == SupersededRecord(e.records[id], now)
  {
  }

  // The save of a commit reports an error after its rename. For an instant the record is a
  // complete success, then it is in doubt with the same phase, and the next request of
  // another client ends it as superseded.
  lemma CompleteResultChanges(req: Request, v: Version, other: Request, now: Time)
    returns (h: seq<World>, i: nat, j: nat)
    requires Plain(req) && Plain(other) && req.id != other.id && v.commit == req.commit && v.artifact.None?
    ensures Run(h) && |h| > 0 && h[0] == FreshWorld(true) && i < j < |h| - 1
    ensures req.id in h[i].disk.records && CompleteRecord(h[i].disk.records[req.id])
    ensures req.id in h[j].disk.records && h[j].disk.records[req.id].result.phase == Complete
    ensures h[j].disk.records[req.id].result.status == RecoveryRequired && h[j].disk.active == Some(req.id)
    ensures Admissible(h[j].disk, other, false)
    ensures req.id in Last(h).disk.records
    ensures Last(h).disk.records[req.id] == SupersededRecord(h[j].disk.records[req.id], now)
  {
    hide Run, SoundState, Completed, UncertainState, TakenAway, Admissible;
    FreshRun(true);
    var g := LostCommitRun([FreshWorld(true)], req, v, now);
    i :| 1 <= i < |g| && g[i].disk == Completed(FreshState(), req, v, 1, now);
    CompletedShape(FreshState(), req, v, 1, now);
    var d := Completed(FreshState(), req, v, 1, now);
    CommitDoubtedShape(d, req.id, other, now);
    j := |g| - 1;
    h := TakenAwayRun(g, other, now);
  }

  /* ---------- Commands ---------- */

  // The two steps of a restore that come before its first nginx command.
  lemma PutBackRun(h: seq<World>, id: ReleaseId, v: Version) returns (g: seq<World>)
    requires Run(h) && |h| > 0 && id in Last(h).disk.records
    requires Last(h).disk.records[id].intent && Last(h).disk.records[id].baseline == Some(v)
    ensures Run(g) && |g| == |h| + 2 && h <= g
    ensures Last(g) == World(Last(h).disk, At(v.commit),
                             Logged(Logged(Last(h).past, Checked(Some(v), true)), Switched(At(v.commit))))
  {
    hide SoundState, Saveable, Run;
    g := Told(h, Checked(Some(v), true));
    LastSound(g);
    IntentExplains(Last(g).disk, id);
    StepSwitch(Last(g), At(v.commit));
    var w := World(Last(g).disk, At(v.commit), Logged(Last(g).past, Switched(At(v.commit))));
    RunExtended(g, w);
    g := g + [w];
  }

  // The abort of a staged release is cut off after it has put the link back. No release is
  // marked as active, and the startup looks at the stored version only: `latest` stays on
  // the version of before, and the stored current version stays the new one.
  method AbortCutShort(first: Request, v0: Version, body: Request, v: Version, now: Time)
    returns (node: Node, ghost n: nat)
    requires first.expected.None? && first.digest.None? && v0.commit == first.commit && v0.artifact.None?
    requires body.expected.None? && body.digest.None? && v.commit == body.commit && v.artifact.None?
    requires first.id != body.id && v.commit != v0.commit
    ensures fresh(node) && node.Valid() && node.hist[0] == FreshWorld(true) && n + 2 < |node.hist|
    ensures var (a, b) := (node.hist[n], node.hist[n + 2]);
      && node.CanAbort(a.disk, a.link, body.id) && a.disk.active == None
      && b == World(a.disk, LinkOf(a.disk.records[body.id].baseline),
                    Logged(Logged(a.past, Checked(Some(v0), true)), Switched(At(v0.commit))))
    ensures node.disk.active == None && node.disk.current == Some(v) && node.link == At(v0.commit)
  {
    hide Run, SoundState, Saveable, Staged, Frozen, AllOrNothing;
    FreshRun(true);
    ghost var h := StagedRun([FreshWorld(true)], first, v0, now);
    var d := Staged(FreshState(), first, v0, 1, now);
    StagedShape(FreshState(), first, v0, 1, now);
    h := StagedRun(h, body, v, now);
    StagedShape(d, body, v, 2, now);
    n := |h| - 1;
    ghost var g := PutBackRun(h, body.id, v0);
    node := new Node.Resumed(false, 0, Staged(d, body, v, 2, now), At(v0.commit), 3, g);
    assert g[n] == Last(h) && g[n + 2] == Last(g);
    var _ := node.Restart(now, node.disk, body.id);
  }

  // Three releases are staged: `v`, another version, and `v` once more. A command finds its
  // release by commit and source, so that the first one may still be aborted, and the abort
  // takes the target back past all three.
  method AbortGoesBack(first: Request, v: Version, second: Request, w: Version, third: Request, now: Time)
    returns (node: Node, reply: Reply)
    requires Plain(first) && Plain(second) && Plain(third)
    requires v.commit == first.commit == third.commit && w.commit == second.commit && v.commit != w.commit
    requires v.artifact.None? && w.artifact.None?
    requires first.id != second.id && first.id != third.id && second.id != third.id
    ensures fresh(node) && node.Valid() && node.hist[0] == FreshWorld(true)
    ensures node.trouble == Trouble(0, 0) ==> Answered(reply, Failed) && !reply.replayed
    ensures Answered(reply, Failed) && !reply.replayed ==>
      PairOf(node.disk) == Pair(None, None) && node.link == Absent
  {
    hide Run, SoundState, Saveable, Staged, Frozen, InHand, OnlyAt;
    FreshRun(true);
    ghost var h := StagedRun([FreshWorld(true)], first, v, now);
    var d1 := Staged(FreshState(), first, v, 1, now);
    StagedShape(FreshState(), first, v, 1, now);
    h := StagedRun(h, second, w, now);
    var d2 := Staged(d1, second, w, 2, now);
    StagedShape(d1, second, w, 2, now);
    h := StagedRun(h, third, v, now);
    var d3 := Staged(d2, third, v, 3, now);
    StagedShape(d2, third, v, 3, now);
    node := new Node.Resumed(false, 0, d3, At(v.commit), 4, h);
    assert node.CanAbort(d3, At(v.commit), first.id);
    reply := node.Abort(first.id, now);
  }

  // A release that was switched and failed nginx -t, and whose local rollback was refused.
  function Halted(d: TargetState, req: Request, v: Version, now: Time): TargetState {
    UncertainState(InPhase(Announced(d, req, v, now), req.id, Phase.NginxTest), req.id, RecoveryFailed)
  }

  lemma HaltedRun(h: seq<World>, req: Request, v: Version, now: Time) returns (g: seq<World>)
    requires Ready(h, req, v)
    ensures Run(g) && h <= g && |g| > 0
    ensures Last(g).disk == Halted(Last(h).disk, req, v, now) && Last(g).link == At(v.commit)
    ensures Last(g).past.pairs == Last(h).past.pairs && Last(g).past.plain == Last(h).past.plain
  {
    hide SoundState, Saveable, Continues;
    var s := Announced(Last(h).disk, req, v, now);
    var t := InPhase(s, req.id, Phase.NginxTest);
    g := SwitchedRun(h, req, v, now);
    InPhaseKeeps(s, req.id, Phase.NginxTest, Last(g).past);
    SaveableReflexive(s, Last(g).past);
    SaveableThenContinues(s, s, t, Last(g).past);
    g := Saved(g, t);
    g := Told(g, Tested(At(v.commit), false));
    LastSound(g);
    UncertainKeeps(t, req.id, RecoveryFailed, Last(g).past);
    SaveableReflexive(t, Last(g).past);
    SaveableThenContinues(t, t, Halted(Last(h).disk, req, v, now), Last(g).past);
    g := Saved(g, Halted(Last(h).disk, req, v, now));
  }

  lemma HaltedShape(d: TargetState, req: Request, v: Version, now: Time)
    ensures var e := Halted(d, req, v, now);
      && PairOf(e) == PairOf(d) && e.revision == d.revision && e.active == Some(req.id)
      && (forall i :: i in e.records <==> i in d.records || i == req.id)
      && var r := e.records[req.id];
         && r.intent && r.candidate == Some(v) && OldPair(r) == PairOf(d) && !HasMoved(r)
         && r.result.before == d.revision && r.fingerprint == req
         && r.result.phase == Phase.NginxTest && r.result.status == RecoveryRequired
  {
  }

  // A release that is staged over an unfinished one.
  lemma StagedOverShape(d: TargetState, req: Request, v: Version, rev: Revision, now: Time, i: ReleaseId)
    requires d.active == Some(i) && i in d.records && i != req.id && !d.records[i].result.Terminal()
    ensures var e := Staged(d, req, v, rev, now);
      && e.current == Some(v) && e.previous == d.current && e.revision == rev && e.active == None
      && i in e.records && e.records[i] == SupersededRecord(d.records[i], now)
      && req.id in e.records && e.records[req.id].fingerprint == req
      && e.records[req.id].result.after == rev && e.records[req.id].result.before == d.revision
  {
  }

  // Two releases expect revision 1. `a` is switched, but its test fails and its rollback is
  // refused; the revision is still 1, so `b`, of the same commit, is let in, supersedes `a`
  // and moves the target.
  function Overtaken(first: Request, v0: Version, a: Request, b: Request, v: Version, now: Time): TargetState {
    Staged(Halted(Staged(FreshState(), first, v0, 1, now), a, v, now), b, v, 2, now)
  }

  predicate Rivals(first: Request, v0: Version, a: Request, b: Request, v: Version) {
    && first.digest == a.digest == b.digest == None
    && first.expected.None? && v0.commit == first.commit && v0.artifact.None?
    && a.expected == b.expected == Some(1) && v.commit == a.commit == b.commit && v.artifact.None?
    && first.id != a.id && first.id != b.id && a.id != b.id
  }

  lemma OvertakenShape(first: Request, v0: Version, a: Request, b: Request, v: Version, now: Time)
    requires Rivals(first, v0, a, b, v)
    ensures var d := Overtaken(first, v0, a, b, v, now);
      && PairOf(d) == Pair(Some(v), Some(v0)) && d.revision == 2 && d.active == None
      && a.id in d.records && d.records[a.id].fingerprint == a && MayMoveSecond(d, a.id)
      && d.records[a.id].intent && d.records[a.id].candidate == Some(v)
      && OldPair(d.records[a.id]) == Pair(Some(v0), None)
      && d.records[a.id].result.phase == Phase.NginxTest && d.records[a.id].result.code == Superseded
      && b.id in d.records && d.records[b.id].fingerprint == b && Owns(d, b.id)
  {
    hide Staged, Halted;
    var d1 := Staged(FreshState(), first, v0, 1, now);
    StagedShape(FreshState(), first, v0, 1, now);
    HaltedShape(d1, a, v, now);
    StagedOverShape(Halted(d1, a, v, now), b, v, 2, now, a.id);
  }

  lemma OvertakenRun(first: Request, v0: Version, a: Request, b: Request, v: Version, now: Time)
    returns (h: seq<World>)
    requires Rivals(first, v0, a, b, v)
    ensures Run(h) && |h| > 0 && h[0] == FreshWorld(true)
    ensures Last(h).disk == Overtaken(first, v0, a, b, v, now) && Last(h).link == At(v.commit)
    ensures |Last(h).past.pairs| == 3 && Last(h).past.plain
  {
    hide Run, SoundState, Saveable, Staged, Halted;
    FreshRun(true);
    h := StagedRun([FreshWorld(true)], first, v0, now);
    var d1 := Staged(FreshState(), first, v0, 1, now);
    StagedShape(FreshState(), first, v0, 1, now);
    h := HaltedRun(h, a, v, now);
    HaltedShape(d1, a, v, now);
    h := StagedRun(h, b, v, now);
  }

  lemma OnlyAtTransitive(d: TargetState, e: TargetState, f: TargetState, id: ReleaseId)
    requires OnlyAt(d, e, id) && OnlyAt(e, f, id)
    ensures OnlyAt(d, f, id)
  {
  }

  // nginx -t, and if it passes the abort or the reload.
  method TestThen(node: Node, id: ReleaseId, abort: bool, now: Time) returns (tested: Reply, reply: Reply)
    requires node.Valid() && id in node.disk.records && node.CanTest(node.disk, node.link, id)
    requires node.up && !node.blocked
    modifies node
    ensures node.Valid() && old(node.hist) <= node.hist
    ensures OnlyAt(old(node.disk), node.disk, id)
    ensures node.trouble == old(node.trouble) ==>
      && Owns(node.disk, id) && node.disk.revision > old(node.disk).revision
      && PairOf(node.disk) == EndPair(old(node.disk).records[id], abort)
  {
    hide SoundState, Run, Frozen, InHand, OnlyAt, TestedState, InPhase, Reach, Owns, OwnsAlone;
    TestedIsReady(node, node.disk, node.link, id, now);
    OnlyAtReflexive(node.disk, id);
    tested := node.NginxTest(id, now);
    reply := tested;
    if Answered(tested, Succeeded) && !tested.replayed {
      ghost var e := node.disk;
      ghost var k, m, o;
      reply, k, m, o := CommandReaches(node, if abort then AbortCommand else ReloadCommand, id, now);
      OnlyAtTransitive(old(node.disk), e, node.disk, id);
    }
  }

  // A command never looks at the status of its release. `a` is still in phase nginx_test, so
  // it can be tested after all, and then either its reload makes it the second of the two to
  // move the target, or its abort puts the pair of revision 1 back and the update of `b`
  // is lost.
  method SecondMoverRun(first: Request, v0: Version, a: Request, b: Request, v: Version, abort: bool, now: Time)
    returns (node: Node, tested: Reply, reply: Reply)
    requires Rivals(first, v0, a, b, v)
    ensures fresh(node) && node.Valid() && node.hist[0] == FreshWorld(true)
    ensures exists k :: 0 <= k < |node.hist| && Owns(node.hist[k].disk, b.id) && node.hist[k].disk.revision == 2
    ensures a.id in node.disk.records && node.disk.records[a.id].fingerprint == a
    ensures b.id in node.disk.records && node.disk.records[b.id].fingerprint == b
    ensures node.trouble == Trouble(0, 0) ==>
      && HasMoved(node.disk.records[b.id]) && Owns(node.disk, a.id) && node.disk.revision > 2
      && PairOf(node.disk) == if abort then Pair(Some(v0), None) else Pair(Some(v), Some(v0))
  {
    hide Run, SoundState, Overtaken;
    ghost var h := OvertakenRun(first, v0, a, b, v, now);
    var d := Overtaken(first, v0, a, b, v, now);
    OvertakenShape(first, v0, a, b, v, now);
    node := new Node.Resumed(false, 0, d, At(v.commit), 3, h);
    tested, reply := TestThen(node, a.id, abort, now);
    assert node.hist[|h| - 1] == Last(h);
  }

  // A command looks at its release only after it has opened the target's directory. If that
  // fails the release is marked for recovery, whatever its state. Exactly for a release that
  // the current version belongs to no more, the marked state is one that no operation leaves
  // otherwise; and exactly a settled record does not survive.
  lemma UnopenedCommand(s: TargetState, p: Past, id: ReleaseId)
    requires SoundState(s, p) && id in s.records && s.records[id].intent
    ensures SoundState(UncertainState(s, id, TargetUnavailable), p) <==> AtEitherEnd(s, s.records[id])
    ensures Frozen(s, UncertainState(s, id, TargetUnavailable)) <==> !Settled(s.records[id])
  {
    if AtEitherEnd(s, s.records[id]) {
      UncertainKeeps(s, id, TargetUnavailable, p);
    }
  }

  // Such a release, the first of three. The rollback that the next startup attempts, as
  // `latest` is not on its candidate, would take the target back past all of them.
  lemma StaleCommand(first: Request, v: Version, second: Request, w: Version, third: Request, x: Version, now: Time)
    returns (h: seq<World>)
    requires Plain(first) && Plain(second) && Plain(third)
    requires v.commit == first.commit && w.commit == second.commit && x.commit == third.commit
    requires v.commit != x.commit && v.artifact.None? && w.artifact.None? && x.artifact.None?
    requires first.id != second.id && first.id != third.id && second.id != third.id
    ensures Run(h) && |h| > 0 && h[0] == FreshWorld(true)
    ensures Last(h).disk.current == Some(x) && Last(h).link == At(x.commit)
    ensures first.id in Last(h).disk.records && !AtEitherEnd(Last(h).disk, Last(h).disk.records[first.id])
    ensures var t := UncertainState(Last(h).disk, first.id, TargetUnavailable);
      && t.active == Some(first.id) && Last(h).link != LinkOf(t.records[first.id].candidate)
      && PairOf(RolledBackState(t, first.id, 4, Interrupted, now)) == Pair(None, None)
  {
    hide Run, SoundState, Saveable, Staged;
    FreshRun(true);
    h := StagedRun([FreshWorld(true)], first, v, now);
    var d1 := Staged(FreshState(), first, v, 1, now);
    StagedShape(FreshState(), first, v, 1, now);
    h := StagedRun(h, second, w, now);
    var d2 := Staged(d1, second, w, 2, now);
    StagedShape(d1, second, w, 2, now);
    h := StagedRun(h, third, x, now);
    StagedShape(d2, third, x, 3, now);
  }
}
