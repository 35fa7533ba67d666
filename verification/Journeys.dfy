/** Whole journeys of a target: crashes at any instant, commands in sequence, competing
    clients. Each method runs operations of a Node; its contract is the theorem. */
module Journeys {
  import opened Release
  import opened State
  import opened Protocol
  import opened Transitions
  import opened Outcomes
  import opened Publisher
  import opened Runs

  /* ---------- All or nothing ---------- */

  // The old triple, or the requested commit on top of the old current version.
  ghost predicate OldOrNew(d: TargetState, e: TargetState, l: Link, req: Request) {
    || (PairOf(e) == PairOf(d) && l == LinkOf(d.current))
    || (req.id in e.records
        && PairOf(e) == Pair(e.records[req.id].candidate, d.current)
        && LinkOf(e.current) == l == At(req.commit))
  }

  lemma SettledOldOrNew(d: TargetState, e: TargetState, l: Link, req: Request, p: Past)
    requires AllOrNothing(d, e, l, req.id) && e.active == None && SoundState(e, p)
    requires AskedOrUntouched(d, e, l, req)
    ensures OldOrNew(d, e, l, req)
  {
  }

  // The record under the request's id is the request's own, or its id was taken and the
  // target has not moved.
  predicate AskedOrUntouched(d: TargetState, e: TargetState, l: Link, req: Request) {
    || (req.id in e.records ==> e.records[req.id].fingerprint == req)
    || (e.active == None && PairOf(e) == PairOf(d) && l == LinkOf(d.current))
  }

  lemma NoOldFlag(d: TargetState, e: TargetState, l: Link, id: ReleaseId)
    requires AllOrNothing(d, e, l, id) && e.active == None && e.current.None?
    ensures e.recovery ==> d.recovery
  {
  }

  // One release on an idle target, with power cuts and failing startups wherever the
  // environment likes, the release itself and the startups included. As soon as a startup
  // is refused nothing, the target is settled and is exactly as before, or exactly switched.
  // Only an empty target keeps the flag it was registered with. A startup that finds `latest`
  // on the candidate may also be refused one action of its activation (`mended`).
  method CrashAnywhere(node: Node, req: Request, now: Time, deferred: bool)
    returns (reply: Reply, ghost undisturbed: bool, ghost mended: bool)
    requires node.Valid() && Idle(node.disk, node.link)
    modifies node
    ensures node.Valid() && old(node.hist) <= node.hist
    ensures AllOrNothing(old(node.disk), node.disk, node.link, req.id)
    ensures undisturbed ==>
      && node.up && node.disk.active == None
      && (node.disk.recovery ==> old(node.disk).recovery && node.disk.current.None?)
      && OldOrNew(old(node.disk), node.disk, node.link, req)
    ensures mended ==>
      && node.up && node.disk.active == None && !node.disk.recovery
      && OldOrNew(old(node.disk), node.disk, node.link, req)
  {
    hide SoundState, Run, AllOrNothing, Frozen, Later, FrozenBut, Admissible, SwitchedCodes;
    ghost var d := node.disk;
    reply := node.Apply(req, now, deferred);
    AskedAfter(d, node.hist, |old(node.hist)| - 1, req, node.frontend);
    var cuts: nat := *;
    while cuts > 0
      invariant node.Valid() && old(node.hist) <= node.hist
      invariant AllOrNothing(d, node.disk, node.link, req.id) && AskedOrUntouched(d, node.disk, node.link, req)
    {
      ghost var h := node.hist;
      var hit: bool := *;
      if hit {
        node.PowerCut();
      } else {
        var later: Time := *;
        var _ := node.Restart(later, d, req.id);
        AskedKept(node.hist, |h| - 1, req);
      }
      cuts := cuts - 1;
    }
    ghost var e, l, h, trouble, log := node.disk, node.link, node.hist, node.trouble, node.past.log;
    var started := node.Restart(now, d, req.id);
    undisturbed := node.trouble == trouble;
    mended := node.up && node.trouble == After(trouble, false) && node.past.log != log
      && MarkedSwitched(e) && l == LinkOf(e.records[e.active.value].candidate);
    AskedKept(node.hist, |h| - 1, req);
    node.LiveWorld();
    if undisturbed || mended {
      SettledOldOrNew(d, node.disk, node.link, req, node.past);
      if e.active == None && e.current.None? {
        NoOldFlag(d, e, l, req.id);
      }
    }
  }

  lemma AskedAfter(d: TargetState, h: seq<World>, i: nat, req: Request, frontend: bool)
    requires Run(h) && i < |h| && h[i].disk == d && Idle(d, h[i].link)
    requires FrozenBut(Origin(d, req), h[|h| - 1].disk, req.id)
    requires !Admissible(d, req, frontend) ==> h[|h| - 1].disk == d && h[|h| - 1].link == h[i].link
    ensures AskedOrUntouched(d, h[|h| - 1].disk, h[|h| - 1].link, req)
  {
    hide Run;
    if req.id in d.records {
      RecordsLast(h, i, |h| - 1, req.id);
    }
  }

  lemma AskedKept(h: seq<World>, i: nat, req: Request)
    requires Run(h) && i < |h|
    ensures var (d, e) := (h[i].disk, h[|h| - 1].disk);
      (req.id in d.records ==> d.records[req.id].fingerprint == req)
      && (req.id in e.records ==> req.id in d.records)
      ==> (req.id in e.records ==> e.records[req.id].fingerprint == req)
  {
    hide Run;
    if req.id in h[i].disk.records {
      RecordsLast(h, i, |h| - 1, req.id);
    }
  }

  /* ---------- Undo ---------- */

  // The pair and the link of before a release: under a revision never used before if the
  // switch had to be undone, under the old one if there was none.
  predicate BackAt(d: TargetState, m: Link, e: TargetState, l: Link) {
    && PairOf(e) == PairOf(d)
    && ((l == LinkOf(d.current) && e.revision > d.revision) || (l == m && e.revision == d.revision))
  }

  predicate StagedOn(d: TargetState, e: TargetState, l: Link, id: ReleaseId) {
    && id in e.records && e.records[id].intent && IsCurrentOn(e, l, id)
    && OldPair(e.records[id]) == PairOf(d) && NewPair(e.records[id]) == PairOf(e)
    && e.revision > d.revision
  }

  predicate IsCurrentOn(e: TargetState, l: Link, id: ReleaseId) {
    id in e.records && e.records[id].candidate.Some? && e.current == e.records[id].candidate && l == LinkOf(e.current)
  }

  ghost predicate CanSwitch(node: Node, req: Request)
    reads node
  {
    node.up && !node.blocked && LinkOf(node.disk.current) != At(req.commit)
  }

  predicate OneRefusal(a: Trouble, b: Trouble) {
    b.refused <= a.refused + 1 && b.unsaved == a.unsaved
  }

  method StageStep(node: Node, req: Request, now: Time) returns (staged: bool, reply: Reply)
    requires node.Valid() && Admissible(node.disk, req, node.frontend)
    modifies node
    ensures node.Valid() && old(node.hist) <= node.hist
    ensures staged ==>
      && StagedOn(old(node.disk), node.disk, node.link, req.id) && node.link == At(req.commit)
      && node.disk.records[req.id].result.phase == LatestSwitched
      && reply == Answer(node.disk.records[req.id], 200, false) && Answered(reply, Succeeded)
    ensures Answered(reply, Failed) && !reply.replayed ==>
      BackAt(old(node.disk), old(node.link), node.disk, node.link)
    ensures Answered(reply, Succeeded) && !reply.replayed ==> staged
    ensures node.trouble == old(node.trouble) && old(CanSwitch(node, req)) ==> staged && node.up && !node.blocked
    ensures Grew(old(node.trouble), node.trouble) && Ended(reply)
    ensures Excused(old(node.trouble), node.trouble, reply, 2)
  {
    hide SoundState, Run, Frozen, FrozenBut, AllOrNothing, Refusal, Later, SwitchedCodes;
    reply := node.Apply(req, now, true);
    staged := reply.Answer? && !reply.replayed && reply.record.result.status == Succeeded;
    node.LiveWorld();
    if staged {
      RecordNamed(node.disk, req.id, node.past);
      BaselineIsFound(node.disk, req, node.past);
    }
  }

  lemma BaselineIsFound(e: TargetState, req: Request, p: Past)
    requires SoundState(e, p) && req.id in e.records
    ensures e.records[req.id].candidate.Some? ==>
      e.records[req.id].candidate.value.commit == e.records[req.id].request.commit
    ensures e.records[req.id].result.status == Succeeded ==> e.records[req.id].intent
  {
  }

  // Stage, then perhaps nginx -t, then abort or reload. Whichever of them undoes the
  // release, the state of before it is back; otherwise the candidate stands on top of it.
  method StageThenCommands(node: Node, req: Request, now: Time, test: bool, abort: bool) returns (reply: Reply)
    requires node.Valid() && Admissible(node.disk, req, node.frontend)
    modifies node
    ensures node.Valid() && old(node.hist) <= node.hist
    ensures Answered(reply, Failed) && !reply.replayed ==>
      BackAt(old(node.disk), old(node.link), node.disk, node.link)
    ensures Answered(reply, Succeeded) && !reply.replayed ==>
      && PairOf(node.disk) == Pair(reply.record.candidate, old(node.disk).current)
      && node.link == At(req.commit) && node.disk.revision > old(node.disk).revision
    // Without a refusal it ends as its last command says.
    ensures node.trouble == old(node.trouble) && old(CanSwitch(node, req)) ==>
      if abort then Answered(reply, Failed) && node.disk.revision > old(node.disk).revision
      else Answered(reply, Succeeded) && (test ==> CompleteRecord(reply.record))
    // One refused action that is not a save -- a failing switch, test, reload or check --
    // never leaves it in doubt: it is undone, or it was not needed.
    ensures !abort && node.up && OneRefusal(old(node.trouble), node.trouble) && reply.Answer? && !reply.replayed ==>
      Answered(reply, Failed) || Answered(reply, Succeeded) || Answered(reply, Skipped)
  {
    hide SoundState, Run, Admissible, CommandEnded;
    var staged;
    staged, reply := StageStep(node, req, now);
    if staged && (test || abort) {
      ghost var d := node.disk;
      reply := CommandStaged(node, req.id, now, test, abort);
      CommandsEnd(old(node.disk), d, node.disk, node.link, req.id, reply);
    }
  }

  // How test, reload or abort of the staged release `id` of d may end.
  predicate CommandEnded(d: TargetState, e: TargetState, l: Link, id: ReleaseId, reply: Reply) {
    && id in d.records
    && (Answered(reply, Failed) && !reply.replayed ==>
          PairOf(e) == OldPair(d.records[id]) && l == LinkOf(d.records[id].baseline) && e.revision > d.revision)
    && (Answered(reply, Succeeded) && !reply.replayed ==>
          && PairOf(e) == NewPair(d.records[id]) && l == LinkOf(d.records[id].candidate) && e.revision >= d.revision
          && SameRelease(reply.record, d.records[id]))
  }

  lemma CommandsEnd(c: TargetState, d: TargetState, e: TargetState, l: Link, id: ReleaseId, reply: Reply)
    requires StagedOn(c, d, LinkOf(d.current), id) && CommandEnded(d, e, l, id, reply)
    ensures Answered(reply, Failed) && !reply.replayed ==>
      PairOf(e) == PairOf(c) && l == LinkOf(c.current) && e.revision > c.revision
    ensures Answered(reply, Succeeded) && !reply.replayed ==>
      PairOf(e) == Pair(reply.record.candidate, c.current) && l == LinkOf(d.current) && e.revision > c.revision
  {
  }

  method CommandStaged(node: Node, id: ReleaseId, now: Time, test: bool, abort: bool) returns (reply: Reply)
    requires node.Valid() && id in node.disk.records && (test || abort)
    requires IsCurrentOn(node.disk, node.link, id) && node.disk.records[id].intent
    requires NewPair(node.disk.records[id]) == PairOf(node.disk)
    requires node.disk.records[id].result.phase == LatestSwitched
    modifies node
    ensures node.Valid() && old(node.hist) <= node.hist
    ensures CommandEnded(old(node.disk), node.disk, node.link, id, reply) && Ended(reply)
    ensures node.trouble == old(node.trouble) && old(node.up && !node.blocked) ==>
      if abort then Answered(reply, Failed) && !reply.replayed
      else Answered(reply, Succeeded) && CompleteRecord(reply.record) && !reply.replayed
    ensures Grew(old(node.trouble), node.trouble)
    ensures !abort ==> Excused(old(node.trouble), node.trouble, reply, 2)
  {
    hide SoundState, Run, Frozen, OnlyAt, InHand;
    if test {
      reply := node.NginxTest(id, now);
      if !(reply.Answer? && !reply.replayed && reply.record.result.status == Succeeded) {
        return;
      }
    }
    if abort {
      reply := node.Abort(id, now);
    } else {
      reply := node.NginxReload(id, now);
    }
  }

  /* ---------- Commands that are cut short ---------- */

  // A command may be cut off, and a startup follows. If a switched release was marked active,
  // or pair and link were still in step, an undisturbed startup leaves them in step. Otherwise
  // it does not: it looks at the stored snapshot only, and `latest` stays where it was.
  method CommandThenStartup(node: Node, id: ReleaseId, kind: nat, now: Time)
    returns (ghost e: TargetState, ghost l: Link, ghost undisturbed: bool)
    requires node.Valid() && id in node.disk.records
    modifies node
    ensures node.Valid() && old(node.hist) <= node.hist
    ensures InHand(old(node.disk), e, l, id) || (e == old(node.disk) && l == old(node.link))
    ensures undisturbed ==>
      (node.link == LinkOf(node.disk.current) <==> MarkedSwitched(e) || l == LinkOf(e.current))
  {
    hide SoundState, Run, Frozen, OnlyAt, AllOrNothing;
    if kind == 0 {
      var _ := node.NginxTest(id, now);
    } else if kind == 1 {
      var _ := node.NginxReload(id, now);
    } else {
      var _ := node.Abort(id, now);
    }
    ghost var trouble := node.trouble;
    e, l := node.disk, node.link;
    var _ := node.Restart(now, node.disk, id);
    undisturbed := node.trouble == trouble;
  }

  /* ---------- How far commands and startups reach ---------- */

  datatype Command = TestCommand | ReloadCommand | AbortCommand

  method RunCommand(node: Node, c: Command, id: ReleaseId, now: Time) returns (reply: Reply)
    requires node.Valid() && id in node.disk.records
    modifies node
    ensures node.Valid() && old(node.hist) <= node.hist
    ensures OnlyAt(old(node.disk), node.disk, id) && Grew(old(node.trouble), node.trouble)
    ensures Answered(reply, Failed) && !reply.replayed ==>
      node.CommandUndone(old(node.disk), node.disk, node.link, id, reply)
    ensures c.ReloadCommand? && Answered(reply, Succeeded) && !reply.replayed ==>
      node.CommandDone(old(node.disk), node.disk, node.link, id, reply)
    ensures reply.Answer? && !reply.replayed ==> old(node.disk).records[id].result.phase != RolledBack
    ensures node.trouble == old(node.trouble) && old(node.up && !node.blocked) ==>
      && (c.ReloadCommand? && node.CanReload(old(node.disk), old(node.link), id) ==>
            Answered(reply, Succeeded) && !reply.replayed)
      && (c.AbortCommand? && node.CanAbort(old(node.disk), old(node.link), id) ==>
            Answered(reply, Failed) && !reply.replayed)
  {
    hide SoundState, Run, Frozen, OnlyAt, InHand;
    OnlyAtReflexive(node.disk, id);
    match c {
      case TestCommand => reply := node.NginxTest(id, now);
      case ReloadCommand => reply := node.NginxReload(id, now);
      case AbortCommand => reply := node.Abort(id, now);
    }
  }

  // A passed test leaves a release that may be aborted or reloaded.
  lemma TestedIsReady(node: Node, d: TargetState, l: Link, id: ReleaseId, now: Time)
    requires id in d.records && node.CanTest(d, l, id)
    ensures var e := TestedState(InPhase(d, id, Phase.NginxTest), id, now);
      && node.CanAbort(e, l, id) && node.CanReload(e, l, id) && OnlyAt(d, e, id) && e.revision == d.revision
      && OldPair(e.records[id]) == OldPair(d.records[id]) && NewPair(e.records[id]) == NewPair(d.records[id])
      && e.records[id].request == d.records[id].request
      && e.records[id].result.digest == d.records[id].result.digest
      && e.records[id].result.status == Succeeded && e.records[id].result.phase == NginxTestSucceeded
  {
  }

  lemma OnlyAtOnlyMoves(d: TargetState, e: TargetState, id: ReleaseId)
    requires OnlyAt(d, e, id)
    ensures OnlyMoves(d, e, id)
  {
  }

  function EndPair(r: Record, undone: bool): Pair {
    if undone then OldPair(r) else NewPair(r)
  }

  // The command has moved the target: it went back, or a reload has completed.
  predicate CommandMoved(c: Command, reply: Reply) {
    !reply.Rejected? && !reply.Lost? && !reply.replayed
    && (Answered(reply, Failed) || (c.ReloadCommand? && Answered(reply, Succeeded)))
  }

  // A command that moves the target installs the pair of before its release, or the
  // release's own. If the release's revision is still the target's, that concerns the
  // release alone: pair and revision have stood since k, when they were installed. Otherwise,
  // and only then, it also overrides the move of another release `o`, made at m after k.
  method CommandReaches(node: Node, c: Command, id: ReleaseId, now: Time)
    returns (reply: Reply, ghost k: nat, ghost m: nat, ghost o: ReleaseId)
    requires node.Valid() && id in node.disk.records
    modifies node
    ensures node.Valid() && old(node.hist) <= node.hist
    ensures OnlyAt(old(node.disk), node.disk, id) && Grew(old(node.trouble), node.trouble)
    ensures CommandMoved(c, reply) ==>
      && Owns(node.disk, id) && node.disk.revision > old(node.disk).revision && node.link == LinkOf(node.disk.current)
      && PairOf(node.disk) == EndPair(old(node.disk).records[id], Answered(reply, Failed))
    ensures node.trouble == old(node.trouble) && old(node.up && !node.blocked) ==>
      && (c.ReloadCommand? && node.CanReload(old(node.disk), old(node.link), id) ==>
            CommandMoved(c, reply) && Answered(reply, Succeeded))
      && (c.AbortCommand? && node.CanAbort(old(node.disk), old(node.link), id) ==> CommandMoved(c, reply))
    ensures Reach(old(node.hist), id, k, m, o)
    ensures old(node.disk).records[id].result.after == old(node.disk).revision && CommandMoved(c, reply) ==>
      PairOf(old(node.disk)) == InstalledPair(old(node.disk).records[id])
    ensures old(node.disk).records[id].result.phase == LatestSwitched ==> HasMoved(old(node.disk).records[id])
  {
    hide SoundState, Run, OnlyAt, OwnsAlone, Reach;
    k, m, o := ReachOf(node.hist, id);
    node.LiveWorld();
    RecordNamed(node.disk, id, node.past);
    RevisionPair(node.disk, node.past);
    reply := RunCommand(node, c, id, now);
    if CommandMoved(c, reply) {
      node.LiveWorld();
      RecordNamed(node.disk, id, node.past);
    }
  }

  // What the revision that a record reports was drawn for, unless it was rolled back.
  function InstalledPair(r: Record): Pair {
    if HasMoved(r) then NewPair(r) else OldPair(r)
  }

  // At k the revision that `id` reports was installed. It stands at the end of h, and its pair
  // has stood since; or else another release `o` was the next to move, at m.
  ghost predicate Reach(h: seq<World>, id: ReleaseId, k: nat, m: nat, o: ReleaseId) {
    && k < |h| && id in h[|h| - 1].disk.records
    && var (e, r) := (h[|h| - 1].disk, h[|h| - 1].disk.records[id].result.after);
       && h[k].disk.revision == r && (k == 0 || h[k - 1].disk.revision < r)
       && (if r == e.revision then forall n :: k <= n < |h| ==> PairOf(h[n].disk) == PairOf(e)
           else k < m < |h| && o != id && OwnsAlone(h[m].disk, o)
                && h[m - 1].disk.revision == r < h[m].disk.revision)
  }

  lemma ReachOf(h: seq<World>, id: ReleaseId) returns (k: nat, m: nat, o: ReleaseId)
    requires Run(h) && |h| > 0 && id in h[|h| - 1].disk.records
    ensures Reach(h, id, k, m, o)
  {
    hide Run;
    k, m, o := MovedSince(h, |h| - 1, id);
  }

  lemma RevisionPair(s: TargetState, p: Past)
    requires SoundState(s, p)
    ensures s.revision < |p.pairs| && p.pairs[s.revision] == PairOf(s)
  {
  }

  // Release `id`, which expects revision r, moves the target for the first time at some
  // instant from n on, and off another revision.
  ghost predicate MovesSecond(h: seq<World>, n: nat, id: ReleaseId, r: Revision) {
    exists q :: n <= q < |h| && FirstMove(h, q, id) && h[q - 1].disk.revision != r
  }

  // From n on no release with an expected revision but `id` moves for the first time.
  ghost predicate OnlyFirst(h: seq<World>, n: nat, id: ReleaseId) {
    forall q, x, e :: n <= q < |h| && FirstMove(h, q, x) && Expects(h, q, x, e) ==> x == id
  }

  // The state from which an operation on `id` is bound to do that, if it moves the target.
  predicate MayMoveSecond(d: TargetState, id: ReleaseId) {
    id in d.records && !HasMoved(d.records[id]) && d.records[id].result.before != d.revision
  }

  // A command on a release that expects r: nothing but that release moves, and it makes a
  // second move exactly if it has not moved yet and the target has, and the command moves.
  method CommandMovesSecond(node: Node, c: Command, id: ReleaseId, r: Revision, now: Time) returns (reply: Reply)
    requires node.Valid() && id in node.disk.records && node.disk.records[id].fingerprint.expected == Some(r)
    modifies node
    ensures node.Valid() && old(node.hist) <= node.hist
    ensures OnlyFirst(node.hist, |old(node.hist)|, id)
    ensures MovesSecond(node.hist, |old(node.hist)|, id, r) <==>
      MayMoveSecond(old(node.disk), id) && node.disk.revision != old(node.disk).revision
    ensures CommandMoved(c, reply) ==> node.disk.revision != old(node.disk).revision
    ensures node.trouble == old(node.trouble) && old(node.up && !node.blocked) ==>
      && (c.ReloadCommand? && node.CanReload(old(node.disk), old(node.link), id) ==> CommandMoved(c, reply))
      && (c.AbortCommand? && node.CanAbort(old(node.disk), old(node.link), id) ==> CommandMoved(c, reply))
  {
    hide SoundState, Run, OnlyAt, OnlyMoves, FirstMove;
    ghost var d, h := node.disk, node.hist;
    reply := RunCommand(node, c, id, now);
    OnlyAtOnlyMoves(d, node.disk, id);
    OperationMoves(node.hist, |h| - 1, id, r);
  }

  // The same for a startup, which works on the release that is marked as active.
  method StartupMovesSecond(node: Node, id: ReleaseId, r: Revision, now: Time) returns (ghost undisturbed: bool)
    requires node.Valid() && node.disk.active == Some(id)
    requires id in node.disk.records && node.disk.records[id].fingerprint.expected == Some(r)
    modifies node
    ensures node.Valid() && old(node.hist) <= node.hist
    ensures OnlyFirst(node.hist, |old(node.hist)|, id)
    ensures MovesSecond(node.hist, |old(node.hist)|, id, r) <==>
      MayMoveSecond(old(node.disk), id) && node.disk.revision != old(node.disk).revision
    ensures undisturbed && old(node.disk).records[id].intent ==> node.disk.revision != old(node.disk).revision
  {
    hide SoundState, Run, OnlyAt, OnlyMoves, FirstMove, AllOrNothing, Frozen;
    ghost var d, h, trouble := node.disk, node.hist, node.trouble;
    OnlyAtReflexive(node.disk, id);
    var _ := node.Restart(now, d, id);
    undisturbed := node.trouble == trouble;
    OnlyAtOnlyMoves(d, node.disk, id);
    OperationMoves(node.hist, |h| - 1, id, r);
  }

  lemma OperationMoves(h: seq<World>, n: nat, id: ReleaseId, r: Revision)
    requires Run(h) && Expects(h, n, id, r) && OnlyMoves(h[n].disk, h[|h| - 1].disk, id)
    ensures OnlyFirst(h, n + 1, id)
    ensures MovesSecond(h, n + 1, id, r) <==>
      MayMoveSecond(h[n].disk, id) && h[n].disk.revision != h[|h| - 1].disk.revision
  {
    hide Run, OnlyMoves;
    forall q, x, e | n < q < |h| && FirstMove(h, q, x) && Expects(h, q, x, e) ensures x == id {
      MovesOfOne(h, n, id, q, x, e);
    }
    if h[n].disk.revision != h[|h| - 1].disk.revision {
      SecondMove(h, n, id, r);
    } else {
      forall q | n < q < |h| && FirstMove(h, q, id) ensures false {
        RunLater(h, n, q - 1);
        RunLater(h, q - 1, q);
        RunLater(h, q, |h| - 1);
      }
    }
  }

  predicate RollsElsewhere(d: TargetState) {
    CanRollBack(d) && LinkOf(d.current) != LinkOf(d.previous)
  }

  // A staged rollback that is tested, reloaded and so completed.
  method ActivateRollback(node: Node, id: ReleaseId, now: Time) returns (done: bool)
    requires node.Valid() && id in node.disk.records && node.disk.records[id].intent
    requires NewPair(node.disk.records[id]) == PairOf(node.disk) && IsCurrentOn(node.disk, node.link, id)
    requires node.disk.records[id].result.phase == LatestSwitched
    modifies node
    ensures node.Valid() && old(node.hist) <= node.hist
    ensures done ==>
      && id in node.disk.records && CompleteRecord(node.disk.records[id])
      && node.disk.records[id].result.activation == ReloadRequested
      && node.disk.records[id].result.after == node.disk.revision
      && SameRelease(node.disk.records[id], old(node.disk).records[id])
      && PairOf(node.disk) == PairOf(old(node.disk)) && node.link == LinkOf(node.disk.current)
      && node.disk.revision > old(node.disk).revision
    ensures done ==> forall i :: i in node.disk.records ==> i in old(node.disk).records
    ensures node.trouble == old(node.trouble) && old(node.up && !node.blocked) ==> done && node.up && !node.blocked
    ensures Grew(old(node.trouble), node.trouble)
  {
    hide SoundState, Run, Frozen, InHand, Excused;
    done := false;
    var reply := node.NginxTest(id, now);
    if !(reply.Answer? && !reply.replayed && reply.record.result.status == Succeeded) {
      return;
    }
    reply := node.NginxReload(id, now);
    done := reply.Answer? && !reply.replayed && reply.record.result.status == Succeeded;
  }

  // A rollback taken through test and reload can be rolled back in its turn.
  method RollBackAndActivate(node: Node, freshId: ReleaseId, now: Time) returns (done: bool)
    requires node.Valid() && freshId !in node.disk.records
    modifies node
    ensures node.Valid() && old(node.hist) <= node.hist
    ensures done ==>
      && CanRollBack(old(node.disk)) && CanRollBack(node.disk)
      && PairOf(node.disk) == Pair(old(node.disk).previous, old(node.disk).current)
      && node.link == LinkOf(node.disk.current) && node.disk.revision > old(node.disk).revision
    ensures done ==> forall i :: i in node.disk.records ==> i in old(node.disk).records || i == freshId
    ensures node.trouble == old(node.trouble) && old(node.up && !node.blocked && RollsElsewhere(node.disk)) ==>
      done && node.up && !node.blocked
    ensures Grew(old(node.trouble), node.trouble)
  {
    hide SoundState, Run, Frozen, AllOrNothing;
    done := false;
    var reply := node.RollbackCurrent(freshId, now);
    if reply.Answer? && !reply.replayed && reply.record.result.status == Succeeded {
      done := ActivateRollback(node, freshId, now);
      assert done ==> Undoable(node.disk.records[freshId], node.disk);
    }
  }

  method RollBackTwice(node: Node, first: ReleaseId, second: ReleaseId, now: Time) returns (done: bool)
    requires node.Valid() && first !in node.disk.records && second !in node.disk.records && first != second
    modifies node
    ensures node.Valid() && old(node.hist) <= node.hist
    ensures done ==>
      && PairOf(node.disk) == PairOf(old(node.disk)) && node.link == LinkOf(old(node.disk).current)
      && node.disk.revision > old(node.disk).revision
    ensures node.trouble == old(node.trouble) && old(node.up && !node.blocked && RollsElsewhere(node.disk)) ==> done
  {
    hide SoundState, Run, CanRollBack;
    done := RollBackAndActivate(node, first, now);
    if done {
      done := RollBackAndActivate(node, second, now);
    }
  }

  /* ---------- Other clients ---------- */

  // Every release in `mine` that a node knows was made for the one body sent under its id.
  ghost predicate Bound(d: TargetState, sent: map<ReleaseId, Request>, mine: set<ReleaseId>) {
    forall i :: i in mine && i in d.records ==> i in sent && d.records[i].fingerprint == sent[i]
  }

  lemma BoundKept(h: seq<World>, i: nat, e: TargetState, sent: map<ReleaseId, Request>, mine: set<ReleaseId>)
    requires Run(h) && i < |h| && h[|h| - 1].disk == e && Bound(h[i].disk, sent, mine)
    requires forall q :: q in mine && q in e.records && q !in h[i].disk.records ==>
      q in sent && e.records[q].fingerprint == sent[q]
    ensures Bound(e, sent, mine)
  {
    hide Run;
    forall q | q in mine && q in e.records ensures q in sent && e.records[q].fingerprint == sent[q] {
      if q in h[i].disk.records {
        RecordsLast(h, i, |h| - 1, q);
      }
    }
  }

  // Whatever may happen to a node while we are not looking: power cuts, startups, requests
  // and commands of other clients, and late or repeated deliveries of requests in `sent`.
  // Others do not invent ids in `mine`.
  method Disturb(node: Node, sent: map<ReleaseId, Request>, mine: set<ReleaseId>)
    requires node.Valid() && Bound(node.disk, sent, mine)
    modifies node
    ensures node.Valid() && old(node.hist) <= node.hist && Bound(node.disk, sent, mine)
    ensures Frozen(old(node.disk), node.disk)
  {
    hide SoundState, Run, AllOrNothing, Begun, Later, Bound;
    FrozenReflexive(node.disk);
    var rounds: nat := *;
    ghost var d0 := node.disk;
    while rounds > 0
      invariant node.Valid() && old(node.hist) <= node.hist && Bound(node.disk, sent, mine)
      invariant Frozen(d0, node.disk)
    {
      ghost var d := node.disk;
      Disturbance(node, sent, mine);
      FrozenTransitive(d0, d, node.disk);
      rounds := rounds - 1;
    }
  }

  lemma FrozenTransitive(d: TargetState, e: TargetState, f: TargetState)
    requires Frozen(d, e) && Frozen(e, f)
    ensures Frozen(d, f)
  {
  }

  method Disturbance(node: Node, sent: map<ReleaseId, Request>, mine: set<ReleaseId>)
    requires node.Valid() && Bound(node.disk, sent, mine)
    modifies node
    ensures node.Valid() && old(node.hist) <= node.hist && Bound(node.disk, sent, mine)
    ensures Frozen(old(node.disk), node.disk)
  {
    hide SoundState, Run, AllOrNothing, Begun, Later, Bound, Settled, Refusal;
    FrozenReflexive(node.disk);
    ghost var h := node.hist;
    var id: ReleaseId, now: Time, kind: nat := *, *, *;
    if kind == 0 {
      node.PowerCut();
    } else if kind == 1 {
      var _ := node.Restart(now, node.disk, id);
    } else if kind == 2 {
      var req: Request, deferred: bool := *, *;
      if req.id !in mine || (req.id in sent && req == sent[req.id]) {
        var _ := node.Apply(req, now, deferred);
      }
    } else if kind == 3 {
      var _ := node.NginxTest(id, now);
    } else if kind == 4 {
      var _ := node.NginxReload(id, now);
    } else if kind == 5 {
      var _ := node.Abort(id, now);
    } else if id !in mine && id !in node.disk.records {
      var _ := node.RollbackCurrent(id, now);
    }
    BoundKept(node.hist, |h| - 1, node.disk, sent, mine);
  }

  // Requests that carry the same revision, delivered in any order with anything in between.
  // Over the whole history at most one release takes the target off that revision, commands
  // and startups included; and the calls themselves move it only off that revision, so at
  // most one of them does. A first move off another revision is left to commands and startups.
  method Race(node: Node, reqs: seq<Request>, r: Revision, now: Time) returns (moved: nat, ghost calls: seq<bool>)
    requires node.Valid() && forall q :: q in reqs ==> q.expected == Some(r)
    modifies node
    ensures node.Valid() && old(node.hist) <= node.hist
    ensures moved <= 1
    ensures LeftByOne(node.hist, r) && CallsLeave(node.hist, calls, r)
  {
    hide SoundState, Run, AllOrNothing, Begun, Frozen, FrozenBut, WentBack, WentForward, CallsLeave, FirstMove, Later,
         Refusal, EndsWith;
    moved, calls := 0, seq(|node.hist|, i => false);
    NoCalls(node.hist, [], calls, r);
    for n := 0 to |reqs|
      invariant node.Valid() && old(node.hist) <= node.hist
      invariant moved <= 1 && (moved == 1 ==> node.disk.revision > r)
      invariant |calls| == |node.hist| && CallsLeave(node.hist, calls, r)
    {
      ghost var h := node.hist;
      Disturb(node, map[], {});
      RunLater(node.hist, |h| - 1, |node.hist| - 1);
      NoCalls(node.hist, h, calls, r);
      calls := calls + seq(|node.hist| - |h|, i => false);
      ghost var g, d := node.hist, node.disk;
      var before, deferred: bool := node.disk.revision, *;
      var _ := node.Apply(reqs[n], now, deferred);
      RunLater(node.hist, |g| - 1, |node.hist| - 1);
      ApplyLeaves(d, g, node.hist, reqs[n], node.frontend, calls, r);
      calls := calls + seq(|node.hist| - |g|, i => true);
      if node.disk.revision != before {
        moved := moved + 1;
      }
    }
    OneLeavesIt(node.hist, r);
  }

  // At most one release makes its first move off revision r, at one instant.
  ghost predicate LeftByOne(h: seq<World>, r: Revision) {
    forall i, j, a, b :: FirstMoveOff(h, i, a, r) && FirstMoveOff(h, j, b, r) ==> i == j && a == b
  }

  ghost predicate FirstMoveOff(h: seq<World>, k: nat, id: ReleaseId, r: Revision) {
    FirstMove(h, k, id) && h[k - 1].disk.revision == r
  }

  lemma OneLeavesIt(h: seq<World>, r: Revision)
    requires Run(h)
    ensures LeftByOne(h, r)
  {
    hide Run;
    forall i, j, a, b | FirstMoveOff(h, i, a, r) && FirstMoveOff(h, j, b, r) ensures i == j && a == b {
      OneLeaves(h, i, j, a, b);
    }
  }

  // At the instants marked in `calls` no release that expects r moves first off another
  // revision.
  ghost predicate CallsLeave(h: seq<World>, calls: seq<bool>, r: Revision) {
    && |calls| == |h|
    && (forall q, x :: 0 <= q < |h| && calls[q] && FirstMove(h, q, x) && Expects(h, q, x, r) ==>
          h[q - 1].disk.revision == r)
  }

  // Longer histories, without a call in what is new.
  lemma NoCalls(h: seq<World>, g: seq<World>, calls: seq<bool>, r: Revision)
    requires g <= h
    requires if g == [] then |calls| == |h| && (forall q :: 0 <= q < |h| ==> !calls[q]) else CallsLeave(g, calls, r)
    ensures g == [] ==> CallsLeave(h, calls, r)
    ensures g != [] ==> CallsLeave(h, calls + seq(|h| - |g|, i => false), r)
  {
    if g != [] {
      var more := calls + seq(|h| - |g|, i => false);
      forall q, x | 0 <= q < |h| && more[q] && FirstMove(h, q, x) && Expects(h, q, x, r)
        ensures h[q - 1].disk.revision == r
      {
        assert q < |g| && h[q] == g[q] && h[q - 1] == g[q - 1];
        assert FirstMove(g, q, x) && Expects(g, q, x, r);
      }
    }
  }

  lemma ApplyLeaves(d: TargetState, g: seq<World>, h: seq<World>, req: Request, frontend: bool, calls: seq<bool>,
                    r: Revision)
    requires Run(h) && g <= h && |g| > 0 && g[|g| - 1].disk == d && req.expected == Some(r)
    requires CallsLeave(g, calls, r) && FrozenBut(Origin(d, req), h[|h| - 1].disk, req.id)
    requires !Admissible(d, req, frontend) ==> h == g
    ensures CallsLeave(h, calls + seq(|h| - |g|, i => true), r)
  {
    hide Run;
    var more := calls + seq(|h| - |g|, i => true);
    NoCalls(h, g, calls, r);
    assert OnlyMoves(d, h[|h| - 1].disk, req.id);
    assert h[|g| - 1] == g[|g| - 1];
    forall q, x | 0 <= q < |h| && more[q] && FirstMove(h, q, x) && Expects(h, q, x, r)
      ensures h[q - 1].disk.revision == r
    {
      if q < |g| {
        assert (calls + seq(|h| - |g|, i => false))[q];
      } else {
        MovesOfOne(h, |g| - 1, req.id, q, x, r);
      }
    }
  }

  /* ---------- Results reported as complete ---------- */

  // A success, a skip or a failure reported with phase complete stays as it is, whatever
  // other clients, crashes, startups and late deliveries do.
  method CompleteStays(node: Node, id: ReleaseId, sent: map<ReleaseId, Request>, mine: set<ReleaseId>)
    requires node.Valid() && Bound(node.disk, sent, mine)
    requires id in node.disk.records && node.disk.records[id].result.phase == Complete
    requires node.disk.records[id].result.status != RecoveryRequired
    modifies node
    ensures node.Valid() && old(node.hist) <= node.hist && Bound(node.disk, sent, mine)
    ensures id in node.disk.records && node.disk.records[id] == old(node.disk).records[id]
  {
    hide SoundState, Run, Bound;
    node.LiveWorld();
    RecordNamed(node.disk, id, node.past);
    Disturb(node, sent, mine);
  }

  // `req` is let in and ends the doubt about `id`: it takes the release over, or retries it.
  predicate EndsDoubt(d: TargetState, req: Request, id: ReleaseId, frontend: bool) {
    && id in d.records && d.records[id].result.status == RecoveryRequired
    && Admissible(d, req, frontend) && (req.id == id || d.active == Some(id))
  }

  predicate OutOfDoubt(e: TargetState, id: ReleaseId) {
    id in e.records && e.records[id].result.status != RecoveryRequired
  }

  lemma RequestAdmissible(d: TargetState, req: Request, id: ReleaseId, frontend: bool)
    ensures EndsDoubt(d, req, id, frontend) ==> Admissible(d, req, frontend)
  {
  }

  lemma DoubtEnded(d: TargetState, e: TargetState, p: Past, req: Request, id: ReleaseId, frontend: bool)
    requires SoundState(d, p) && id in d.records && d.records[id].result.phase == Complete && id in e.records
    requires FrozenBut(Origin(d, req), e, req.id) && (!Admissible(d, req, frontend) ==> e == d)
    ensures e.records[id] != d.records[id] ==> EndsDoubt(d, req, id, frontend)
    ensures e.records[id] != d.records[id] && req.id != id ==> TakenFrom(d, id, e.records[id])
    ensures EndsDoubt(d, req, id, frontend) && OutOfDoubt(e, req.id) ==> e.records[id] != d.records[id]
  {
    hide Effective, RestoreAllowed, DigestAgrees;
    RecordNamed(d, id, p);
    hide SoundState;
  }

  // A result reported with phase complete changes with the next request only if it is in
  // doubt and the request takes the release over or retries it; and then it does change,
  // unless the environment refuses something.
  method CompleteUntilRequest(node: Node, id: ReleaseId, req: Request, now: Time, deferred: bool) returns (reply: Reply)
    requires node.Valid() && id in node.disk.records && node.disk.records[id].result.phase == Complete
    modifies node
    ensures node.Valid() && old(node.hist) <= node.hist && id in node.disk.records
    ensures node.disk.records[id] != old(node.disk).records[id] ==> EndsDoubt(old(node.disk), req, id, node.frontend)
    ensures node.trouble == old(node.trouble) && old(node.up && !node.blocked) ==>
      (node.disk.records[id] != old(node.disk).records[id] <==> EndsDoubt(old(node.disk), req, id, node.frontend))
    ensures node.disk.records[id] != old(node.disk).records[id] && req.id != id ==>
      TakenFrom(old(node.disk), id, node.disk.records[id])
  {
    hide SoundState, Run, Frozen, AllOrNothing, Begun, FrozenBut, EndsDoubt, TakenFrom, Admissible, WentBack, Settled;
    ghost var h, p := node.hist, node.past;
    node.LiveWorld();
    reply := node.Apply(req, now, deferred);
    RecordsLast(node.hist, |h| - 1, |node.hist| - 1, id);
    DoubtEnded(old(node.disk), node.disk, p, req, id, node.frontend);
    RequestAdmissible(old(node.disk), req, id, node.frontend);
    if node.trouble == old(node.trouble) && old(node.up && !node.blocked && Admissible(node.disk, req, node.frontend)) {
      assert OutOfDoubt(node.disk, req.id);
    }
  }

  // A startup changes such a result exactly if it finds it active, which it is only in doubt.
  method CompleteUntilStartup(node: Node, id: ReleaseId, now: Time) returns (ghost undisturbed: bool)
    requires node.Valid() && id in node.disk.records && node.disk.records[id].result.phase == Complete
    modifies node
    ensures node.Valid() && old(node.hist) <= node.hist && id in node.disk.records
    ensures old(node.disk).active == Some(id) ==> old(node.disk).records[id].result.status == RecoveryRequired
    ensures node.disk.records[id] != old(node.disk).records[id] ==> old(node.disk).active == Some(id)
    ensures undisturbed ==>
      (node.disk.records[id] != old(node.disk).records[id] <==> old(node.disk).active == Some(id))
  {
    hide SoundState, Run, Frozen, AllOrNothing;
    node.LiveWorld();
    RecordNamed(node.disk, id, node.past);
    if node.disk.active.Some? {
      ActiveRecord(node.disk, node.past);
    }
    ghost var trouble := node.trouble;
    var _ := node.Restart(now, node.disk, id);
    undisturbed := node.trouble == trouble;
  }
}
