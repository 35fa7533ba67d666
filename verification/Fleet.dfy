/** One publisher process with many targets: which directories it may own
    (internal/config/load.go, internal/infrastructure/fsutil/fs.go) and how release ids
    are shared out among the targets' records (internal/application/publisher/runner.go). */
module Fleet {
  import opened Release
  import opened State
  import opened Protocol
  import opened Outcomes
  import opened Publisher
  import opened Journeys

  /* ---------- Paths ---------- */

  // A canonical absolute path, by its components.
  type Path = seq<string>

  predicate IsComponent(c: string) {
    c != "" && c != "." && c != ".." && '/' !in c
  }

  predicate IsCanonical(p: Path) {
    forall c :: c in p ==> IsComponent(c)
  }

  // filepath.Rel: leave the common part, climb out of the rest of `from`, descend to `to`.
  function RelParts(from: Path, to: Path): Path {
    if from != [] && to != [] && from[0] == to[0] then RelParts(from[1..], to[1..])
    else Climb(|from|) + to
  }

  function Climb(n: nat): Path {
    if n == 0 then [] else [".."] + Climb(n - 1)
  }

  function Join(parts: Path): string {
    if parts == [] then "."
    else if |parts| == 1 then parts[0]
    else parts[0] + "/" + Join(parts[1..])
  }

  // fsutil.Within, on the text of the relative path.
  predicate Within(parent: Path, child: Path) {
    var rel := Join(RelParts(parent, child));
    rel != ".." && !("../" <= rel)
  }

  // Within is the order of component prefixes: "/a/..b" and "/a/bc" are no exceptions.
  lemma {:induction false} WithinIsPrefix(parent: Path, child: Path)
    requires IsCanonical(parent) && IsCanonical(child)
    ensures Within(parent, child) <==> parent <= child
  {
    if parent != [] && child != [] && parent[0] == child[0] {
      WithinIsPrefix(parent[1..], child[1..]);
      assert parent <= child <==> parent[1..] <= child[1..] by {
        assert parent == [parent[0]] + parent[1..] && child == [child[0]] + child[1..];
      }
    } else if parent == [] {
      assert RelParts(parent, child) == child;
      DescendsOnly(child);
    } else {
      var rel := RelParts(parent, child);
      assert rel[0] == "..";
      if |rel| > 1 {
        assert Join(rel) == ".." + "/" + Join(rel[1..]);
        assert "../" <= Join(rel);
      }
    }
  }

  // A path that only descends never reads as one that climbs.
  lemma DescendsOnly(p: Path)
    requires IsCanonical(p)
    ensures Join(p) != ".." && !("../" <= Join(p))
  {
    if p != [] {
      var head, text := p[0], Join(p);
      assert IsComponent(head) && (forall k :: 0 <= k < |head| ==> text[k] == head[k] && head[k] != '/');
      assert |head| == 2 ==> head == [text[0], text[1]];
      assert |p| > 1 ==> text == head + ("/" + Join(p[1..])) && text[|head|] == '/';
      if "../" <= text {
        ClimbsAt(text);
      }
    }
  }

  lemma ClimbsAt(text: string)
    requires "../" <= text
    ensures |text| >= 3 && text[0] == '.' && text[1] == '.' && text[2] == '/'
  {
  }

  /* ---------- Targets ---------- */

  datatype Kind = Config | Whitelist | Frontend

  // The id of a target is a digest, taken to be injective, of its environment and directory.
  datatype TargetId = TargetId(env: string, dir: Path)

  function KindName(k: Kind): string {
    match k case Config => "config" case Whitelist => "whitelist" case Frontend => "frontend_static"
  }

  // resolvePaths
  function DirOf(dest: Path, kind: Kind, server: string): Path {
    if kind == Frontend then dest + [server] else dest + [KindName(kind), server]
  }

  predicate Apart(a: Path, b: Path) {
    !(a <= b) && !(b <= a)
  }

  predicate AllApart(ids: set<TargetId>) {
    forall t, u :: t in ids && u in ids && t != u ==> Apart(t.dir, u.dir)
  }

  lemma OneMoreApart(ids: set<TargetId>, id: TargetId)
    requires AllApart(ids) && forall t :: t in ids ==> Apart(t.dir, id.dir)
    ensures AllApart(ids + {id})
  {
  }

  class Runner {
    const dataDir: Path
    const maxTargets: nat
    var targets: map<TargetId, Node>
    var kinds: map<TargetId, Kind>

    ghost predicate Valid()
      reads this, targets.Values
    {
      && IsCanonical(dataDir) && kinds.Keys == targets.Keys
      && (forall t :: t in targets ==> targets[t].Valid() && IsCanonical(t.dir) && Apart(t.dir, dataDir))
      && (forall t, u :: t in targets && u in targets && t != u ==> targets[t] != targets[u])
      && Antichain() && OneTargetPerRelease()
    }

    // No registered directory equals, contains or lies inside another, whatever their
    // environments and kinds.
    ghost predicate Antichain()
      reads this
    {
      AllApart(targets.Keys)
    }

    // A release id is recorded for at most one target.
    ghost predicate OneTargetPerRelease()
      reads this, targets.Values
    {
      forall t, u, id :: t in targets && u in targets && t != u && id in targets[t].disk.records ==>
        id !in targets[u].disk.records
    }

    constructor (dataDir: Path, maxTargets: nat)
      requires IsCanonical(dataDir)
      ensures Valid() && targets == map[]
    {
      this.dataDir, this.maxTargets, targets, kinds := dataDir, maxTargets, map[], map[];
    }

    // TargetForEnv and ensureTarget. `found` is what the directory's link turns out to be.
    method Register(env: string, kind: Kind, dest: Path, server: string, repo: nat,
                    dynamic: bool, occupied: bool, found: Link)
      returns (id: TargetId, ok: bool, ghost faulty: bool)
      requires Valid() && IsCanonical(dest) && IsComponent(server) && (found != Absent ==> occupied)
      modifies this
      ensures Valid()
      ensures id.env == env
      ensures id.dir == dest +
        match kind case Frontend => [server] case Config => ["config", server] case Whitelist => ["whitelist", server]
      ensures ok ==> id in targets && kinds[id] == kind
      // It is let in exactly if its directory is free and of this kind, and there is room.
      ensures !faulty ==>
        (ok <==>
          && Apart(id.dir, dataDir) && (forall t :: t in old(targets) && t != id ==> Apart(t.dir, id.dir))
          && if id in old(targets) then old(kinds)[id] == kind else !dynamic || |old(targets)| < maxTargets)
      ensures old(targets).Keys <= targets.Keys <= old(targets).Keys + {id}
      ensures forall t :: t in old(targets) ==> targets[t] == old(targets)[t] && kinds[t] == old(kinds)[t]
      ensures ok && id !in old(targets) ==>
        fresh(targets[id]) && targets[id].disk.records == map[] && targets[id].disk.current.None?
        && targets[id].disk.recovery == occupied
    {
      hide Run, Within, IsCanonical;
      id, ok, faulty := TargetId(env, DirOf(dest, kind, server)), false, false;
      DirCanonical(dest, kind, server);
      var free := Free(id);
      if !free {
        return;
      }
      if id in targets {
        ok := kinds[id] == kind;
        return;
      }
      if dynamic && |targets| >= maxTargets {
        return;
      }
      var fault, landed: bool := *, *;
      faulty := fault;
      if fault && !landed {
        return;
      }
      var node := new Node(kind == Frontend, repo, occupied, found);
      Add(id, kind, node);
      ok := !fault;
    }

    // The directory neither meets the service's own nor a registered one.
    method Free(id: TargetId) returns (free: bool)
      requires Valid() && IsCanonical(id.dir)
      ensures free <==> Apart(id.dir, dataDir) && forall t :: t in targets && t != id ==> Apart(t.dir, id.dir)
    {
      hide Run, Within, Antichain, OneTargetPerRelease, IsCanonical;
      WithinIsPrefix(dataDir, id.dir);
      WithinIsPrefix(id.dir, dataDir);
      var conflict := Conflicts(id);
      free := !Within(dataDir, id.dir) && !Within(id.dir, dataDir) && !conflict;
    }

    method Add(id: TargetId, kind: Kind, node: Node)
      requires Valid() && id !in targets && IsCanonical(id.dir) && Apart(id.dir, dataDir)
      requires forall t :: t in targets ==> Apart(t.dir, id.dir) && targets[t] != node
      requires node.Valid() && node.disk.records == map[]
      modifies this
      ensures Valid() && targets == old(targets)[id := node] && kinds == old(kinds)[id := kind]
    {
      hide Run, IsCanonical, Apart, AllApart;
      OneMoreApart(targets.Keys, id);
      targets, kinds := targets[id := node], kinds[id := kind];
      assert targets.Keys == old(targets).Keys + {id};
      forall t, u, r | t in targets && u in targets && t != u && r in targets[t].disk.records
        ensures r !in targets[u].disk.records
      {
        assert t != id;
        assert u != id ==> old(targets)[t] == targets[t] && old(targets)[u] == targets[u];
      }
    }

    lemma DirCanonical(dest: Path, kind: Kind, server: string)
      requires IsCanonical(dest) && IsComponent(server)
      ensures IsCanonical(DirOf(dest, kind, server))
    {
    }

    // The loop over r.views.
    method Conflicts(id: TargetId) returns (conflict: bool)
      requires Valid() && IsCanonical(id.dir)
      ensures conflict <==> exists t :: t in targets && t != id && !Apart(t.dir, id.dir)
    {
      hide Run, Antichain, OneTargetPerRelease, Within;
      conflict := false;
      var rest := targets.Keys;
      while rest != {}
        invariant rest <= targets.Keys
        invariant conflict <==> exists t :: t in targets && t !in rest && t != id && !Apart(t.dir, id.dir)
        decreases |rest|
      {
        var other :| other in rest;
        WithinIsPrefix(id.dir, other.dir);
        WithinIsPrefix(other.dir, id.dir);
        if other != id && (Within(id.dir, other.dir) || Within(other.dir, id.dir)) {
          conflict := true;
        }
        rest := rest - {other};
      }
    }

    // The release id as `duplicate` sees it over all views: an id of another target has
    // another fingerprint, because fingerprints contain the target.
    method Elsewhere(id: TargetId, release: ReleaseId) returns (taken: bool)
      requires Valid()
      ensures taken <==> exists t :: t in targets && t != id && release in targets[t].disk.records
    {
      hide Run, Antichain, OneTargetPerRelease, IsCanonical;
      taken := false;
      var rest := targets.Keys;
      while rest != {}
        invariant rest <= targets.Keys
        invariant taken <==> exists t :: t in targets && t !in rest && t != id && release in targets[t].disk.records
        decreases |rest|
      {
        var t :| t in rest;
        if t != id && release in targets[t].disk.records {
          taken := true;
        }
        rest := rest - {t};
      }
    }

    method Apply(id: TargetId, req: Request, now: Time, deferred: bool) returns (reply: Reply)
      requires Valid() && id in targets
      modifies targets[id]
      ensures Valid()
      ensures old(exists t :: t in targets && t != id && req.id in targets[t].disk.records) ==>
        reply == Rejected(409, ReleaseIdConflict)
        && targets[id].disk == old(targets[id].disk) && targets[id].link == old(targets[id].link)
        && targets[id].hist == old(targets[id].hist)
      ensures old(forall t :: t in targets && t != id ==> req.id !in targets[t].disk.records) ==>
        Served(targets[id], req, reply)
    {
      hide Run, IsCanonical, AllApart, Antichain;
      var taken := Elsewhere(id, req.id);
      if taken {
        return Rejected(409, ReleaseIdConflict);
      }
      var node := targets[id];
      reply := ApplyAt(node, req, now, deferred);
      assert forall t :: t in targets && t != id ==> targets[t] != node;
    }

    function RecordedElsewhere(id: TargetId): set<ReleaseId>
      reads this, targets.Values
    {
      set t, r | t in targets && t != id && r in targets[t].disk.records :: r
    }

    // Anything else that happens to a target: commands, rollbacks, crashes and startups,
    // and requests whose ids are not recorded elsewhere.
    method Serve(id: TargetId)
      requires Valid() && id in targets
      modifies targets[id]
      ensures Valid()
    {
      hide Run, IsCanonical, AllApart, Frozen;
      var node, taken := targets[id], RecordedElsewhere(id);
      Disturb(node, map[], taken);
      assert forall t :: t in targets && t != id ==> targets[t] != node;
      assert forall r :: r in node.disk.records ==> r !in taken;
    }

    // The duplicate check of `load`: it walks all records of all targets.
    method Load() returns (ok: bool)
      requires Valid()
      ensures ok
    {
      hide Run, Antichain, IsCanonical;
      ok := true;
      var seen: set<ReleaseId> := {};
      var rest := targets.Keys;
      while rest != {}
        invariant rest <= targets.Keys && ok
        invariant forall id :: id in seen <==> exists t :: t in targets && t !in rest && id in targets[t].disk.records
        decreases |rest|
      {
        var t :| t in rest;
        if seen * targets[t].disk.records.Keys != {} {
          ok := false;
        }
        seen := seen + targets[t].disk.records.Keys;
        rest := rest - {t};
      }
    }
  }

  // What the target itself makes of the request.
  twostate predicate Served(node: Node, req: Request, reply: Reply)
    reads node
  {
    && (reply.Rejected? ==> Refusal(old(node.disk), req, node.frontend, reply))
    && (reply.Answer? && !reply.replayed && Answered(reply, Succeeded) ==>
          WentForward(old(node.disk), node.disk, node.link, req.id) && reply.record == node.disk.records[req.id])
    && (if node.trouble == old(node.trouble) && old(node.up && !node.blocked) then
          old(Admissible(node.disk, req, node.frontend)) ==> reply.Answer?
        else true)
  }

  // A request adds no record but its own.
  method ApplyAt(node: Node, req: Request, now: Time, deferred: bool) returns (reply: Reply)
    requires node.Valid()
    modifies node
    ensures node.Valid()
    ensures forall i :: i in node.disk.records && i !in old(node.disk).records ==> i == req.id
    ensures Served(node, req, reply)
  {
    hide FrozenBut, Run, SoundState, AllOrNothing, Begun, Admissible, Refusal, WentBack, WentForward;
    ghost var d := node.disk;
    reply := node.Apply(req, now, deferred);
    OnlyAsked(d, node.disk, req);
  }

  lemma OnlyAsked(d: TargetState, e: TargetState, req: Request)
    requires FrozenBut(Origin(d, req), e, req.id)
    ensures forall i :: i in e.records && i !in d.records ==> i == req.id
  {
  }
}
