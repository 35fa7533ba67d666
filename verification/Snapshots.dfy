/** The snapshots of one target (internal/application/publisher/apply.go and runtime.go):
    made and checked by content, swept by reachability.

    A Directory is the target directory as a map from names to contents. Every call into
    the file system may fail; where a call works in several steps, a failure -- or a crash,
    which looks the same from here -- may leave any number of them done. */
module Snapshots {
  import opened Release
  import opened State
  import opened Protocol
  import opened Outcomes
  import opened Runs

  const MARKER := ".release-version"
  const CI_MANIFEST := "frontend-manifest.json"
  const INDEX := "index.html"

  // A file as WalkDir meets it. Only a regular file can be hashed.
  datatype Content = Regular(info: FileInfo) | Irregular

  type Tree = map<string, Content>

  datatype Manifest = Manifest(
    commit: Commit,
    source: Source,
    files: map<string, FileInfo>,
    assets: map<string, Digest>,
    created: Time)
  {
    function Sealed(): Seal {
      Seal(commit, source, files, assets)
    }
  }

  // The bytes of .manifests/<commit>.json
  datatype Stored = Garbage | Json(manifest: Manifest)

  datatype Loaded = Missing | Invalid | Found(manifest: Manifest)

  datatype Asset = Asset(sha: Digest, modified: Time)

  // A checked-out or pulled tree: its top level, and the server's own directory if any.
  datatype Work = Work(top: Tree, site: Option<Tree>, declared: Option<map<string, Digest>>)

  datatype Fetched<T> = Refused | Got(value: T)

  // The server's own directory is unwrapped if there is one.
  function Root(work: Work): Tree {
    if work.site.Some? then work.site.value else work.top
  }

  predicate AssetsNamed(m: Manifest) {
    forall name :: name in m.assets ==> name in m.files && m.files[name].sha == m.assets[name]
  }

  function TreeOf(files: map<string, FileInfo>): Tree {
    map name | name in files :: Regular(files[name])
  }

  function FilesOf(tree: Tree): map<string, FileInfo> {
    map name | name in tree && tree[name].Regular? :: tree[name].info
  }

  lemma FilesAgain(files: map<string, FileInfo>)
    ensures FilesOf(TreeOf(files)) == files
  {
  }

  // The marker file holds a 40-digit commit and a newline; its commit stands for its hash.
  function MarkerInfo(commit: Commit): FileInfo {
    FileInfo(commit, 41)
  }

  predicate TooDeep(name: string, server: string) {
    name != MARKER && (server + "/" <= name || name == server)
  }

  // legacyNestedServerSnapshot: files one directory too deep.
  predicate Nested(m: Manifest, frontend: bool, server: string) {
    !frontend && server != "" && exists name :: name in m.files && TooDeep(name, server)
  }

  /* ---------- What is still referred to ---------- */

  function CommitsOf(v: Option<Version>): set<Commit> {
    if v.Some? then {v.value.commit} else {}
  }

  // A record whose versions somebody may still load or fall back to.
  predicate Holding(r: Record, frontend: bool, retention: Time, now: Time) {
    !r.result.Terminal() || (frontend && r.intent && now - r.result.finished < retention)
  }

  function HeldBy(records: map<ReleaseId, Record>, frontend: bool, retention: Time, now: Time): set<Commit> {
    set id, c | id in records && Holding(records[id], frontend, retention, now)
      && c in CommitsOf(records[id].baseline) + CommitsOf(records[id].candidate) :: c
  }

  function LiveCommits(l: Link): set<Commit> {
    if l.At? then {l.commit} else {}
  }

  function Referenced(st: TargetState, l: Link, frontend: bool, retention: Time, now: Time): set<Commit> {
    CommitsOf(st.current) + CommitsOf(st.previous) + LiveCommits(l) + HeldBy(st.records, frontend, retention, now)
  }

  /* ---------- The same, said of the fields ---------- */

  // A record names c, and is unfinished, or is a frontend's, announced its switch and
  // finished within the retention time.
  predicate NamesWithin(r: Record, frontend: bool, retention: Time, now: Time, c: Commit) {
    && ((r.baseline.Some? && r.baseline.value.commit == c) || (r.candidate.Some? && r.candidate.value.commit == c))
    && (|| r.result.status == Running || r.result.status == RecoveryRequired
        || (frontend && r.intent && now - r.result.finished < retention))
  }

  ghost predicate NamedWithin(records: map<ReleaseId, Record>, frontend: bool, retention: Time, now: Time, c: Commit) {
    exists id :: id in records && NamesWithin(records[id], frontend, retention, now, c)
  }

  // Somebody may still load c or fall back to it.
  ghost predicate Needed(st: TargetState, l: Link, frontend: bool, retention: Time, now: Time, c: Commit) {
    || (st.current.Some? && st.current.value.commit == c) || (st.previous.Some? && st.previous.value.commit == c)
    || l == At(c) || NamedWithin(st.records, frontend, retention, now, c)
  }

  lemma HeldIsNamed(records: map<ReleaseId, Record>, frontend: bool, retention: Time, now: Time)
    ensures forall c :: c in HeldBy(records, frontend, retention, now) <==>
      NamedWithin(records, frontend, retention, now, c)
  {
    var held := HeldBy(records, frontend, retention, now);
    forall c | NamedWithin(records, frontend, retention, now, c) ensures c in held {
      var id :| id in records && NamesWithin(records[id], frontend, retention, now, c);
      assert c in CommitsOf(records[id].baseline) + CommitsOf(records[id].candidate);
    }
    forall c | c in held ensures NamedWithin(records, frontend, retention, now, c) {
      var id :| id in records && Holding(records[id], frontend, retention, now)
        && c in CommitsOf(records[id].baseline) + CommitsOf(records[id].candidate);
      assert NamesWithin(records[id], frontend, retention, now, c);
    }
  }

  lemma ReferencedIsNeeded(st: TargetState, l: Link, frontend: bool, retention: Time, now: Time)
    ensures forall c :: c in Referenced(st, l, frontend, retention, now) <==> Needed(st, l, frontend, retention, now, c)
  {
    HeldIsNamed(st.records, frontend, retention, now);
    hide HeldBy, NamedWithin;
  }

  // What a later activation of a frontend asks for.
  ghost predicate ProbeNeeded(st: TargetState, retention: Time, now: Time, except: Option<Commit>, c: Commit) {
    Some(c) != except && (
      || (st.current.Some? && st.current.value.commit == c) || (st.previous.Some? && st.previous.value.commit == c)
      || NamedWithin(st.records, true, retention, now, c))
  }

  lemma ProbedIsNeeded(st: TargetState, retention: Time, now: Time, except: Option<Commit>)
    ensures forall c :: c in Probed(st, retention, now, except) <==> ProbeNeeded(st, retention, now, except, c)
  {
    HeldIsNamed(st.records, true, retention, now);
    hide HeldBy, NamedWithin;
  }

  lemma FirstAreFirst(order: seq<Commit>, n: nat)
    ensures forall c :: c in FirstOf(order, n) <==> exists i :: 0 <= i < |order| && i < n && order[i] == c
  {
    var first := order[..Min(n, |order|)];
    forall c | c in first ensures exists i :: 0 <= i < |order| && i < n && order[i] == c {
      var i :| 0 <= i < |first| && first[i] == c;
      assert order[i] == c;
    }
    forall i | 0 <= i < |order| && i < n ensures order[i] in first {
      assert first[i] == order[i];
    }
  }

  // The versions whose assets verifyRetainedAssets probes: not those of the release that
  // is being activated.
  function Probed(st: TargetState, retention: Time, now: Time, except: Option<Commit>): set<Commit> {
    set c | c in CommitsOf(st.current) + CommitsOf(st.previous) + HeldBy(st.records, true, retention, now)
      && Some(c) != except
  }

  lemma BaselineReferenced(st: TargetState, p: Past, id: ReleaseId, l: Link, frontend: bool, retention: Time, now: Time)
    requires SoundState(st, p) && id in st.records && st.records[id].baseline.Some?
    requires !st.records[id].result.Terminal() || st.records[id].result.after == st.revision
    ensures st.records[id].baseline.value.commit in Referenced(st, l, frontend, retention, now)
  {
    var r := st.records[id];
    if !r.result.Terminal() {
      assert r.baseline.value.commit in CommitsOf(r.baseline) + CommitsOf(r.candidate);
    } else {
      assert SoundEntry(st, id, p);
      assert r.baseline == st.current || r.baseline == st.previous;
    }
  }

  // The window only shrinks: whatever is probed later was referred to earlier.
  lemma ProbedWasReferenced(st: TargetState, l: Link, retention: Time, now: Time, later: Time, except: Option<Commit>)
    requires now <= later
    ensures Probed(st, retention, later, except) <= Referenced(st, l, true, retention, now)
  {
  }

  // The snapshot that an admissible restore goes back to is never swept, in any reachable
  // state, and neither is the one that RollbackCurrent goes back to.
  lemma RestoreTargetReferenced(d: TargetState, p: Past, of: ReleaseId, commit: Commit, l: Link,
                                frontend: bool, retention: Time, now: Time)
    requires SoundState(d, p) && of in d.records
    requires RestoreAllowed(d, of, commit)
      || (Undoable(d.records[of], d) && d.previous.Some? && commit == d.previous.value.commit)
    ensures commit in Referenced(d, l, frontend, retention, now)
  {
  }

  lemma HeldByNone(frontend: bool, retention: Time, now: Time)
    ensures HeldBy(map[], frontend, retention, now) == {}
  {
  }

  lemma HeldByOneMore(before: map<ReleaseId, Record>, after: map<ReleaseId, Record>, id: ReleaseId,
                      frontend: bool, retention: Time, now: Time)
    requires id in after && id !in before
    requires (forall i :: i in after <==> i in before || i == id) && forall i :: i in before ==> after[i] == before[i]
    ensures HeldBy(after, frontend, retention, now) == HeldBy(before, frontend, retention, now)
      + if Holding(after[id], frontend, retention, now)
        then CommitsOf(after[id].baseline) + CommitsOf(after[id].candidate) else {}
  {
  }

  ghost predicate Untouched(m: map<Commit, Stored>, s: map<Commit, Tree>,
                            n: map<Commit, Stored>, t: map<Commit, Tree>, kept: set<Commit>)
  {
    && (forall c :: c in kept ==> (c in n <==> c in m) && (c in n ==> n[c] == m[c]))
    && (forall c :: c in kept || c !in m ==> (c in t <==> c in s) && (c in t ==> t[c] == s[c]))
    && (forall c :: c in n ==> c in m && n[c] == m[c])
  }

  lemma UntouchedOutside(m: map<Commit, Stored>, s: map<Commit, Tree>, n: map<Commit, Stored>, t: map<Commit, Tree>,
                         dropped: set<Commit>, kept: set<Commit>)
    requires n == m - (m.Keys - n.Keys) && m.Keys - n.Keys <= dropped
    requires forall c :: c in dropped ==> c !in kept && c in m
    requires forall c :: c !in dropped ==> (c in t <==> c in s) && (c in t ==> t[c] == s[c])
    ensures Untouched(m, s, n, t, kept)
  {
  }

  // What the first n turns of the sweep have removed.
  ghost function Dropped(order: seq<Commit>, n: nat, kept: set<Commit>): set<Commit>
    requires n <= |order|
  {
    set c | c in order[..n] && c !in kept
  }

  lemma NothingDropped(order: seq<Commit>, kept: set<Commit>)
    ensures Dropped(order, 0, kept) == {}
  {
  }

  lemma OneMoreDropped(order: seq<Commit>, n: nat, kept: set<Commit>)
    requires n < |order| && forall i, j :: 0 <= i < j < |order| ==> order[i] != order[j]
    ensures Dropped(order, n + 1, kept) == Dropped(order, n, kept) + (if order[n] in kept then {} else {order[n]})
    ensures order[n] !in Dropped(order, n, kept)
  {
  }

  lemma AllDropped(order: seq<Commit>, kept: set<Commit>)
    ensures forall c :: c in Dropped(order, |order|, kept) <==> c in order && c !in kept
  {
  }

  // The assets that the first n commits of `order` keep alive.
  ghost function AssetsUpTo(order: seq<Commit>, n: nat, kept: set<Commit>, loaded: map<Commit, Manifest>): set<string>
    requires n <= |order| && forall c :: c in order ==> c in loaded
  {
    set j, name | 0 <= j < n && order[j] in kept && name in loaded[order[j]].assets :: name
  }

  lemma NothingNamed(order: seq<Commit>, kept: set<Commit>, loaded: map<Commit, Manifest>)
    requires forall c :: c in order ==> c in loaded
    ensures AssetsUpTo(order, 0, kept, loaded) == {}
  {
  }

  lemma OneMoreNamed(order: seq<Commit>, n: nat, kept: set<Commit>, loaded: map<Commit, Manifest>)
    requires n < |order| && forall c :: c in order ==> c in loaded
    ensures AssetsUpTo(order, n + 1, kept, loaded)
      == AssetsUpTo(order, n, kept, loaded) + if order[n] in kept then loaded[order[n]].assets.Keys else {}
  {
  }

  predicate Expired(a: Asset, live: bool, retention: Time, now: Time) {
    !live && now - a.modified >= retention
  }

  function FirstOf(order: seq<Commit>, n: nat): set<Commit> {
    set c | c in order[..Min(n, |order|)]
  }

  // Commits in the order in which the sweep looks at them.
  ghost predicate NewestFirst(order: seq<Commit>, created: map<Commit, Time>) {
    && (forall c :: c in created <==> c in order)
    && (forall i, j :: 0 <= i < j < |order| ==> order[i] != order[j])
    && (forall i, j :: 0 <= i < j < |order| && order[i] in created && order[j] in created ==>
          created[order[i]] >= created[order[j]])
  }

  function Min(a: nat, b: nat): nat {
    if a < b then a else b
  }

  lemma SortedIsAll(order: seq<Commit>, created: map<Commit, Time>)
    requires NewestFirst(order, created)
    ensures forall c :: c in order <==> c in created
    ensures forall i, j :: 0 <= i < j < |order| ==> order[i] != order[j]
  {
  }

  function CreationOf(loaded: map<Commit, Manifest>): map<Commit, Time> {
    map c | c in loaded :: loaded[c].created
  }

  method Newest(created: map<Commit, Time>) returns (c: Commit)
    requires created != map[]
    ensures c in created && forall d :: d in created ==> created[c] >= created[d]
  {
    c :| c in created;
    var rest := created.Keys - {c};
    while rest != {}
      invariant rest <= created.Keys && c in created
      invariant forall d :: d in created && d !in rest ==> created[c] >= created[d]
      decreases |rest|
    {
      var d :| d in rest;
      if created[d] > created[c] {
        c := d;
      }
      rest := rest - {d};
    }
  }

  // sort.Slice by creation time, latest first.
  method SortNewestFirst(created: map<Commit, Time>) returns (order: seq<Commit>)
    ensures NewestFirst(order, created)
  {
    hide NewestFirst;
    order := [];
    var rest := created;
    NewestOfNone(created);
    while rest != map[]
      invariant rest.Keys <= created.Keys && forall c :: c in rest ==> rest[c] == created[c]
      invariant forall c :: c in order ==> c in created && c !in rest
      invariant NewestFirst(order, created - rest.Keys)
      invariant forall c, d :: c in order && d in rest ==> created[c] >= created[d]
      decreases |rest|
    {
      var c := Newest(rest);
      NewestAppended(order, created, rest, c);
      order := order + [c];
      rest := rest - {c};
    }
    assert created - rest.Keys == created;
  }

  lemma NewestOfNone(created: map<Commit, Time>)
    ensures NewestFirst([], created - created.Keys)
  {
  }

  lemma NewestAppended(order: seq<Commit>, created: map<Commit, Time>, rest: map<Commit, Time>, c: Commit)
    requires NewestFirst(order, created - rest.Keys) && c in rest && rest.Keys <= created.Keys
    requires forall d :: d in order ==> d in created && created[d] >= created[c]
    ensures NewestFirst(order + [c], created - (rest - {c}).Keys)
  {
    assert (created - (rest - {c}).Keys).Keys == (created - rest.Keys).Keys + {c};
  }

  class Directory {
    const frontend: bool
    const sharedAssets: bool
    const server: string
    const required: set<string>

    var snapshots: map<Commit, Tree>
    var manifests: map<Commit, Stored>
    var assets: map<string, Asset>
    var latest: Link

    constructor (frontend: bool, sharedAssets: bool, server: string, required: set<string>)
      ensures snapshots == map[] && manifests == map[] && assets == map[] && latest == Absent
    {
      this.frontend, this.sharedAssets, this.server, this.required := frontend, sharedAssets, server, required;
      snapshots, manifests, assets, latest := map[], map[], map[], Absent;
    }

    // loadManifest
    function Load(commit: Commit): Loaded
      reads this
    {
      if commit !in manifests then Missing
      else match manifests[commit]
        case Garbage => Invalid
        case Json(m) => if m.commit == commit && AssetsNamed(m) then Found(m) else Invalid
    }

    /* ---------- verifySnapshot ---------- */

    // The snapshot holds exactly the files that its manifest names, and the manifest is
    // the one that the version was made with.
    ghost predicate Intact(v: Version)
      reads this
    {
      && Load(v.commit).Found?
      && Load(v.commit).manifest.source == v.source && ArtifactDigest(v.source) == v.artifact
      && Load(v.commit).manifest.Sealed() == v.manifest
      && v.commit in snapshots && snapshots[v.commit] == TreeOf(Load(v.commit).manifest.files)
    }

    // The walk over the snapshot's files. It compares one file at a time and only counts.
    method WalkMatches(tree: Tree, files: map<string, FileInfo>) returns (ok: bool)
      ensures ok <==> tree == TreeOf(files)
    {
      var rest, seen := tree.Keys, 0;
      ghost var done: set<string> := {};
      while rest != {}
        invariant rest + done == tree.Keys && rest !! done
        invariant seen == |done|
        invariant forall name :: name in done ==> name in files && tree[name] == Regular(files[name])
        decreases |rest|
      {
        var name :| name in rest;
        if name !in files || tree[name] != Regular(files[name]) {
          assert name in tree && (name in TreeOf(files) ==> TreeOf(files)[name] != tree[name]);
          return false;
        }
        seen := seen + 1;
        rest, done := rest - {name}, done + {name};
      }
      ok := seen == |files|;
      CountedAll(tree, files);
    }

    // VerifySnapshot's answer; `faulted` says that it failed for a reason outside the snapshot.
    method VerifySnapshot(v: Version) returns (r: Fetched<Manifest>, faulted: bool)
      ensures r.Got? ==> Intact(v) && r.value == Load(v.commit).manifest
      ensures r.Refused? && !faulted ==> !Intact(v)
      ensures r.Got? ==>
        && v.commit in manifests && manifests[v.commit] == Json(r.value) && r.value.commit == v.commit
        && v.manifest == Seal(v.commit, v.source, r.value.files, r.value.assets)
        && (forall name :: name in r.value.assets ==>
              name in r.value.files && r.value.files[name].sha == r.value.assets[name])
    {
      faulted := *;
      r := Refused;
      if faulted {
        return;
      }
      var loaded := Load(v.commit);
      if !loaded.Found? {
        return;
      }
      var m := loaded.manifest;
      if m.source != v.source || ArtifactDigest(v.source) != v.artifact || m.Sealed() != v.manifest
         || v.commit !in snapshots {
        return;
      }
      var exact := WalkMatches(snapshots[v.commit], m.files);
      if exact {
        r := Got(m);
      }
    }

    /* ---------- prepareSnapshot ---------- */

    // fsutil.RemoveTree: file by file, so a fault leaves a part.
    method RemoveTree(commit: Commit) returns (ok: bool)
      requires commit in snapshots
      modifies `snapshots
      ensures ok ==> snapshots == old(snapshots) - {commit}
      ensures forall c :: c != commit ==>
        (c in snapshots <==> c in old(snapshots)) && (c in snapshots ==> snapshots[c] == old(snapshots)[c])
    {
      var rest := snapshots[commit].Keys;
      while rest != {}
        invariant commit in snapshots && snapshots - {commit} == old(snapshots) - {commit}
        invariant forall c :: c != commit ==>
          (c in snapshots <==> c in old(snapshots)) && (c in snapshots ==> snapshots[c] == old(snapshots)[c])
        decreases |rest|
      {
        var fault: bool := *;
        if fault {
          return false;
        }
        var name :| name in rest;
        snapshots := snapshots[commit := snapshots[commit] - {name}];
        rest := rest - {name};
      }
      snapshots := snapshots - {commit};
      ok := true;
    }

    predicate NotKept(name: string) {
      frontend && sharedAssets && name == CI_MANIFEST
    }

    // The part of a fetched tree that a snapshot keeps.
    function Deployed(site: Tree): Tree {
      map name | name in site && !NotKept(name) :: site[name]
    }

    // A tree that the walk copies to its end: regular files only, and no marker of its own.
    predicate Copyable(site: Tree) {
      forall name :: name in site ==> site[name].Regular? && name != MARKER
    }

    // The copying walk: what is written and what the manifest will say go together.
    method CopySite(site: Tree) returns (r: Fetched<map<string, FileInfo>>, faulted: bool)
      ensures r.Got? ==> Copyable(site) && TreeOf(r.value) == Deployed(site)
      ensures r.Refused? && !faulted ==> !Copyable(site)
    {
      var rest := site.Keys;
      var files: map<string, FileInfo> := map[];
      faulted := false;
      while rest != {}
        invariant rest <= site.Keys
        invariant forall name :: name in site && name !in rest ==> site[name].Regular? && name != MARKER
        invariant forall name :: name in files <==> name in site && name !in rest && !NotKept(name)
        invariant forall name :: name in files ==> site[name] == Regular(files[name])
        decreases |rest|
      {
        faulted := *;
        var name :| name in rest;
        if faulted || site[name].Irregular? || name == MARKER {
          return Refused, faulted;
        }
        if !NotKept(name) {
          files := files[name := site[name].info];
        }
        rest := rest - {name};
      }
      assert TreeOf(files) == Deployed(site);
      r := Got(files);
    }

    // Required files, and validateFrontend's tests of the index and the declared assets.
    predicate Acceptable(files: map<string, FileInfo>, declared: Option<map<string, Digest>>) {
      && files != map[] && required <= files.Keys
      && (frontend ==> INDEX in files && files[INDEX].size > 0)
      && (frontend && sharedAssets ==>
            && declared.Some? && declared.value != map[]
            && (forall name :: name in declared.value ==> name in files && files[name].sha == declared.value[name])
            && (forall name :: name in files && name != INDEX ==> name in declared.value))
    }

    // A fetched tree that prepareSnapshot can make a snapshot of. In a checkout without a
    // server directory a plain file of that name is refused.
    predicate Buildable(work: Work) {
      && (frontend ==> work.site.Some?) && !(work.site.None? && server in work.top)
      && Copyable(Root(work)) && Acceptable(FilesOf(Deployed(Root(work))), work.declared)
    }

    // Whether a site has a file under a directory of the server's name, or of that name.
    predicate HoldsDeep(site: Tree) {
      !frontend && server != "" && exists name :: name in site && name != MARKER && IsUnder(name)
    }

    predicate IsUnder(name: string) {
      name == server || (|name| > |server| && name[..|server|] == server && name[|server|] == '/')
    }

    // What a fetched tree has to be for a snapshot of `site`, a part of it, to be made.
    predicate Publishable(site: Tree, declared: Option<map<string, Digest>>) {
      && (forall name :: name in site ==> site[name].Regular? && name != MARKER)
      && (exists name :: name in site && !(frontend && sharedAssets && name == CI_MANIFEST))
      && (forall name :: name in required ==>
            name in site && !(frontend && sharedAssets && name == CI_MANIFEST))
      && (frontend ==> INDEX in site && site[INDEX].info.size > 0)
      && (frontend && sharedAssets ==>
            && declared.Some? && declared.value != map[]
            && (forall name :: name in declared.value ==>
                  name != CI_MANIFEST && name in site && site[name].info.sha == declared.value[name])
            && (forall name :: name in site && name != INDEX && name != CI_MANIFEST ==> name in declared.value))
    }

    // A snapshot of `site`: its files, but for the CI manifest of shared assets, and the marker.
    ghost predicate SnapshotOf(t: Tree, site: Tree, commit: Commit) {
      && MARKER !in site && MARKER in t && t[MARKER] == Regular(FileInfo(commit, 41))
      && (forall name :: name != MARKER ==>
            (name in t <==> name in site && !(frontend && sharedAssets && name == CI_MANIFEST)))
      && (forall name :: name != MARKER && name in t ==> t[name] == site[name] && t[name].Regular?)
    }

    // The manifest of a snapshot t that was made from `work`.
    ghost predicate ManifestFor(m: Manifest, t: Tree, work: Work, commit: Commit, source: Source, now: Time) {
      && m.commit == commit && m.source == source && m.created == now
      && (forall name :: name in m.files <==> name in t)
      && (forall name :: name in m.files ==> t[name] == Regular(m.files[name]))
      && (if frontend && sharedAssets then Some(m.assets) == work.declared else m.assets == map[])
    }

    lemma ManifestMade(m: Manifest, work: Work, commit: Commit, source: Source, now: Time)
      requires m.commit == commit && m.source == source && m.created == now
      requires if frontend && sharedAssets then Some(m.assets) == work.declared else m.assets == map[]
      ensures ManifestFor(m, TreeOf(m.files), work, commit, source, now)
    {
    }

    lemma BuildableMeans(work: Work)
      ensures work.site.Some? ==> (Buildable(work) <==> Publishable(work.site.value, work.declared))
      ensures work.site.None? ==>
        (Buildable(work) <==> !frontend && server !in work.top && Publishable(work.top, work.declared))
    {
      var site := Root(work);
      if Copyable(site) {
        assert forall name :: name in FilesOf(Deployed(site)) <==> name in site && !NotKept(name);
        assert forall name :: name in FilesOf(Deployed(site)) ==> FilesOf(Deployed(site))[name] == site[name].info;
      }
    }

    lemma DeployedMeans(site: Tree, commit: Commit)
      requires Copyable(site)
      ensures SnapshotOf(Deployed(site)[MARKER := Regular(MarkerInfo(commit))], site, commit)
    {
    }

    // From the fetched tree to a snapshot with its manifest. A crash or a fault between
    // the two leaves the snapshot without its manifest, or with an older one.
    method Rebuild(work: Work, commit: Commit, source: Source, version: VersionName, now: Time)
      returns (r: Fetched<Version>, faulted: bool)
      requires commit !in snapshots
      modifies `snapshots, `manifests
      ensures forall c :: c != commit ==>
        && (c in snapshots <==> c in old(snapshots)) && (c in snapshots ==> snapshots[c] == old(snapshots)[c])
        && (c in manifests <==> c in old(manifests)) && (c in manifests ==> manifests[c] == old(manifests)[c])
      ensures r.Got? ==> Intact(r.value) && Buildable(work)
      ensures !faulted ==> (r.Got? <==> Buildable(work))
      ensures r.Got? ==> r.value.commit == commit && r.value.source == source && r.value.version == version
      ensures r.Got? ==> snapshots[commit] == Deployed(Root(work))[MARKER := Regular(MarkerInfo(commit))]
      ensures r.Got? ==> (Nested(Load(commit).manifest, frontend, server) <==> HoldsDeep(Root(work)))
      ensures r.Got? ==> SnapshotOf(snapshots[commit], Root(work), commit)
      ensures r.Got? ==>
        && commit in manifests && manifests[commit].Json?
        && ManifestFor(manifests[commit].manifest, snapshots[commit], work, commit, source, now)
    {
      hide Copyable, Nested, HoldsDeep, Deployed, SnapshotOf, ManifestFor;
      r, faulted := Refused, false;
      if (frontend && work.site.None?) || (work.site.None? && server in work.top) {
        return;
      }
      var copied;
      copied, faulted := CopySite(Root(work));
      if copied.Refused? {
        return;
      }
      FilesAgain(copied.value);
      MarkerIsNew(Root(work));
      if !Acceptable(copied.value, work.declared) {
        faulted := false;
        return;
      }
      var renamed, written, reported: bool := *, *, *;
      faulted := !renamed || !written || !reported;
      if !renamed {
        return;
      }
      var files := copied.value[MARKER := MarkerInfo(commit)];
      var declared: map<string, Digest> := if frontend && sharedAssets then work.declared.value else map[];
      var m := Manifest(commit, source, files, declared, now);
      TreeWithMarker(copied.value, commit);
      snapshots := snapshots[commit := TreeOf(files)];
      if written {
        manifests := manifests[commit := Json(m)];
      }
      if written && reported {
        DeepFiles(copied.value, m, Root(work));
        DeployedMeans(Root(work), commit);
        ManifestMade(m, work, commit, source, now);
        r := Got(Version(commit, source, ArtifactDigest(source), version, m.Sealed()));
      }
    }

    lemma MarkerIsNew(site: Tree)
      requires Copyable(site)
      ensures MARKER !in Deployed(site)
    {
    }

    lemma DeepFiles(files: map<string, FileInfo>, m: Manifest, site: Tree)
      requires TreeOf(files) == Deployed(site) && m.files == files[MARKER := MarkerInfo(m.commit)]
      ensures Nested(m, frontend, server) <==> HoldsDeep(site)
    {
      assert forall name :: name in files <==> name in TreeOf(files);
      if !frontend {
        assert forall name :: name in site <==> name in Deployed(site);
        if HoldsDeep(site) {
          var name :| name in site && TooDeep(name, server);
          assert name in m.files;
        }
      }
    }

    // An existing snapshot that belongs to another source, and is checked for that.
    predicate OtherSource(commit: Commit, source: Source)
      reads this
    {
      && Load(commit).Found? && !Nested(Load(commit).manifest, frontend, server)
      && Load(commit).manifest.source != source && commit in snapshots
    }

    // A snapshot of this source that needs no work.
    ghost predicate Reusable(commit: Commit, source: Source)
      reads this
    {
      && Load(commit).Found? && !Nested(Load(commit).manifest, frontend, server)
      && Load(commit).manifest.source == source
      && commit in snapshots && snapshots[commit] == TreeOf(Load(commit).manifest.files)
    }

    // prepareSnapshot: reuse what is intact, refuse what belongs to another source, and
    // rebuild everything else -- a nested snapshot always, whoever it belongs to. Without a
    // fault it succeeds exactly if it may reuse or can rebuild.
    method PrepareSnapshot(work: Work, commit: Commit, source: Source, version: VersionName, now: Time)
      returns (r: Fetched<Version>, faulted: bool)
      modifies `snapshots, `manifests
      ensures forall c :: c != commit ==>
        && (c in snapshots <==> c in old(snapshots)) && (c in snapshots ==> snapshots[c] == old(snapshots)[c])
        && (c in manifests <==> c in old(manifests)) && (c in manifests ==> manifests[c] == old(manifests)[c])
      ensures r.Got? ==> Intact(r.value)
      ensures r.Got? ==> r.value.commit == commit && r.value.source == source && r.value.version == version
      ensures !faulted ==>
        (r.Got? <==> old(Reusable(commit, source)) ||
                     (!old(Load(commit)).Invalid? && !old(OtherSource(commit, source)) && Buildable(work)))
      ensures old(OtherSource(commit, source)) ==>
        r.Refused? && snapshots == old(snapshots) && manifests == old(manifests)
      ensures old(Reusable(commit, source)) && !faulted ==>
        snapshots == old(snapshots) && manifests == old(manifests)
      ensures r.Got? && !old(Reusable(commit, source)) ==>
        && snapshots[commit] == Deployed(Root(work))[MARKER := Regular(MarkerInfo(commit))]
        && (Nested(Load(commit).manifest, frontend, server) <==> HoldsDeep(Root(work)))
      // What is published: the server's own directory if the tree has one.
      ensures r.Got? && !old(Reusable(commit, source)) ==>
        && commit in snapshots && commit in manifests && manifests[commit].Json?
        && match work.site
           case Some(site) => SnapshotOf(snapshots[commit], site, commit) && Publishable(site, work.declared)
           case None =>
             && !frontend && server !in work.top
             && SnapshotOf(snapshots[commit], work.top, commit) && Publishable(work.top, work.declared)
      ensures r.Got? && !old(Reusable(commit, source)) ==>
        ManifestFor(manifests[commit].manifest, snapshots[commit], work, commit, source, now)
      ensures !faulted && r.Refused? && !old(Load(commit)).Invalid? && !old(OtherSource(commit, source)) ==>
        match work.site
        case Some(site) => !Publishable(site, work.declared)
        case None => frontend || server in work.top || !Publishable(work.top, work.declared)
    {
      BuildableMeans(work);
      r, faulted := Refused, false;
      var loaded := Load(commit);
      if loaded.Invalid? {
        return;
      }
      if loaded.Found? && !Nested(loaded.manifest, frontend, server) && commit in snapshots {
        var m := loaded.manifest;
        var v := Version(commit, source, ArtifactDigest(source), version, m.Sealed());
        var checked, broken;
        checked, broken := VerifySnapshot(v);
        if checked.Got? {
          return Got(v), false;
        }
        if m.source != source {
          return Refused, false;
        }
        faulted := broken;
      }
      if commit in snapshots {
        var removed := RemoveTree(commit);
        if !removed {
          return Refused, true;
        }
      }
      var failed;
      r, failed := Rebuild(work, commit, source, version, now);
      faulted := faulted || failed;
    }

    // Preparing and then verifying agree, whatever was there before the first of them.
    method PrepareThenVerify(work: Work, commit: Commit, source: Source, version: VersionName, now: Time)
      returns (prepared: Fetched<Version>, verified: Fetched<Manifest>, faulted: bool)
      modifies `snapshots, `manifests
      ensures prepared.Got? && !faulted ==> verified.Got? && verified.value.source == source
      ensures prepared.Got? && verified.Got? ==>
        commit in snapshots && snapshots[commit] == TreeOf(verified.value.files)
    {
      verified := Refused;
      prepared, faulted := PrepareSnapshot(work, commit, source, version, now);
      faulted := false;
      if prepared.Got? {
        verified, faulted := VerifySnapshot(prepared.value);
      }
    }

    // "One of another source is never rewritten" is false: a snapshot that was just made, and
    // is intact, is replaced under another source exactly if its site holds a file under a
    // directory of the server's own name.
    method PrepareTwice(first: Work, second: Work, commit: Commit, mine: Source, theirs: Source,
                        version: VersionName, now: Time)
      returns (made: Fetched<Version>, again: Fetched<Version>, faulted: bool)
      requires commit !in manifests && commit !in snapshots && mine != theirs
      requires Buildable(first) && Buildable(second)
      modifies `snapshots, `manifests
      ensures !faulted ==> made.Got? && made.value.source == mine
      ensures !faulted ==> (again.Got? <==> HoldsDeep(Root(first)))
      ensures !faulted && again.Got? ==>
        && again.value.source == theirs && Intact(again.value) && commit in snapshots
        && snapshots[commit] == Deployed(Root(second))[MARKER := Regular(MarkerInfo(commit))]
      ensures !faulted && again.Refused? ==> Intact(made.value)
    {
      again := Refused;
      made, faulted := PrepareSnapshot(first, commit, mine, version, now);
      if !faulted {
        assert Load(commit).manifest.source == mine;
        again, faulted := PrepareSnapshot(second, commit, theirs, version, now);
      }
    }

    /* ---------- Assets ---------- */

    ghost predicate Installed(named: map<string, Digest>)
      reads `assets
    {
      forall name :: name in named ==> name in assets && assets[name].sha == named[name]
    }

    // installAssets: an installed asset is immutable; a missing one is linked from the snapshot.
    // Without a fault only another asset of the same name is in the way.
    method InstallAssets(v: Version, m: Manifest) returns (ok: bool, ghost faulted: bool)
      requires Intact(v) && m == Load(v.commit).manifest
      modifies `assets
      ensures ok ==> Installed(m.assets)
      ensures forall name :: name in old(assets) ==> name in assets && assets[name] == old(assets)[name]
      ensures forall name :: name in assets && name !in old(assets) ==>
        name in m.assets && assets[name].sha == m.assets[name]
      ensures !ok && !faulted ==>
        exists name :: name in m.assets && name in old(assets) && old(assets)[name].sha != m.assets[name]
    {
      faulted := false;
      var rest := m.assets.Keys;
      while rest != {}
        invariant rest <= m.assets.Keys
        invariant forall name :: name in old(assets) ==> name in assets && assets[name] == old(assets)[name]
        invariant forall name :: name in assets && name !in old(assets) ==>
          name in m.assets && assets[name].sha == m.assets[name]
        invariant forall name :: name in m.assets && name !in rest ==>
          name in assets && assets[name].sha == m.assets[name]
        decreases |rest|
      {
        var fault: bool, linked: Time := *, *;
        var name :| name in rest;
        if fault || (name in assets && assets[name].sha != m.assets[name]) {
          return false, fault;
        }
        if name !in assets {
          assets := assets[name := Asset(snapshots[v.commit][name].info.sha, linked)];
        }
        rest := rest - {name};
      }
      ok := true;
    }

    /* ---------- cleanupSnapshots ---------- */

    // The loop over st.Records.
    method KeepHeld(records: map<ReleaseId, Record>, retention: Time, now: Time) returns (held: set<Commit>)
      ensures held == HeldBy(records, frontend, retention, now)
      ensures forall c :: c in held <==> NamedWithin(records, frontend, retention, now, c)
    {
      hide HeldBy, Holding, CommitsOf, NamedWithin;
      held := {};
      var rest := records.Keys;
      HeldByNone(frontend, retention, now);
      assert records - rest == map[];
      while rest != {}
        invariant rest <= records.Keys
        invariant held == HeldBy(records - rest, frontend, retention, now)
        decreases |rest|
      {
        var id :| id in rest;
        HeldByOneMore(records - rest, records - (rest - {id}), id, frontend, retention, now);
        rest := rest - {id};
        if Holding(records[id], frontend, retention, now) {
          held := held + (CommitsOf(records[id].baseline) + CommitsOf(records[id].candidate));
        }
      }
      assert records - {} == records;
      HeldIsNamed(records, frontend, retention, now);
    }

    ghost predicate AllLoaded(loaded: map<Commit, Manifest>)
      reads this
    {
      loaded.Keys == manifests.Keys && forall c :: c in loaded ==> Load(c) == Found(loaded[c])
    }

    // Every manifest is read before anything is removed.
    method ReadManifests() returns (ok: bool, loaded: map<Commit, Manifest>, ghost faulted: bool)
      ensures ok ==> AllLoaded(loaded)
      ensures !ok && !faulted ==> exists c :: c in manifests && !Load(c).Found?
    {
      ok, loaded, faulted := true, map[], false;
      var rest := manifests.Keys;
      while rest != {}
        invariant rest <= manifests.Keys && loaded.Keys == manifests.Keys - rest
        invariant forall c :: c in loaded ==> Load(c) == Found(loaded[c])
        decreases |rest|
      {
        var c :| c in rest;
        var fault: bool := *;
        if fault || !Load(c).Found? {
          return false, loaded, fault;
        }
        loaded := loaded[c := Load(c).manifest];
        rest := rest - {c};
      }
    }

    // Which assets the manifests of `kept` name.
    ghost predicate NamedByKept(name: string, kept: set<Commit>)
      reads this
    {
      exists c :: c in kept && Load(c).Found? && name in Load(c).manifest.assets
    }

    // Nothing of `kept` is touched; nothing without a manifest is touched.
    twostate predicate Spared(kept: set<Commit>)
      reads this
    {
      latest == old(latest) && Untouched(old(manifests), old(snapshots), manifests, snapshots, kept)
    }

    // The tree first, then its manifest.
    method SweepOne(c: Commit) returns (ok: bool, ghost faulted: bool)
      requires c in manifests
      modifies `snapshots, `manifests
      ensures ok ==> c !in snapshots && manifests == old(manifests) - {c}
      ensures !ok ==> manifests == old(manifests)
      ensures !ok && !faulted ==> c !in old(snapshots)
      ensures forall d :: d != c ==>
        (d in snapshots <==> d in old(snapshots)) && (d in snapshots ==> snapshots[d] == old(snapshots)[d])
    {
      faulted := false;
      if c !in snapshots {
        return false, false;
      }
      var fault: bool := *;
      ok := RemoveTree(c);
      faulted := fault || !ok;
      if ok && fault {
        return false, true;
      }
      if ok {
        manifests := manifests - {c};
      }
    }

    // The removal loop, newest first; it collects the assets of what it keeps.
    method SweepSnapshots(order: seq<Commit>, loaded: map<Commit, Manifest>, kept: set<Commit>)
      returns (ok: bool, live: set<string>, ghost faulted: bool)
      requires loaded.Keys == manifests.Keys && forall c :: c in order <==> c in loaded
      requires forall i, j :: 0 <= i < j < |order| ==> order[i] != order[j]
      modifies `snapshots, `manifests
      ensures Spared(kept)
      ensures ok ==> manifests.Keys == old(manifests).Keys * kept
      ensures ok ==> forall c :: c in old(manifests) && c !in kept ==> c !in snapshots
      ensures ok ==> live == AssetsUpTo(order, |order|, kept, loaded)
      ensures !ok && !faulted ==> exists c :: c in old(manifests) && c !in kept && c !in old(snapshots)
    {
      hide AssetsUpTo, Dropped, Untouched;
      ok, live, faulted := false, {}, false;
      NothingNamed(order, kept, loaded);
      NothingDropped(order, kept);
      ghost var m, s := manifests, snapshots;
      UntouchedOutside(m, s, manifests, snapshots, {}, kept);
      for i := 0 to |order|
        invariant latest == old(latest) && manifests == old(manifests) - Dropped(order, i, kept)
        invariant forall c :: c !in Dropped(order, i, kept) ==>
          && (c in snapshots <==> c in old(snapshots)) && (c in snapshots ==> snapshots[c] == old(snapshots)[c])
        invariant forall c :: c in Dropped(order, i, kept) ==> c !in snapshots && c !in kept && c in old(manifests)
        invariant live == AssetsUpTo(order, i, kept, loaded)
        invariant Spared(kept)
      {
        var c, fault: bool := order[i], *;
        OneMoreNamed(order, i, kept, loaded);
        OneMoreDropped(order, i, kept);
        if fault {
          faulted := true;
          return;
        }
        if c in kept {
          live := live + loaded[c].assets.Keys;
        } else {
          var removed;
          removed, faulted := SweepOne(c);
          UntouchedOutside(m, s, manifests, snapshots, Dropped(order, i, kept) + {c}, kept);
          if !removed {
            return;
          }
        }
      }
      ok := true;
      AllDropped(order, kept);
    }

    // The walk over the shared assets: old ones that no kept manifest names are removed.
    method SweepAssets(live: set<string>, retention: Time, now: Time) returns (ok: bool, ghost faulted: bool)
      modifies `assets
      ensures forall name :: name in assets ==> name in old(assets) && assets[name] == old(assets)[name]
      ensures forall name :: name in old(assets) && !Expired(old(assets)[name], name in live, retention, now) ==>
        name in assets
      ensures ok ==> forall name :: name in assets ==> !Expired(assets[name], name in live, retention, now)
      ensures ok || faulted
    {
      faulted := false;
      var rest := assets.Keys;
      while rest != {}
        invariant rest <= assets.Keys
        invariant forall name :: name in assets ==> name in old(assets) && assets[name] == old(assets)[name]
        invariant forall name :: name in old(assets) && !Expired(old(assets)[name], name in live, retention, now) ==>
          name in assets
        invariant forall name :: name in assets && name !in rest ==>
          !Expired(assets[name], name in live, retention, now)
        decreases |rest|
      {
        var name, fault: bool :| name in rest;
        if fault {
          return false, true;
        }
        rest := rest - {name};
        if Expired(assets[name], name in live, retention, now) {
          assets := assets - {name};
        }
      }
      ok := true;
    }

    // The sweep never removes what anything refers to, at whatever point it stops; when it
    // succeeds it has removed everything else that it owns.
    twostate predicate SweptSafely(kept: set<Commit>, retention: Time, now: Time)
      reads this
    {
      && Spared(kept)
      && (forall name :: name in assets ==> name in old(assets) && assets[name] == old(assets)[name])
      && (forall name :: name in old(assets) && name !in assets ==>
            !old(NamedByKept(name, kept)) && now - old(assets)[name].modified >= retention)
    }

    twostate predicate SweptFully(kept: set<Commit>, retention: Time, now: Time)
      reads this
    {
      && manifests.Keys == old(manifests).Keys * kept
      && (forall c :: c in old(manifests) && c !in kept ==> c !in snapshots)
      && (frontend && sharedAssets ==> forall name :: name in assets ==>
            old(NamedByKept(name, kept)) || now - assets[name].modified < retention)
    }

    lemma LiveAreNamed(order: seq<Commit>, kept: set<Commit>, loaded: map<Commit, Manifest>)
      requires AllLoaded(loaded) && forall c :: c in order <==> c in loaded
      ensures forall name :: name in AssetsUpTo(order, |order|, kept, loaded) <==> NamedByKept(name, kept)
    {
    }

    // What the sweep will keep: everything referred to, and the newest releases.
    method ChooseKept(st: TargetState, keepReleases: nat, retention: Time, now: Time)
      returns (readable: bool, order: seq<Commit>, loaded: map<Commit, Manifest>, kept: set<Commit>,
               ghost faulted: bool)
      ensures Referenced(st, latest, frontend, retention, now) <= kept
      ensures readable ==> AllLoaded(loaded) && NewestFirst(order, CreationOf(loaded))
      ensures readable ==> kept == Referenced(st, latest, frontend, retention, now) + FirstOf(order, keepReleases)
      ensures !readable && !faulted ==> exists c :: c in manifests && !Load(c).Found?
    {
      hide HeldBy, Holding, NewestFirst, AllLoaded;
      var held := KeepHeld(st.records, retention, now);
      order, kept := [], CommitsOf(st.current) + CommitsOf(st.previous) + LiveCommits(latest) + held;
      readable, loaded, faulted := ReadManifests();
      if readable {
        order := SortNewestFirst(CreationOf(loaded));
        kept := kept + FirstOf(order, keepReleases);
      }
    }

    method Sweep(order: seq<Commit>, loaded: map<Commit, Manifest>, kept: set<Commit>, retention: Time, now: Time)
      returns (ok: bool, ghost faulted: bool)
      requires AllLoaded(loaded) && NewestFirst(order, CreationOf(loaded))
      modifies this
      ensures SweptSafely(kept, retention, now)
      ensures ok ==> SweptFully(kept, retention, now)
      ensures !ok && !faulted ==> exists c :: c in old(manifests) && c !in kept && c !in old(snapshots)
    {
      hide AssetsUpTo, NewestFirst, NamedByKept;
      SortedIsAll(order, CreationOf(loaded));
      LiveAreNamed(order, kept, loaded);
      var live;
      ok, live, faulted := SweepSnapshots(order, loaded, kept);
      if ok && frontend && sharedAssets {
        ok, faulted := SweepAssets(live, retention, now);
      }
    }

    // cleanupSnapshots. Safe wherever it stops, exact if it succeeds; without a fault it fails
    // only over a manifest that cannot be read, or that has lost its snapshot.
    method CleanupSnapshots(st: TargetState, keepReleases: nat, retention: Time, now: Time)
      returns (ok: bool, ghost order: seq<Commit>, ghost loaded: map<Commit, Manifest>, ghost kept: set<Commit>,
               ghost faulted: bool)
      modifies this
      ensures SweptSafely(kept, retention, now)
      ensures Referenced(st, old(latest), frontend, retention, now) <= kept
      ensures
        || (!ok && snapshots == old(snapshots) && manifests == old(manifests) && assets == old(assets))
        || (old(AllLoaded(loaded)) && NewestFirst(order, CreationOf(loaded))
            && kept == Referenced(st, old(latest), frontend, retention, now) + FirstOf(order, keepReleases))
      ensures ok ==> SweptFully(kept, retention, now)
      ensures !ok && !faulted ==>
        exists c :: c in old(manifests) && (!old(Load(c)).Found? || (c !in kept && c !in old(snapshots)))
      // What is needed, or is of the newest, is as it was, and its assets are there.
      ensures forall c :: Needed(st, old(latest), frontend, retention, now, c) ==> Survives(c)
      ensures ok ==> forall i :: 0 <= i < |order| && i < keepReleases ==> Survives(order[i])
      ensures ok ==> forall c :: c in manifests ==>
        || Needed(st, old(latest), frontend, retention, now, c)
        || exists i :: 0 <= i < |order| && i < keepReleases && order[i] == c
    {
      hide Referenced, NewestFirst, AllLoaded, Needed;
      ReferencedIsNeeded(st, latest, frontend, retention, now);
      var sorted, manifestsRead, protect;
      ok, sorted, manifestsRead, protect, faulted := ChooseKept(st, keepReleases, retention, now);
      order, loaded, kept := sorted, manifestsRead, protect;
      if ok {
        FirstAreFirst(sorted, keepReleases);
        ok, faulted := Sweep(sorted, manifestsRead, protect, retention, now);
      }
      forall c | c in kept ensures Survives(c) {
      }
    }

    // Snapshot, manifest and every asset that the manifest names.
    twostate predicate Survives(c: Commit)
      reads this
    {
      && (c in old(manifests) ==> c in manifests && manifests[c] == old(manifests)[c])
      && (c in old(manifests) && c in old(snapshots) ==> c in snapshots && snapshots[c] == old(snapshots)[c])
      && (old(Load(c)).Found? ==> forall name :: name in old(Load(c)).manifest.assets && name in old(assets) ==>
            name in assets && assets[name] == old(assets)[name])
    }

    /* ---------- verifyRetainedAssets ---------- */

    // The version has a valid manifest, and all assets that it names are there.
    ghost predicate HasAssets(c: Commit)
      reads this
    {
      && c in manifests && manifests[c].Json? && manifests[c].manifest.commit == c
      && var m := manifests[c].manifest;
         forall name :: name in m.assets ==>
           && name in m.files && m.files[name].sha == m.assets[name]
           && name in assets && assets[name].sha == m.assets[name]
    }

    // Every probed version's manifest is there and its assets are installed.
    ghost predicate Probeable(commits: set<Commit>)
      reads this
    {
      forall c :: c in commits ==> Load(c).Found? && Installed(Load(c).manifest.assets)
    }

    // The two loops: collect the versions, then ask for each of their assets. `faulted`:
    // the server gave a wrong answer for an installed asset.
    method VerifyRetainedAssets(st: TargetState, retention: Time, now: Time, except: Option<Commit>)
      returns (ok: bool, faulted: bool)
      requires frontend && sharedAssets
      ensures ok ==> Probeable(Probed(st, retention, now, except))
      ensures !ok && !faulted ==> !Probeable(Probed(st, retention, now, except))
      ensures ok ==> forall c :: ProbeNeeded(st, retention, now, except, c) ==> HasAssets(c)
      ensures !ok && !faulted ==> exists c :: ProbeNeeded(st, retention, now, except, c) && !HasAssets(c)
    {
      hide Probed, ProbeNeeded, HasAssets, Installed, Load;
      ProbeableMeans(st, retention, now, except);
      var rest := ToProbe(st, retention, now, except);
      ghost var probed := rest;
      faulted := false;
      while rest != {}
        invariant rest <= probed && Probeable(probed - rest)
        decreases |rest|
      {
        var c :| c in rest;
        if !Load(c).Found? {
          return false, false;
        }
        ok, faulted := AskFor(Load(c).manifest.assets);
        if !ok {
          return;
        }
        rest := rest - {c};
      }
      ok := true;
    }

    method ToProbe(st: TargetState, retention: Time, now: Time, except: Option<Commit>) returns (rest: set<Commit>)
      requires frontend
      ensures rest == Probed(st, retention, now, except)
    {
      hide HeldBy, Holding, NamedWithin;
      var held := KeepHeld(st.records, retention, now);
      var versions := CommitsOf(st.current) + CommitsOf(st.previous) + held;
      rest := if except.Some? then versions - {except.value} else versions;
    }

    lemma ProbeableMeans(st: TargetState, retention: Time, now: Time, except: Option<Commit>)
      ensures Probeable(Probed(st, retention, now, except)) <==>
        forall c :: ProbeNeeded(st, retention, now, except, c) ==> HasAssets(c)
    {
      hide ProbeNeeded, Probed;
      ProbedIsNeeded(st, retention, now, except);
    }

    method AskFor(named: map<string, Digest>) returns (ok: bool, faulted: bool)
      ensures ok ==> Installed(named)
      ensures !ok && !faulted ==> !Installed(named)
    {
      var rest := named.Keys;
      faulted := false;
      while rest != {}
        invariant rest <= named.Keys
        invariant forall name :: name in named && name !in rest ==> name in assets && assets[name].sha == named[name]
        decreases |rest|
      {
        faulted := *;
        var name :| name in rest;
        if faulted || name !in assets || assets[name].sha != named[name] {
          return false, faulted;
        }
        rest := rest - {name};
      }
      ok := true;
    }

    // The asset probe stays satisfiable: what a later activation asks for, with the same
    // records, is still there after an earlier sweep, successful or not.
    method CleanupThenProbe(st: TargetState, keepReleases: nat, retention: Time, now: Time, later: Time,
                            except: Option<Commit>)
      returns (ok: bool, faulted: bool)
      requires frontend && sharedAssets && now <= later
      requires Probeable(Probed(st, retention, later, except))
      modifies this
      ensures ok || faulted
    {
      hide Referenced, Probed;
      ghost var r := Probed(st, retention, later, except);
      ghost var order, loaded, kept, faulty;
      ghost var link := latest;
      var swept;
      swept, order, loaded, kept, faulty := CleanupSnapshots(st, keepReleases, retention, now);
      ProbedWasReferenced(st, link, retention, now, later, except);
      forall c | c in r ensures Load(c).Found? && Installed(Load(c).manifest.assets) {
        assert Load(c) == old(Load(c));
        forall name | name in Load(c).manifest.assets
          ensures name in assets && assets[name].sha == Load(c).manifest.assets[name]
        {
          assert old(NamedByKept(name, kept));
        }
      }
      ok, faulted := VerifyRetainedAssets(st, retention, later, except);
    }

    // The first check of a local rollback stays satisfiable: for a release that has not ended,
    // or whose revision is still the target's, the version to go back to is accepted after a
    // sweep, finished or not, exactly if it was intact before it.
    method CleanupThenRestore(st: TargetState, id: ReleaseId, keepReleases: nat, retention: Time, now: Time,
                              ghost p: Past)
      returns (r: Fetched<Manifest>, faulted: bool)
      requires SoundState(st, p) && id in st.records && st.records[id].baseline.Some?
      requires !st.records[id].result.Terminal() || st.records[id].result.after == st.revision
      modifies this
      ensures r.Got? ==> old(Intact(st.records[id].baseline.value))
      ensures r.Refused? && !faulted ==> !old(Intact(st.records[id].baseline.value))
    {
      hide Referenced;
      var v := st.records[id].baseline.value;
      ghost var order, loaded, kept, faulty;
      ghost var link := latest;
      var swept;
      swept, order, loaded, kept, faulty := CleanupSnapshots(st, keepReleases, retention, now);
      BaselineReferenced(st, p, id, link, frontend, retention, now);
      assert v.commit in kept && Load(v.commit) == old(Load(v.commit));
      r, faulted := VerifySnapshot(v);
    }
  }

  lemma TreeWithMarker(files: map<string, FileInfo>, commit: Commit)
    requires MARKER !in files
    ensures TreeOf(files[MARKER := MarkerInfo(commit)]) == TreeOf(files)[MARKER := Regular(MarkerInfo(commit))]
  {
  }

  // Equal numbers make an inclusion of finite sets an equality.
  lemma CountedAll(tree: Tree, files: map<string, FileInfo>)
    requires forall name :: name in tree ==> name in files && tree[name] == Regular(files[name])
    ensures |tree.Keys| == |files| <==> tree == TreeOf(files)
  {
    assert tree.Keys <= files.Keys;
    if |tree.Keys| == |files| {
      SameSize(tree.Keys, files.Keys);
      assert forall name :: name in TreeOf(files) <==> name in files;
    } else {
      assert TreeOf(files).Keys == files.Keys;
    }
  }

  lemma {:induction false} SameSize<T>(a: set<T>, b: set<T>)
    requires a <= b && |a| == |b|
    ensures a == b
  {
    if a != b {
      var x :| x in b && x !in a;
      assert a <= b - {x};
      Smaller(a, b - {x});
    }
  }

  lemma {:induction false} Smaller<T>(a: set<T>, b: set<T>)
    requires a <= b
    ensures |a| <= |b|
    decreases a
  {
    if a != {} {
      var x :| x in a;
      Smaller(a - {x}, b - {x});
    }
  }
}
