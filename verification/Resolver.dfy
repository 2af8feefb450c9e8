/** Profile resolution: a depth-first walk from the enabled packages through verified manifests that emits a
    dependency-first lock. */
module Resolvers {
  import opened Wrappers
  import opened Graphs
  import opened Manifests
  import opened ModLocks

  /** An archive file stored under its digest: its size, and its manifest if the archive and manifest decode. */
  datatype Blob = Blob(size: int, manifest: Option<Manifest>)

  /** What resolution reads: the Unicode tables, the lock hash, the authentic archives by digest, the built-in base,
      and the catalog of selected descriptors. */
  datatype World = World(
    text: Text,
    hasher: Hasher,
    blobs: map<string, Blob>,
    base: LockedPackage,
    catalog: map<string, Descriptor>)

  datatype ResolveError =
    | InvalidProfile
    | InvalidBase
    | InvalidIndex
    | BaseEnabled(id: string)
    | DependencyCycle(id: string)
    | NotInstalled(id: string)
    | Unverified(id: string)
    | NotExtension(id: string)
    | WrongVersion(owner: string, dependency: string)
    | BadLock(lock: LockError)

  /** Verification of one descriptor: it is well formed, its archive is present with its size, and the manifest inside
      is valid and agrees with it. */
  function Verify(w: World, d: Descriptor): (m: Option<Manifest>)
    ensures m.Some? ==> ValidManifest(w.text, m.value) && Describes(d, m.value)
    ensures m.Some? ==> 0 < d.size <= MAX_PACKAGE_BYTES && ValidDigest(d.digest) && ValidId(w.text, d.id)
    ensures m.Some? ==> d.digest in w.blobs && w.blobs[d.digest] == Blob(d.size, m)
    ensures ValidId(w.text, d.id) && 0 < d.size <= MAX_PACKAGE_BYTES && ValidDigest(d.digest) && d.digest in w.blobs
            && w.blobs[d.digest].size == d.size && w.blobs[d.digest].manifest.Some?
            && ValidManifest(w.text, w.blobs[d.digest].manifest.value) && Describes(d, w.blobs[d.digest].manifest.value)
            ==> m == w.blobs[d.digest].manifest
  {
    if !ValidId(w.text, d.id) || d.size <= 0 || d.size > MAX_PACKAGE_BYTES || !ValidDigest(d.digest) then None
    else if d.digest !in w.blobs || w.blobs[d.digest].size != d.size then None
    else
      match w.blobs[d.digest].manifest
      case None => None
      case Some(m) => if ValidManifest(w.text, m) && Describes(d, m) then Some(m) else None
  }

  predicate CatalogOk(w: World) {
    forall id :: id in w.catalog ==>
      && w.catalog[id].id == id && ValidId(w.text, id)
      && w.catalog[id].size > 0 && ValidDigest(w.catalog[id].digest)
  }

  function BaseId(w: World): string {
    w.base.manifest.id
  }

  /** The verified manifest of an installed package. */
  function ManifestOf(w: World, id: string): Option<Manifest> {
    if id in w.catalog then Verify(w, w.catalog[id]) else None
  }

  /** Installed, verifiable, and an extension. */
  predicate Loadable(w: World, id: string) {
    ManifestOf(w, id).Some? && ManifestOf(w, id).value.kind == "extension"
  }

  /** The version a requirement is checked against: of the base, or of the package installed under that id. */
  function InstalledVersion(w: World, id: string): Option<string> {
    if id == BaseId(w) then Some(w.base.manifest.version)
    else
      match ManifestOf(w, id)
      case None => None
      case Some(m) => Some(m.version)
  }

  predicate Satisfied(w: World, d: Dependency) {
    InstalledVersion(w, d.id).Some? && (d.version == "" || InstalledVersion(w, d.id) == Some(d.version))
  }

  predicate VersionsMet(w: World, m: Manifest) {
    forall k :: 0 <= k < |m.dependencies| ==> Satisfied(w, m.dependencies[k])
  }

  /** A package that can be activated, as far as its own metadata and its direct dependencies go. */
  predicate Sound(w: World, id: string) {
    Loadable(w, id) && VersionsMet(w, ManifestOf(w, id).value)
  }

  /** Dependencies between the loadable packages; the base is a leaf. */
  function ModGraph(w: World): Graph {
    map id | id in w.catalog && id != BaseId(w) && Loadable(w, id) :: DependencyIds(ManifestOf(w, id).value)
  }

  /** The condition on the packages a profile reaches. */
  ghost predicate Resolvable(w: World, enabled: seq<string>) {
    && BaseId(w) !in enabled
    && (forall id :: Reached(ModGraph(w), enabled, id) && id != BaseId(w) ==> Sound(w, id))
    && !CyclicFrom(ModGraph(w), enabled)
  }

  function PackageOf(w: World, id: string): LockedPackage
    requires Loadable(w, id)
  {
    LockedPackage(w.catalog[id], ManifestOf(w, id).value)
  }

  lemma InGraph(w: World, id: string)
    requires Loadable(w, id) && id != BaseId(w)
    ensures id in ModGraph(w)
  {
  }

  lemma EdgeOfDependency(w: World, id: string, k: nat)
    requires Loadable(w, id) && id != BaseId(w) && k < |ManifestOf(w, id).value.dependencies|
    ensures Edge(ModGraph(w), id, ManifestOf(w, id).value.dependencies[k].id)
  {
    assert DependencyIds(ManifestOf(w, id).value)[k] == ManifestOf(w, id).value.dependencies[k].id;
  }

  datatype VisitState = Visiting | Complete

  /** What has been emitted is exactly the packages of the nodes the search has finished. */
  ghost predicate Emitted(w: World, packages: seq<LockedPackage>, done: seq<string>) {
    && |packages| == |done|
    && (forall i :: 0 <= i < |done| ==> Sound(w, done[i]) && packages[i] == PackageOf(w, done[i]))
  }

  /** The recorded states say which nodes are finished and which are being visited. */
  ghost predicate Tracks(state: map<string, VisitState>, done: seq<string>, stack: seq<string>) {
    && (forall id :: id in state <==> id in done || id in stack)
    && (forall id :: id in state ==> (state[id] == Complete <==> id in done))
  }

  ghost predicate Cached(w: World, manifests: map<string, Manifest>) {
    forall id :: id in manifests ==> ManifestOf(w, id) == Some(manifests[id])
  }

  /** A reason why no lock can come out: an unsound package that the profile reaches, or a cycle. */
  ghost predicate Defective(w: World, enabled: seq<string>) {
    || (exists id :: Reached(ModGraph(w), enabled, id) && id != BaseId(w) && !Sound(w, id))
    || CyclicFrom(ModGraph(w), enabled)
  }

  // ---- Bookkeeping of the walk ----

  lemma TracksState(state: map<string, VisitState>, done: seq<string>, stack: seq<string>, id: string)
    requires Tracks(state, done, stack) && id in state
    ensures if state[id] == Complete then id in done else id in stack
  {
  }

  lemma TracksEntry(state: map<string, VisitState>, done: seq<string>, stack: seq<string>, id: string)
    requires Tracks(state, done, stack) && id !in state
    ensures id !in done && id !in stack && Tracks(state[id := Visiting], done, stack + [id])
  {
  }

  lemma TracksEmission(state: map<string, VisitState>, done: seq<string>, stack: seq<string>, id: string)
    requires Tracks(state, done, stack + [id]) && id !in stack
    ensures Tracks(state[id := Complete], done + [id], stack)
  {
    assert (stack + [id])[|stack|] == id;
    assert forall x :: x in stack + [id] <==> x in stack || x == id;
  }

  lemma DoneIsCached(w: World, manifests: map<string, Manifest>, state: map<string, VisitState>, done: seq<string>,
                     stack: seq<string>, id: string)
    requires Tracks(state, done, stack) && Cached(w, manifests) && state.Keys <= manifests.Keys && id in done
    ensures id in manifests && ManifestOf(w, id) == Some(manifests[id])
  {
  }

  /** A node whose dependencies are finished and satisfied can be emitted. */
  lemma EmitPackage(w: World, enabled: seq<string>, packages: seq<LockedPackage>, done: seq<string>,
                    stack: seq<string>, id: string)
    requires Searching(ModGraph(w), {BaseId(w)}, enabled, done, stack + [id]) && Emitted(w, packages, done)
    requires Loadable(w, id) && id != BaseId(w) && id !in stack
    requires
      var m := ManifestOf(w, id).value;
      forall k :: 0 <= k < |m.dependencies| ==>
        Satisfied(w, m.dependencies[k]) && (m.dependencies[k].id == BaseId(w) || m.dependencies[k].id in done)
    ensures Searching(ModGraph(w), {BaseId(w)}, enabled, done + [id], stack)
    ensures Emitted(w, packages + [PackageOf(w, id)], done + [id])
  {
    var m := ManifestOf(w, id).value;
    forall d | d in ModGraph(w)[id] ensures d in {BaseId(w)} || d in done {
      var k :| 0 <= k < |DependencyIds(m)| && DependencyIds(m)[k] == d;
    }
    Emit(ModGraph(w), {BaseId(w)}, enabled, done, stack, id);
    assert Sound(w, id);
  }

  // ---- Failures have causes ----

  lemma CycleIsDefect(w: World, enabled: seq<string>, done: seq<string>, stack: seq<string>, id: string)
    requires Searching(ModGraph(w), {BaseId(w)}, enabled, done, stack) && MayEnter(ModGraph(w), enabled, stack, id)
    requires id in stack
    ensures Defective(w, enabled)
  {
    MeetAgain(ModGraph(w), {BaseId(w)}, enabled, done, stack, id);
  }

  lemma UnsoundIsDefect(w: World, enabled: seq<string>, stack: seq<string>, id: string)
    requires MayEnter(ModGraph(w), enabled, stack, id) && id != BaseId(w) && !Loadable(w, id)
    ensures Defective(w, enabled)
  {
    assert !Sound(w, id);
  }

  lemma UnmetIsDefect(w: World, enabled: seq<string>, done: seq<string>, stack: seq<string>, owner: string, k: nat)
    requires Searching(ModGraph(w), {BaseId(w)}, enabled, done, stack) && owner in stack && owner != BaseId(w)
    requires Loadable(w, owner) && k < |ManifestOf(w, owner).value.dependencies|
    requires !Satisfied(w, ManifestOf(w, owner).value.dependencies[k])
    ensures Defective(w, enabled)
  {
    assert !Sound(w, owner);
  }

  class ProfileResolver {
    const world: World
    ghost const enabled: seq<string>
    var manifests: map<string, Manifest>
    var state: map<string, VisitState>
    var packages: seq<LockedPackage>
    ghost var done: seq<string>
    ghost var stack: seq<string>

    ghost predicate Valid()
      reads this
    {
      && Searching(ModGraph(world), {BaseId(world)}, enabled, done, stack)
      && Tracks(state, done, stack)
      && Emitted(world, packages, done)
      && Cached(world, manifests) && state.Keys <= manifests.Keys
    }

    constructor (world: World, ghost enabled: seq<string>)
      ensures this.world == world && this.enabled == enabled
      ensures Valid() && done == [] && stack == []
    {
      this.world, this.enabled := world, enabled;
      manifests, state, packages := map[], map[], [];
      done, stack := [], [];
    }

    /** Verifies and caches the manifest of one selected package. */
    method Load(id: string) returns (manifest: Result<Manifest, ResolveError>)
      requires Valid()
      modifies this`manifests
      ensures Valid()
      ensures manifest.Ok? <==> ManifestOf(world, id).Some?
      ensures manifest.Ok? ==> manifest.value == ManifestOf(world, id).value && id in manifests
      ensures manifest == Err(NotInstalled(id)) <==> id !in world.catalog
      ensures old(manifests.Keys) <= manifests.Keys
      ensures manifest.Err? ==> manifest.error == NotInstalled(id) || manifest.error == Unverified(id)
    {
      hide Searching, Tracks, Emitted;
      if id in manifests {
        return Ok(manifests[id]);
      }
      if id !in world.catalog {
        return Err(NotInstalled(id));
      }
      var verified := Verify(world, world.catalog[id]);
      if verified.None? {
        return Err(Unverified(id));
      }
      manifests := manifests[id := verified.value];
      return Ok(verified.value);
    }

    /** Emits `id` after everything it depends on. The base is always there already. */
    method Visit(id: string) returns (error: Option<ResolveError>)
      requires Valid() && MayEnter(ModGraph(world), enabled, stack, id)
      modifies this
      ensures error.None? ==> Valid() && stack == old(stack) && old(done) <= done
      ensures error.None? ==> old(state.Keys) <= state.Keys && (id == BaseId(world) || id in done)
      ensures error.Some? ==> Defective(world, enabled) && !error.value.BadLock?
      decreases ModGraph(world).Keys - state.Keys, 0
    {
      hide Searching, MayEnter, CyclicFrom, Reached, Tracks, Emitted, Defective, Cached, Sound, Satisfied, ModGraph,
           Verify, ManifestOf;
      if id == BaseId(world) {
        return None;
      }
      if id in state {
        TracksState(state, done, stack, id);
        if state[id] == Visiting {
          CycleIsDefect(world, enabled, done, stack, id);
          return Some(DependencyCycle(id));
        }
        return None;
      }
      var loaded := Load(id);
      if loaded.Err? {
        UnsoundIsDefect(world, enabled, stack, id);
        return Some(loaded.error);
      }
      var manifest := loaded.value;
      if manifest.kind != "extension" {
        UnsoundIsDefect(world, enabled, stack, id);
        return Some(NotExtension(id));
      }
      var descriptor := world.catalog[id];
      InGraph(world, id);
      TracksEntry(state, done, stack, id);
      Enter(ModGraph(world), {BaseId(world)}, enabled, done, stack, id);
      ghost var before := stack;
      assert id in ModGraph(world).Keys - state.Keys;
      state := state[id := Visiting];
      stack := stack + [id];
      for k := 0 to |manifest.dependencies|
        invariant Valid() && stack == before + [id] && old(done) <= done
        invariant old(state.Keys) + {id} <= state.Keys
        invariant forall j :: 0 <= j < k ==>
          Satisfied(world, manifest.dependencies[j])
          && (manifest.dependencies[j].id == BaseId(world) || manifest.dependencies[j].id in done)
      {
        EdgeOfDependency(world, id, k);
        MayFollow(ModGraph(world), {BaseId(world)}, enabled, done, stack, manifest.dependencies[k].id);
        error := VisitDependency(id, k);
        if error.Some? {
          return;
        }
      }
      EmitPackage(world, enabled, packages, done, before, id);
      TracksEmission(state, done, before, id);
      state := state[id := Complete];
      packages := packages + [LockedPackage(descriptor, manifest)];
      done, stack := done + [id], before;
      error := None;
    }

    /** Resolves dependency `k` of `owner`, then compares versions. */
    method VisitDependency(owner: string, k: nat) returns (error: Option<ResolveError>)
      requires Valid() && Loadable(world, owner) && owner != BaseId(world)
      requires k < |ManifestOf(world, owner).value.dependencies|
      requires stack != [] && stack[|stack| - 1] == owner
      requires MayEnter(ModGraph(world), enabled, stack, ManifestOf(world, owner).value.dependencies[k].id)
      modifies this
      ensures error.None? ==> Valid() && stack == old(stack) && old(done) <= done && old(state.Keys) <= state.Keys
      ensures error.None? ==> Satisfied(world, ManifestOf(world, owner).value.dependencies[k])
      ensures error.None? ==>
                var dependency := ManifestOf(world, owner).value.dependencies[k];
                dependency.id == BaseId(world) || dependency.id in done
      ensures error.Some? ==> Defective(world, enabled) && !error.value.BadLock?
      decreases ModGraph(world).Keys - state.Keys, 1
    {
      hide Searching, MayEnter, CyclicFrom, Reached, Tracks, Emitted, Defective, Sound;
      var dependency := ManifestOf(world, owner).value.dependencies[k];
      if dependency.id == BaseId(world) {
        if dependency.version != "" && dependency.version != world.base.manifest.version {
          UnmetIsDefect(world, enabled, done, stack, owner, k);
          return Some(WrongVersion(owner, dependency.id));
        }
        return None;
      }
      error := Visit(dependency.id);
      if error.Some? {
        return;
      }
      DoneIsCached(world, manifests, state, done, stack, dependency.id);
      var resolved := manifests[dependency.id];
      if dependency.version != "" && resolved.version != dependency.version {
        UnmetIsDefect(world, enabled, done, stack, owner, k);
        return Some(WrongVersion(owner, dependency.id));
      }
      return None;
    }
  }

  // ---- The resolved set ----

  datatype ResolvedSet = ResolvedSet(base: LockedPackage, extensions: Lock)

  function LockOf(w: World, packages: seq<LockedPackage>): Lock {
    var lock := Lock(LOCK_SCHEMA, "", packages);
    lock.(digest := LockDigest(w.hasher, lock))
  }

  /** The base, or a package the profile reaches. */
  ghost predicate Active(w: World, enabled: seq<string>, id: string) {
    id == BaseId(w) || Reached(ModGraph(w), enabled, id)
  }

  ghost predicate ActiveDisjoint(w: World, enabled: seq<string>) {
    forall a, b :: Active(w, enabled, a) && Active(w, enabled, b) && a != b ==> !Overlap(a, b)
  }

  /** The names a finished walk emitted: those of the finished nodes, in order. */
  lemma EmittedIds(w: World, packages: seq<LockedPackage>, done: seq<string>)
    requires Emitted(w, packages, done) && CatalogOk(w)
    ensures PackageIds(packages) == done
  {
    forall i | 0 <= i < |done| ensures PackageIds(packages)[i] == done[i] {
      assert Sound(w, done[i]);
    }
  }

  /** Each entry is the catalog's own: the selected descriptor with the manifest its archive verifies to. */
  predicate FromCatalog(w: World, packages: seq<LockedPackage>) {
    forall i :: 0 <= i < |packages| ==>
      Loadable(w, packages[i].manifest.id) && packages[i] == PackageOf(w, packages[i].manifest.id)
  }

  lemma EmittedFromCatalog(w: World, packages: seq<LockedPackage>, done: seq<string>)
    requires Emitted(w, packages, done) && CatalogOk(w)
    ensures FromCatalog(w, packages)
  {
    forall i | 0 <= i < |packages|
      ensures Loadable(w, packages[i].manifest.id) && packages[i] == PackageOf(w, packages[i].manifest.id)
    {
      assert Sound(w, done[i]) && packages[i].manifest.id == done[i];
    }
  }

  lemma EmittedIsMet(w: World, packages: seq<LockedPackage>, done: seq<string>, i: nat)
    requires Emitted(w, packages, done) && CatalogOk(w) && i < |packages|
    requires DependencyFirst(ModGraph(w), {BaseId(w)}, done)
    ensures AllMet(packages, w.base, i)
  {
    EmittedIds(w, packages, done);
    var m := packages[i].manifest;
    assert Sound(w, done[i]);
    forall k | 0 <= k < |m.dependencies| ensures Met(packages, w.base, i, m.dependencies[k]) {
      var d := m.dependencies[k];
      assert Satisfied(w, d);
      if d.id != BaseId(w) {
        assert DependencyIds(m)[k] == d.id;
        assert d.id in done[..i];
        var p :| 0 <= p < i && done[p] == d.id;
        assert packages[p] == PackageOf(w, done[p]) && PackageIds(packages)[p] == d.id;
      }
    }
  }

  /** Whatever order the walk emits, it passes every check of the independent validator but the one on namespaces. */
  lemma EmittedOrderPassesLock(w: World, packages: seq<LockedPackage>, done: seq<string>)
    requires Emitted(w, packages, done) && CatalogOk(w)
    requires Distinct(done) && DependencyFirst(ModGraph(w), {BaseId(w)}, done)
    ensures LockMetadataOk(w.text, w.hasher, LockOf(w, packages), w.base)
  {
    var lock := LockOf(w, packages);
    DigestTextIsValid(w.hasher.sum(LOCK_SCHEMA, packages));
    EmittedIds(w, packages, done);
    forall i | 0 <= i < |packages| ensures ValidExtension(w.text, packages[i]) && AllMet(packages, w.base, i) {
      assert Sound(w, done[i]);
      EmittedIsMet(w, packages, done, i);
    }
  }

  /** The validator's pairwise test on the emitted names is the test on everything active. */
  lemma DisjointNames(w: World, enabled: seq<string>, done: seq<string>)
    requires Distinct(done) && BaseId(w) !in done
    requires forall x :: x in done <==> Reached(ModGraph(w), enabled, x) && x != BaseId(w)
    ensures NamespacesDisjoint([BaseId(w)] + done) <==> ActiveDisjoint(w, enabled)
  {
    var ids := [BaseId(w)] + done;
    hide Reached, ModGraph;
    assert forall x :: Active(w, enabled, x) <==> x in ids;
    if NamespacesDisjoint(ids) {
      forall a, b | a in ids && b in ids && a != b ensures !Overlap(a, b) {
        var i :| 0 <= i < |ids| && ids[i] == a;
        var j :| 0 <= j < |ids| && ids[j] == b;
        assert i < j ==> !Overlap(ids[i], ids[j]);
        assert j < i ==> !Overlap(ids[j], ids[i]);
      }
    }
    if ActiveDisjoint(w, enabled) {
      forall i, j | 0 <= i < j < |ids| ensures !Overlap(ids[i], ids[j]) {
        assert Active(w, enabled, ids[i]) && Active(w, enabled, ids[j]);
        assert ids[i] != ids[j];
      }
    }
  }

  lemma WalkIsComplete(w: World, enabled: seq<string>, packages: seq<LockedPackage>, done: seq<string>)
    requires Searching(ModGraph(w), {BaseId(w)}, enabled, done, []) && Emitted(w, packages, done)
    requires BaseId(w) !in enabled && forall id :: id in enabled ==> id in done
    ensures Resolvable(w, enabled)
    ensures forall x :: x in done <==> Reached(ModGraph(w), enabled, x) && x != BaseId(w)
    ensures BaseId(w) !in done && Distinct(done) && DependencyFirst(ModGraph(w), {BaseId(w)}, done)
  {
    hide Sound, ModGraph, CyclicFrom, Reached;
    BaseIsLeaf(w);
    BaseIsNotDone(w, enabled, done);
    Finished(ModGraph(w), {BaseId(w)}, enabled, done);
    forall id | Reached(ModGraph(w), enabled, id) && id != BaseId(w) ensures Sound(w, id) {
      var i :| 0 <= i < |done| && done[i] == id;
    }
  }

  lemma BaseIsLeaf(w: World)
    ensures {BaseId(w)} !! ModGraph(w).Keys
  {
  }

  lemma BaseIsNotDone(w: World, enabled: seq<string>, done: seq<string>)
    requires Searching(ModGraph(w), {BaseId(w)}, enabled, done, [])
    ensures BaseId(w) !in done
  {
    hide Reached;
    forall i | 0 <= i < |done| ensures done[i] != BaseId(w) {
      assert done[i] in ModGraph(w);
    }
  }

  lemma DefectBlocks(w: World, enabled: seq<string>)
    requires Defective(w, enabled)
    ensures !Resolvable(w, enabled)
  {
  }

  // ---- Against the independent validator ----

  function Others(ids: seq<string>, base: string): seq<string> {
    if ids == [] then []
    else
      var last := ids[|ids| - 1];
      Others(ids[..|ids| - 1], base) + if last == base then [] else [last]
  }

  lemma {:induction false} OthersHave(ids: seq<string>, base: string)
    ensures forall x :: x in Others(ids, base) <==> x in ids && x != base
    ensures Distinct(ids) ==> Distinct(Others(ids, base))
  {
    if ids != [] {
      var front, last := ids[..|ids| - 1], ids[|ids| - 1];
      OthersHave(front, base);
      assert ids == front + [last];
      if Distinct(ids) {
        assert forall i :: 0 <= i < |front| ==> front[i] == ids[i];
        assert last !in front;
      }
    }
  }

  /** In a list whose dependencies are met, every package comes after the packages it depends on. */
  lemma {:induction false} MetListIsOrdered(w: World, packages: seq<LockedPackage>, n: nat)
    requires FromCatalog(w, packages) && n <= |packages|
    requires forall i :: 0 <= i < |packages| ==> AllMet(packages, w.base, i)
    ensures DependencyFirst(ModGraph(w), {BaseId(w)}, Others(PackageIds(packages)[..n], BaseId(w)))
  {
    hide ModGraph, AllMet, FromCatalog, DependencyFirst, Others;
    var ids := PackageIds(packages);
    if n == 0 {
      NothingIsOrdered(ModGraph(w), {BaseId(w)}, ids[..0], BaseId(w));
    } else {
      MetListIsOrdered(w, packages, n - 1);
      OthersHave(ids[..n - 1], BaseId(w));
      OthersGrow(ids, n, BaseId(w));
      if ids[n - 1] != BaseId(w) {
        MetIsKnown(w, packages, n - 1);
        OrderGrows(ModGraph(w), {BaseId(w)}, Others(ids[..n - 1], BaseId(w)), ids[n - 1]);
      }
    }
  }

  lemma NothingIsOrdered(g: Graph, leaves: set<string>, ids: seq<string>, base: string)
    requires ids == []
    ensures DependencyFirst(g, leaves, Others(ids, base))
  {
  }

  lemma OthersGrow(ids: seq<string>, n: nat, base: string)
    requires 0 < n <= |ids|
    ensures Others(ids[..n], base) ==
            if ids[n - 1] == base then Others(ids[..n - 1], base) else Others(ids[..n - 1], base) + [ids[n - 1]]
  {
    assert ids[..n][..n - 1] == ids[..n - 1];
  }

  lemma OrderGrows(g: Graph, leaves: set<string>, order: seq<string>, id: string)
    requires DependencyFirst(g, leaves, order) && id in g && forall d :: d in g[id] ==> d in leaves || d in order
    ensures DependencyFirst(g, leaves, order + [id])
  {
    var grown := order + [id];
    forall i | 0 <= i < |grown|
      ensures grown[i] in g && forall d :: d in g[grown[i]] ==> d in leaves || d in grown[..i]
    {
      assert grown[..i] == order[..i];
    }
  }

  lemma MetIsKnown(w: World, packages: seq<LockedPackage>, i: nat)
    requires FromCatalog(w, packages) && i < |packages| && AllMet(packages, w.base, i)
    requires PackageIds(packages)[i] != BaseId(w)
    ensures var id, before := PackageIds(packages)[i], PackageIds(packages)[..i];
            && id in ModGraph(w)
            && forall d :: d in ModGraph(w)[id] ==> d == BaseId(w) || d in before
  {
    var m := packages[i].manifest;
    InGraph(w, m.id);
    forall d | d in DependencyIds(m) ensures d == BaseId(w) || d in PackageIds(packages)[..i] {
      var k :| 0 <= k < |m.dependencies| && DependencyIds(m)[k] == d;
      assert Met(packages, w.base, i, m.dependencies[k]);
      if d != BaseId(w) {
        var p :| 0 <= p < i && packages[p].manifest.id == d;
        assert PackageIds(packages)[..i][p] == d;
      }
    }
  }

  /** What the validator asks of a package's versions is what resolution asks. */
  lemma MetIsSound(w: World, packages: seq<LockedPackage>, i: nat)
    requires FromCatalog(w, packages) && i < |packages| && AllMet(packages, w.base, i)
    ensures Sound(w, packages[i].manifest.id)
  {
    var m := packages[i].manifest;
    forall k | 0 <= k < |m.dependencies| ensures Satisfied(w, m.dependencies[k]) {
      var d := m.dependencies[k];
      assert Met(packages, w.base, i, d);
      if d.id != BaseId(w) {
        var p :| 0 <= p < i && packages[p].manifest.id == d.id
          && (d.version == "" || d.version == packages[p].manifest.version);
        assert packages[p] == PackageOf(w, d.id);
      }
    }
  }

  /** A lock made of the catalog's packages that the validator accepts and that has everything enabled. */
  ghost predicate Certifies(w: World, enabled: seq<string>, lock: Lock) {
    && LockOk(w.text, w.hasher, lock, w.base)
    && FromCatalog(w, lock.packages)
    && forall id :: id in enabled ==> id in PackageIds(lock.packages)
  }

  lemma CertifiedIsResolvable(w: World, enabled: seq<string>, lock: Lock)
    requires Certifies(w, enabled, lock) && BaseId(w) !in enabled
    ensures Resolvable(w, enabled) && ActiveDisjoint(w, enabled)
  {
    var ids := PackageIds(lock.packages);
    var order := Others(ids, BaseId(w));
    hide ModGraph, Reached, LockMetadataOk, Others, CyclicFrom, DependencyFirst, Sound, ActiveDisjoint, FromCatalog;
    CertifiedOrder(w, enabled, lock);
    forall x | Reached(ModGraph(w), enabled, x) && x != BaseId(w) ensures Sound(w, x) {
      var i :| 0 <= i < |ids| && ids[i] == x;
      LockedIsMet(w, lock, i);
      MetIsSound(w, lock.packages, i);
    }
    NotCyclicFrom(w, enabled, order);
    CertifiedIsDisjoint(w, enabled, ids);
  }

  /** The certificate lists everything reachable, in an order the search could have found. */
  lemma CertifiedOrder(w: World, enabled: seq<string>, lock: Lock)
    requires Certifies(w, enabled, lock) && BaseId(w) !in enabled
    ensures var ids := PackageIds(lock.packages);
            var order := Others(ids, BaseId(w));
            && DependencyFirst(ModGraph(w), {BaseId(w)}, order) && Distinct(order)
            && (forall x :: x in order ==> x in ids)
            && forall x :: Reached(ModGraph(w), enabled, x) ==> x in order || x == BaseId(w)
  {
    var ids := PackageIds(lock.packages);
    var order := Others(ids, BaseId(w));
    hide ModGraph, Reached, Others, DependencyFirst, FromCatalog, AllMet;
    MetListIsOrdered(w, lock.packages, |ids|);
    assert ids[..|ids|] == ids;
    OthersHave(ids, BaseId(w));
    BaseIsLeaf(w);
    forall x | Reached(ModGraph(w), enabled, x) ensures x in order || x == BaseId(w) {
      ReachedIsDone(ModGraph(w), {BaseId(w)}, enabled, order, x);
    }
  }

  lemma LockedIsMet(w: World, lock: Lock, i: nat)
    requires LockOk(w.text, w.hasher, lock, w.base) && i < |lock.packages|
    ensures AllMet(lock.packages, w.base, i)
  {
  }

  lemma NotCyclicFrom(w: World, enabled: seq<string>, order: seq<string>)
    requires DependencyFirst(ModGraph(w), {BaseId(w)}, order) && Distinct(order)
    requires forall x :: Reached(ModGraph(w), enabled, x) ==> x in order || x == BaseId(w)
    ensures !CyclicFrom(ModGraph(w), enabled)
  {
    BaseIsLeaf(w);
    forall p | IsPath(ModGraph(w), p) && |p| >= 2 && Reached(ModGraph(w), enabled, p[0])
      ensures !IsCycle(ModGraph(w), p)
    {
      assert Edge(ModGraph(w), p[0], p[1]);
      OrderHasNoCycle(ModGraph(w), {BaseId(w)}, order, p);
    }
  }

  lemma CertifiedIsDisjoint(w: World, enabled: seq<string>, ids: seq<string>)
    requires NamespacesDisjoint([BaseId(w)] + ids)
    requires forall x :: Reached(ModGraph(w), enabled, x) ==> x in ids || x == BaseId(w)
    ensures ActiveDisjoint(w, enabled)
  {
    var all := [BaseId(w)] + ids;
    hide Reached, ModGraph;
    forall a, b | Active(w, enabled, a) && Active(w, enabled, b) && a != b ensures !Overlap(a, b) {
      assert a in all && b in all;
      var i :| 0 <= i < |all| && all[i] == a;
      var j :| 0 <= j < |all| && all[j] == b;
      assert i < j ==> !Overlap(all[i], all[j]);
      assert j < i ==> !Overlap(all[j], all[i]);
    }
  }

  /** Some acceptable lock has everything enabled exactly when what is enabled can be resolved. */
  lemma CertifiedIffResolvable(w: World, enabled: seq<string>)
    ensures BaseId(w) !in enabled && (exists lock :: Certifies(w, enabled, lock)) ==>
              Resolvable(w, enabled) && ActiveDisjoint(w, enabled)
  {
    hide Certifies, Resolvable, ActiveDisjoint;
    if BaseId(w) !in enabled && exists lock :: Certifies(w, enabled, lock) {
      var lock :| Certifies(w, enabled, lock);
      CertifiedIsResolvable(w, enabled, lock);
    }
  }

  predicate ValidBase(w: World) {
    ValidPackage(w.text, w.base) && w.base.manifest.kind == "game"
  }

  /** Resolution succeeds exactly when the profile, base and catalog are well formed, everything the profile reaches is
      sound, nothing is circular, and no two active names overlap. The lock then holds exactly what is reached, as
      the catalog has it, and the independent validator accepts it. When the validator does reject, namespaces overlap.
      */
  method Resolve(w: World, profile: Profile) returns (resolved: Result<ResolvedSet, ResolveError>)
    ensures resolved.Ok? <==>
              && ValidProfile(w.text, profile) && ValidBase(w) && CatalogOk(w)
              && Resolvable(w, profile.enabled) && ActiveDisjoint(w, profile.enabled)
    ensures resolved.Ok? <==>
              && ValidProfile(w.text, profile) && ValidBase(w) && CatalogOk(w)
              && BaseId(w) !in profile.enabled && exists lock :: Certifies(w, profile.enabled, lock)
    ensures resolved.Ok? ==>
              && resolved.value.base == w.base
              && LockOk(w.text, w.hasher, resolved.value.extensions, w.base)
              && (forall x :: x in PackageIds(resolved.value.extensions.packages) <==>
                    Reached(ModGraph(w), profile.enabled, x) && x != BaseId(w))
              && FromCatalog(w, resolved.value.extensions.packages)
              && resolved.value.extensions == LockOf(w, resolved.value.extensions.packages)
    ensures resolved.Err? && resolved.error.BadLock? ==>
              resolved.error.lock == NamespaceOverlap && !ActiveDisjoint(w, profile.enabled)
  {
    hide Searching, Tracks, Emitted, Cached, Reached, Defective, Resolvable, ActiveDisjoint, LockMetadataOk,
         ValidPackage, FromCatalog, ValidProfile, CatalogOk, ModGraph, MayEnter, NamespacesDisjoint;
    CertifiedIffResolvable(w, profile.enabled);
    var profileOk := ValidateProfile(w.text, profile);
    if !profileOk {
      return Err(InvalidProfile);
    }
    var baseOk := ValidateLockedPackage(w.text, w.base);
    if !baseOk || w.base.manifest.kind != "game" {
      return Err(InvalidBase);
    }
    if !CatalogOk(w) {
      return Err(InvalidIndex);
    }
    var resolver := new ProfileResolver(w, profile.enabled);
    for i := 0 to |profile.enabled|
      invariant fresh(resolver) && resolver.world == w && resolver.enabled == profile.enabled
      invariant resolver.Valid() && resolver.stack == []
      invariant forall k :: 0 <= k < i ==> profile.enabled[k] != BaseId(w) && profile.enabled[k] in resolver.done
    {
      var id := profile.enabled[i];
      if id == BaseId(w) {
        BaseBlocks(w, profile.enabled);
        return Err(BaseEnabled(id));
      }
      MayStart(ModGraph(w), profile.enabled, id);
      var error := resolver.Visit(id);
      if error.Some? {
        DefectBlocks(w, profile.enabled);
        return Err(error.value);
      }
    }
    WalkIsComplete(w, profile.enabled, resolver.packages, resolver.done);
    EmittedOrderPassesLock(w, resolver.packages, resolver.done);
    EmittedIds(w, resolver.packages, resolver.done);
    EmittedFromCatalog(w, resolver.packages, resolver.done);
    DisjointNames(w, profile.enabled, resolver.done);
    var lock := LockOf(w, resolver.packages);
    var error := ValidateLock(w.text, w.hasher, lock, w.base);
    if error.Some? {
      return Err(BadLock(error.value));
    }
    EnabledAreDone(w, profile.enabled, resolver.done);
    assert Certifies(w, profile.enabled, lock);
    return Ok(ResolvedSet(w.base, lock));
  }

  lemma EnabledAreDone(w: World, enabled: seq<string>, done: seq<string>)
    requires forall k :: 0 <= k < |enabled| ==> enabled[k] != BaseId(w) && enabled[k] in done
    ensures forall id :: id in enabled ==> id in done && id != BaseId(w)
  {
  }

  lemma BaseBlocks(w: World, enabled: seq<string>)
    requires BaseId(w) in enabled
    ensures !Resolvable(w, enabled)
  {
  }
}
