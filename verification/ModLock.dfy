/** Session locks: the independent check that a package list is complete, ordered and self-consistent. */
module ModLocks {
  import opened Wrappers
  import opened Graphs
  import opened Manifests

  /** The hash of a lock's content, with its digest field cleared. */
  datatype Hasher = Hasher(sum: (string, seq<LockedPackage>) -> Hash)

  function LockDigest(hasher: Hasher, lock: Lock): string {
    DigestText(hasher.sum(lock.schema, lock.packages))
  }

  function PackageIds(packages: seq<LockedPackage>): seq<string> {
    seq(|packages|, i requires 0 <= i < |packages| => packages[i].manifest.id)
  }

  /** One package name is a dotted prefix of the other. */
  predicate Overlap(a: string, b: string) {
    HasPrefix(a, b + ".") || HasPrefix(b, a + ".")
  }

  predicate NamespacesDisjoint(ids: seq<string>) {
    forall i, j :: 0 <= i < j < |ids| ==> !Overlap(ids[i], ids[j])
  }

  /** A dependency of the package at `index` is met: by the base, or by an earlier package, in the version asked for. */
  predicate Met(packages: seq<LockedPackage>, base: LockedPackage, index: nat, d: Dependency)
    requires index <= |packages|
  {
    if d.id == base.manifest.id then d.version == "" || d.version == base.manifest.version
    else
      exists p :: 0 <= p < index && packages[p].manifest.id == d.id
        && (d.version == "" || d.version == packages[p].manifest.version)
  }

  predicate AllMet(packages: seq<LockedPackage>, base: LockedPackage, index: nat)
    requires index < |packages|
  {
    forall k :: 0 <= k < |packages[index].manifest.dependencies| ==>
      Met(packages, base, index, packages[index].manifest.dependencies[k])
  }

  predicate ValidExtension(text: Text, pkg: LockedPackage) {
    ValidPackage(text, pkg) && pkg.manifest.kind == "extension"
  }

  /** Everything a lock must satisfy apart from disjoint namespaces. */
  predicate LockMetadataOk(text: Text, hasher: Hasher, lock: Lock, base: LockedPackage) {
    && lock.schema == LOCK_SCHEMA
    && ValidDigest(lock.digest)
    && lock.digest == LockDigest(hasher, lock)
    && (forall i :: 0 <= i < |lock.packages| ==> ValidExtension(text, lock.packages[i]))
    && Distinct(PackageIds(lock.packages))
    && (forall i :: 0 <= i < |lock.packages| ==> AllMet(lock.packages, base, i))
  }

  predicate LockOk(text: Text, hasher: Hasher, lock: Lock, base: LockedPackage) {
    && LockMetadataOk(text, hasher, lock, base)
    && NamespacesDisjoint([base.manifest.id] + PackageIds(lock.packages))
  }

  datatype LockError = InvalidLock | DigestMismatch | InvalidExtension | Duplicate | NamespaceOverlap | Unmet

  method ValidateLock(text: Text, hasher: Hasher, lock: Lock, base: LockedPackage) returns (error: Option<LockError>)
    ensures error.None? <==> LockOk(text, hasher, lock, base)
    ensures error == Some(NamespaceOverlap) ==>
              !NamespacesDisjoint([base.manifest.id] + PackageIds(lock.packages))
    ensures error.Some? && error.value != NamespaceOverlap ==> !LockMetadataOk(text, hasher, lock, base)
  {
    if lock.schema != LOCK_SCHEMA || !ValidDigest(lock.digest) {
      return Some(InvalidLock);
    }
    if LockDigest(hasher, lock) != lock.digest {
      return Some(DigestMismatch);
    }
    var packageError, positions := CheckPackages(text, lock.packages);
    if packageError.Some? {
      return packageError;
    }
    var packageIds := [base.manifest.id];
    for index := 0 to |lock.packages|
      invariant packageIds == [base.manifest.id] + PackageIds(lock.packages)[..index]
    {
      packageIds := packageIds + [lock.packages[index].manifest.id];
    }
    assert PackageIds(lock.packages)[..|lock.packages|] == PackageIds(lock.packages);
    var disjoint := CheckNamespaces(packageIds);
    if !disjoint {
      return Some(NamespaceOverlap);
    }
    for index := 0 to |lock.packages|
      invariant forall i :: 0 <= i < index ==> AllMet(lock.packages, base, i)
    {
      var met := CheckDependencies(lock.packages, base, positions, index);
      if !met {
        return Some(Unmet);
      }
    }
    return None;
  }

  /** Where each package id stands. */
  predicate Positions(packages: seq<LockedPackage>, positions: map<string, nat>, k: nat)
    requires k <= |packages|
  {
    && (forall id :: id in positions ==> positions[id] < k && packages[positions[id]].manifest.id == id)
    && (forall i :: 0 <= i < k ==> packages[i].manifest.id in positions)
  }

  lemma NoPositions(packages: seq<LockedPackage>)
    ensures |PackageIds(packages)| == |packages|
    ensures Distinct(PackageIds(packages)[..0]) && Positions(packages, map[], 0)
  {
  }

  /** Recording the package at `k`, unless its id has a position already. */
  lemma RecordPosition(packages: seq<LockedPackage>, positions: map<string, nat>, k: nat)
    requires k < |packages| && Positions(packages, positions, k) && Distinct(PackageIds(packages)[..k])
    ensures packages[k].manifest.id in positions ==> !Distinct(PackageIds(packages))
    ensures packages[k].manifest.id !in positions ==>
              && Distinct(PackageIds(packages)[..k + 1])
              && Positions(packages, positions[packages[k].manifest.id := k], k + 1)
  {
    var ids := PackageIds(packages);
    forall x | x in positions.Keys ensures x in ids[..k] {
      assert ids[..k][positions[x]] == x;
    }
    DistinctGrows(ids, positions.Keys, k);
  }

  method CheckPackages(text: Text, packages: seq<LockedPackage>)
    returns (error: Option<LockError>, positions: map<string, nat>)
    ensures error.None? <==>
              (forall i :: 0 <= i < |packages| ==> ValidExtension(text, packages[i])) && Distinct(PackageIds(packages))
    ensures error.Some? ==> error.value == InvalidExtension || error.value == Duplicate
    ensures error.None? ==> Positions(packages, positions, |packages|)
  {
    hide Distinct, Positions, PackageIds, ValidPackage;
    ghost var ids := PackageIds(packages);
    assert Distinct(ids[..0]) && Positions(packages, map[], 0) && |ids| == |packages| by {
      NoPositions(packages);
    }
    positions := map[];
    for index := 0 to |packages|
      invariant forall i :: 0 <= i < index ==> ValidExtension(text, packages[i])
      invariant Distinct(ids[..index])
      invariant Positions(packages, positions, index)
    {
      var pkg := packages[index];
      var ok := ValidateLockedPackage(text, pkg);
      if !ok || pkg.manifest.kind != "extension" {
        return Some(InvalidExtension), positions;
      }
      RecordPosition(packages, positions, index);
      if pkg.manifest.id in positions {
        return Some(Duplicate), positions;
      }
      positions := positions[pkg.manifest.id := index];
    }
    assert ids[..|ids|] == ids;
    error := None;
  }

  method CheckNamespaces(ids: seq<string>) returns (disjoint: bool)
    ensures disjoint <==> NamespacesDisjoint(ids)
  {
    for index := 0 to |ids|
      invariant forall i, j :: 0 <= i < index && i < j < |ids| ==> !Overlap(ids[i], ids[j])
    {
      for other := index + 1 to |ids|
        invariant forall j :: index < j < other ==> !Overlap(ids[index], ids[j])
      {
        if HasPrefix(ids[index], ids[other] + ".") || HasPrefix(ids[other], ids[index] + ".") {
          return false;
        }
      }
    }
    return true;
  }

  method CheckDependencies(packages: seq<LockedPackage>, base: LockedPackage, positions: map<string, nat>, index: nat)
    returns (met: bool)
    requires index < |packages| && Positions(packages, positions, |packages|) && Distinct(PackageIds(packages))
    ensures met <==> AllMet(packages, base, index)
  {
    var dependencies := packages[index].manifest.dependencies;
    for k := 0 to |dependencies|
      invariant forall j :: 0 <= j < k ==> Met(packages, base, index, dependencies[j])
    {
      var dependency := dependencies[k];
      if dependency.id == base.manifest.id {
        if dependency.version != "" && dependency.version != base.manifest.version {
          return false;
        }
      } else {
        OnePosition(packages, positions, index, dependency);
        if dependency.id !in positions || positions[dependency.id] >= index {
          return false;
        }
        var resolved := packages[positions[dependency.id]].manifest;
        if dependency.version != "" && dependency.version != resolved.version {
          return false;
        }
      }
    }
    return true;
  }

  /** With distinct ids, a dependency can only be met at the recorded position. */
  lemma OnePosition(packages: seq<LockedPackage>, positions: map<string, nat>, index: nat, d: Dependency)
    requires index < |packages| && Positions(packages, positions, |packages|) && Distinct(PackageIds(packages))
    ensures forall p :: 0 <= p < index && packages[p].manifest.id == d.id ==>
              d.id in positions && positions[d.id] == p
  {
    var ids := PackageIds(packages);
    forall p | 0 <= p < index && packages[p].manifest.id == d.id ensures d.id in positions && positions[d.id] == p {
      assert ids[p] == d.id && ids[positions[d.id]] == d.id;
    }
  }

  // ---- What an accepted lock guarantees ----

  /** Two different names whose namespaces both hold one component overlap. */
  lemma SharedComponentOverlaps(a: string, b: string, component: string)
    requires HasPrefix(component, a + ".") && HasPrefix(component, b + ".")
    ensures a == b || Overlap(a, b)
  {
    if |a| <= |b| {
      ShorterNameIsPrefix(a, b, component);
    } else {
      ShorterNameIsPrefix(b, a, component);
    }
  }

  lemma ShorterNameIsPrefix(a: string, b: string, component: string)
    requires HasPrefix(component, a + ".") && HasPrefix(component, b + ".") && |a| <= |b|
    ensures a == b || HasPrefix(b, a + ".")
  {
    assert forall i :: 0 <= i < |a| ==> a[i] == (a + ".")[i] == component[i] == (b + ".")[i] == b[i];
    if |a| == |b| {
      assert a == b;
    } else {
      assert b[|a|] == (b + ".")[|a|] == component[|a|] == (a + ".")[|a|] == '.';
      assert a + "." <= b;
    }
  }

  /** In an accepted lock over a valid base, packages with different ids never declare the same component. */
  lemma ComponentsAreUnique(text: Text, hasher: Hasher, lock: Lock, base: LockedPackage, i: nat, j: nat,
                            component: string)
    requires LockOk(text, hasher, lock, base) && ValidManifest(text, base.manifest)
    requires i <= |lock.packages| && j <= |lock.packages|
    requires component in Components(([base] + lock.packages)[i].manifest)
    requires component in Components(([base] + lock.packages)[j].manifest)
    ensures ([base] + lock.packages)[i].manifest.id == ([base] + lock.packages)[j].manifest.id
  {
    var packages := [base] + lock.packages;
    var ids := [base.manifest.id] + PackageIds(lock.packages);
    assert ids[i] == packages[i].manifest.id && ids[j] == packages[j].manifest.id;
    assert i > 0 ==> ValidExtension(text, lock.packages[i - 1]);
    assert j > 0 ==> ValidExtension(text, lock.packages[j - 1]);
    DeclaredInside(text, packages[i].manifest, component);
    DeclaredInside(text, packages[j].manifest, component);
    SharedComponentOverlaps(ids[i], ids[j], component);
    assert i < j ==> !Overlap(ids[i], ids[j]);
    assert j < i ==> !Overlap(ids[j], ids[i]);
  }

  /** What an accepted lock holds: under its own digest, valid extensions, each once, none of them named inside another
      or inside the base, nor the base inside one of them. */
  lemma AcceptedLockRules(text: Text, hasher: Hasher, lock: Lock, base: LockedPackage)
    requires LockOk(text, hasher, lock, base)
    ensures lock.schema == "dark-magic.mod-lock/v1" && lock.digest == DigestText(hasher.sum(lock.schema, lock.packages))
    ensures forall p :: p in lock.packages ==> ValidPackage(text, p) && p.manifest.kind == "extension"
    ensures forall id :: multiset(PackageIds(lock.packages))[id] <= 1
    ensures forall p, q :: p in lock.packages && q in lock.packages && p.manifest.id != q.manifest.id ==>
              !(p.manifest.id + "." <= q.manifest.id)
    ensures forall p :: p in lock.packages ==>
              !(p.manifest.id + "." <= base.manifest.id) && !(base.manifest.id + "." <= p.manifest.id)
  {
    DistinctIsOnce(PackageIds(lock.packages));
    hide ValidPackage, Distinct, AllMet, ValidDigest;
    forall p | p in lock.packages ensures ValidPackage(text, p) && p.manifest.kind == "extension" {
      var i :| 0 <= i < |lock.packages| && lock.packages[i] == p;
      assert ValidExtension(text, lock.packages[i]);
    }
    NamesApart(lock.packages, base);
  }

  lemma NamesApart(packages: seq<LockedPackage>, base: LockedPackage)
    requires NamespacesDisjoint([base.manifest.id] + PackageIds(packages))
    ensures forall p, q :: p in packages && q in packages && p.manifest.id != q.manifest.id ==>
              !(p.manifest.id + "." <= q.manifest.id)
    ensures forall p :: p in packages ==>
              !(p.manifest.id + "." <= base.manifest.id) && !(base.manifest.id + "." <= p.manifest.id)
  {
    hide NamespacesDisjoint;
    forall p | p in packages
      ensures !(p.manifest.id + "." <= base.manifest.id) && !(base.manifest.id + "." <= p.manifest.id)
    {
      var i :| 0 <= i < |packages| && packages[i] == p;
      TwoApart(packages, base, 0, i + 1);
    }
    forall p, q | p in packages && q in packages && p.manifest.id != q.manifest.id
      ensures !(p.manifest.id + "." <= q.manifest.id)
    {
      var i :| 0 <= i < |packages| && packages[i] == p;
      var j :| 0 <= j < |packages| && packages[j] == q;
      TwoApart(packages, base, i + 1, j + 1);
    }
  }

  /** The base counts as position 0, the packages from 1 on. */
  lemma TwoApart(packages: seq<LockedPackage>, base: LockedPackage, i: nat, j: nat)
    requires NamespacesDisjoint([base.manifest.id] + PackageIds(packages))
    requires i <= |packages| && j <= |packages| && i != j
    ensures var a := if i == 0 then base.manifest.id else packages[i - 1].manifest.id;
            var b := if j == 0 then base.manifest.id else packages[j - 1].manifest.id;
            !(a + "." <= b) && !(b + "." <= a)
  {
    var ids := PackageIds(packages);
    var all := [base.manifest.id] + ids;
    assert i < j ==> !Overlap(all[i], all[j]);
    assert j < i ==> !Overlap(all[j], all[i]);
    hide NamespacesDisjoint, PackageIds;
    assert all[i] == if i == 0 then base.manifest.id else ids[i - 1];
    assert all[j] == if j == 0 then base.manifest.id else ids[j - 1];
  }

  /** In an accepted lock every dependency is there: the base, or a package listed earlier; and whoever asks for a
      version gets exactly that one. */
  lemma LockedDependenciesAreThere(text: Text, hasher: Hasher, lock: Lock, base: LockedPackage, i: nat, k: nat)
    requires LockOk(text, hasher, lock, base) && i < |lock.packages|
    requires k < |lock.packages[i].manifest.dependencies|
    ensures var d := lock.packages[i].manifest.dependencies[k];
            && (d.id == base.manifest.id && d.version != "" ==> base.manifest.version == d.version)
            && (d.id != base.manifest.id ==> d.id in PackageIds(lock.packages[..i]))
            && (forall p :: 0 <= p < |lock.packages| && lock.packages[p].manifest.id == d.id
                            && d.id != base.manifest.id && d.version != "" ==>
                  lock.packages[p].manifest.version == d.version)
  {
    var d := lock.packages[i].manifest.dependencies[k];
    assert AllMet(lock.packages, base, i);
    assert Met(lock.packages, base, i, d);
    if d.id != base.manifest.id {
      var q :| 0 <= q < i && lock.packages[q].manifest.id == d.id
        && (d.version == "" || d.version == lock.packages[q].manifest.version);
      assert PackageIds(lock.packages[..i])[q] == d.id;
      forall p | 0 <= p < |lock.packages| && lock.packages[p].manifest.id == d.id ensures p == q {
        assert PackageIds(lock.packages)[p] == PackageIds(lock.packages)[q];
      }
    }
  }

  lemma DeclaredInside(text: Text, m: Manifest, component: string)
    requires ValidManifest(text, m) && component in Components(m)
    ensures HasPrefix(component, m.id + ".")
  {
    var k :| 0 <= k < |Components(m)| && Components(m)[k] == component;
  }
}
