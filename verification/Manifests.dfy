/** Mod packages: manifests, descriptors and locks, and the checks each must pass on its own. */
module Manifests {
  import opened Wrappers
  import opened Graphs

  const MANIFEST_SCHEMA := "dark-magic.mod/v1"
  const PROFILE_SCHEMA := "dark-magic.mod-profile/v1"
  const LOCK_SCHEMA := "dark-magic.mod-lock/v1"
  const ENGINE_API := "v1"
  const MAX_PACKAGE_BYTES := 256 * 1024 * 1024

  /** The Unicode tables and the encoding the checks consult. */
  datatype Text = Text(isLower: char -> bool, isDigit: char -> bool, isSpace: char -> bool, bytes: string -> nat)

  datatype Dependency = Dependency(id: string, version: string)

  datatype Manifest = Manifest(
    schema: string,
    id: string,
    name: string,
    version: string,
    kind: string,
    engineApi: string,
    redistributable: bool,
    contentRoots: seq<string>,
    clientComponents: seq<string>,
    authorityComponents: seq<string>,
    dependencies: seq<Dependency>)

  datatype Descriptor = Descriptor(id: string, version: string, digest: string, size: int, redistributable: bool)

  datatype LockedPackage = LockedPackage(descriptor: Descriptor, manifest: Manifest)

  datatype Lock = Lock(schema: string, digest: string, packages: seq<LockedPackage>)

  datatype Profile = Profile(schema: string, enabled: seq<string>)

  // ---- Identifiers ----

  predicate IdChar(text: Text, index: nat, c: char) {
    text.isLower(c) || text.isDigit(c) || (index > 0 && c in "._-")
  }

  predicate ValidId(text: Text, value: string) {
    && value != ""
    && text.bytes(value) <= 128
    && forall i :: 0 <= i < |value| ==> IdChar(text, i, value[i])
  }

  method CheckId(text: Text, value: string) returns (ok: bool)
    ensures ok <==> ValidId(text, value)
  {
    if value == "" || text.bytes(value) > 128 {
      return false;
    }
    for index := 0 to |value|
      invariant forall i :: 0 <= i < index ==> IdChar(text, i, value[i])
    {
      if !IdChar(text, index, value[index]) {
        return false;
      }
    }
    return true;
  }

  predicate Blank(text: Text, s: string) {
    forall c :: c in s ==> text.isSpace(c)
  }

  // ---- Digests ----

  /** A hash sum, as 64 hexadecimal digits. */
  type Hash = h: seq<nat> | |h| == 64 && forall i :: 0 <= i < |h| ==> h[i] < 16 witness seq(64, i => 0)

  const HEX := "0123456789abcdef"
  const DIGEST_PREFIX := "sha256:"

  function DigestText(hash: Hash): string {
    DIGEST_PREFIX + seq(64, i requires 0 <= i < 64 => HEX[hash[i]])
  }

  predicate IsHex(c: char) {
    '0' <= c <= '9' || 'a' <= c <= 'f' || 'A' <= c <= 'F'
  }

  predicate ValidDigest(digest: string) {
    && DIGEST_PREFIX <= digest
    && |digest| == |DIGEST_PREFIX| + 64
    && forall i :: |DIGEST_PREFIX| <= i < |digest| ==> IsHex(digest[i])
  }

  lemma DigestTextIsValid(hash: Hash)
    ensures ValidDigest(DigestText(hash))
  {
    var digest := DigestText(hash);
    assert DIGEST_PREFIX <= digest;
    forall i | |DIGEST_PREFIX| <= i < |digest| ensures IsHex(digest[i]) {
      assert digest[i] == HEX[hash[i - |DIGEST_PREFIX|]];
    }
  }

  // ---- Manifests ----

  predicate HasPrefix(s: string, prefix: string) {
    prefix <= s
  }

  function Components(m: Manifest): seq<string> {
    m.clientComponents + m.authorityComponents
  }

  function DependencyIds(m: Manifest): seq<string> {
    seq(|m.dependencies|, i requires 0 <= i < |m.dependencies| => m.dependencies[i].id)
  }

  predicate ReservedRoot(root: string) {
    root == "components" || root == "lua" || root == "mods"
  }

  predicate ValidHeader(text: Text, m: Manifest) {
    && m.schema == MANIFEST_SCHEMA && ValidId(text, m.id) && !Blank(text, m.name) && !Blank(text, m.version)
    && m.engineApi == ENGINE_API && (m.kind == "game" || m.kind == "extension")
  }

  predicate ValidDependencies(text: Text, m: Manifest) {
    && Distinct(DependencyIds(m))
    && forall i :: 0 <= i < |m.dependencies| ==>
         ValidId(text, m.dependencies[i].id) && m.dependencies[i].id != m.id
  }

  /** Every component name lies in the package's own dotted namespace, and none is declared twice. */
  predicate ValidComponents(text: Text, m: Manifest) {
    && Distinct(Components(m))
    && forall i :: 0 <= i < |Components(m)| ==>
         ValidId(text, Components(m)[i]) && HasPrefix(Components(m)[i], m.id + ".")
  }

  predicate ValidRoots(text: Text, m: Manifest) {
    && Distinct(m.contentRoots)
    && forall i :: 0 <= i < |m.contentRoots| ==>
         ValidId(text, m.contentRoots[i]) && '.' !in m.contentRoots[i] && !ReservedRoot(m.contentRoots[i])
  }

  predicate ValidManifest(text: Text, m: Manifest) {
    ValidHeader(text, m) && ValidDependencies(text, m) && ValidComponents(text, m) && ValidRoots(text, m)
  }

  /** Extending a list of names by one that was not seen yet. */
  lemma DistinctGrows(s: seq<string>, seen: set<string>, k: nat)
    requires k < |s| && Distinct(s[..k]) && (forall x :: x in seen <==> x in s[..k])
    ensures s[k] !in seen ==> Distinct(s[..k + 1])
    ensures s[k] in seen ==> !Distinct(s)
    ensures forall x :: x in seen + {s[k]} <==> x in s[..k + 1]
  {
    assert s[..k + 1] == s[..k] + [s[k]];
    if s[k] in seen {
      var i :| 0 <= i < k && s[i] == s[k];
    }
  }

  method ValidateManifest(text: Text, m: Manifest) returns (ok: bool)
    ensures ok <==> ValidManifest(text, m)
  {
    var idOk := CheckId(text, m.id);
    if m.schema != MANIFEST_SCHEMA || !idOk || Blank(text, m.name) || Blank(text, m.version) ||
       m.engineApi != ENGINE_API || (m.kind != "game" && m.kind != "extension")
    {
      return false;
    }
    ok := CheckDependencies(text, m);
    if !ok {
      return;
    }
    ok := CheckComponents(text, m);
    if !ok {
      return;
    }
    ok := CheckRoots(text, m);
  }

  method CheckDependencies(text: Text, m: Manifest) returns (ok: bool)
    ensures ok <==> ValidDependencies(text, m)
  {
    var seen: set<string> := {};
    ghost var ids := DependencyIds(m);
    for i := 0 to |m.dependencies|
      invariant forall k :: 0 <= k < i ==> ValidId(text, m.dependencies[k].id) && m.dependencies[k].id != m.id
      invariant Distinct(ids[..i]) && (forall x :: x in seen <==> x in ids[..i])
    {
      var dependency := m.dependencies[i];
      assert ids[i] == dependency.id;
      var idOk := CheckId(text, dependency.id);
      DistinctGrows(ids, seen, i);
      if !idOk || dependency.id == m.id || dependency.id in seen {
        return false;
      }
      seen := seen + {dependency.id};
    }
    assert ids[..|ids|] == ids;
    return true;
  }

  method CheckComponents(text: Text, m: Manifest) returns (ok: bool)
    ensures ok <==> ValidComponents(text, m)
  {
    var seen: set<string> := {};
    var components := m.clientComponents + m.authorityComponents;
    for i := 0 to |components|
      invariant forall k :: 0 <= k < i ==> ValidId(text, components[k]) && HasPrefix(components[k], m.id + ".")
      invariant Distinct(components[..i]) && (forall x :: x in seen <==> x in components[..i])
    {
      var idOk := CheckId(text, components[i]);
      DistinctGrows(components, seen, i);
      if !idOk || !HasPrefix(components[i], m.id + ".") || components[i] in seen {
        return false;
      }
      seen := seen + {components[i]};
    }
    assert components[..|components|] == components;
    return true;
  }

  method CheckRoots(text: Text, m: Manifest) returns (ok: bool)
    ensures ok <==> ValidRoots(text, m)
  {
    var seen: set<string> := {};
    for i := 0 to |m.contentRoots|
      invariant forall k :: 0 <= k < i ==>
        ValidId(text, m.contentRoots[k]) && '.' !in m.contentRoots[k] && !ReservedRoot(m.contentRoots[k])
      invariant Distinct(m.contentRoots[..i]) && (forall x :: x in seen <==> x in m.contentRoots[..i])
    {
      var root := m.contentRoots[i];
      var idOk := CheckId(text, root);
      DistinctGrows(m.contentRoots, seen, i);
      if !idOk || '.' in root || ReservedRoot(root) || root in seen {
        return false;
      }
      seen := seen + {root};
    }
    assert m.contentRoots[..|m.contentRoots|] == m.contentRoots;
    return true;
  }

  predicate ValidProfile(text: Text, profile: Profile) {
    && profile.schema == PROFILE_SCHEMA
    && Distinct(profile.enabled)
    && forall i :: 0 <= i < |profile.enabled| ==> ValidId(text, profile.enabled[i])
  }

  method ValidateProfile(text: Text, profile: Profile) returns (ok: bool)
    ensures ok <==> ValidProfile(text, profile)
  {
    if profile.schema != PROFILE_SCHEMA {
      return false;
    }
    var seen: set<string> := {};
    for i := 0 to |profile.enabled|
      invariant forall k :: 0 <= k < i ==> ValidId(text, profile.enabled[k])
      invariant Distinct(profile.enabled[..i]) && (forall x :: x in seen <==> x in profile.enabled[..i])
    {
      var idOk := CheckId(text, profile.enabled[i]);
      DistinctGrows(profile.enabled, seen, i);
      if !idOk || profile.enabled[i] in seen {
        return false;
      }
      seen := seen + {profile.enabled[i]};
    }
    assert profile.enabled[..|profile.enabled|] == profile.enabled;
    return true;
  }

  // ---- Locked packages ----

  predicate Describes(d: Descriptor, m: Manifest) {
    d.id == m.id && d.version == m.version && d.redistributable == m.redistributable
  }

  predicate ValidPackage(text: Text, pkg: LockedPackage) {
    && ValidManifest(text, pkg.manifest)
    && Describes(pkg.descriptor, pkg.manifest)
    && pkg.descriptor.size > 0
    && ValidDigest(pkg.descriptor.digest)
  }

  method ValidateLockedPackage(text: Text, pkg: LockedPackage) returns (ok: bool)
    ensures ok <==> ValidPackage(text, pkg)
  {
    ok := ValidateManifest(text, pkg.manifest);
    if ok {
      ok := Describes(pkg.descriptor, pkg.manifest) && pkg.descriptor.size > 0 && ValidDigest(pkg.descriptor.digest);
    }
  }

  // ---- The rules in full ----

  lemma {:induction false} DistinctIsOnce(s: seq<string>)
    ensures Distinct(s) <==> forall x :: multiset(s)[x] <= 1
  {
    if s != [] {
      var front, last := s[..|s| - 1], s[|s| - 1];
      DistinctIsOnce(front);
      assert s == front + [last];
      assert forall i :: 0 <= i < |front| ==> s[i] == front[i];
      if Distinct(s) {
        assert last !in front;
      } else if Distinct(front) {
        assert last in front;
        assert multiset(s)[last] >= 2;
      } else {
        var x :| multiset(front)[x] > 1;
        assert multiset(s)[x] > 1;
      }
    }
  }

  /** What an identifier is. */
  lemma IdRules(text: Text, value: string)
    ensures ValidId(text, value) <==>
            && value != "" && text.bytes(value) <= 128 && (text.isLower(value[0]) || text.isDigit(value[0]))
            && forall c :: c in value ==> text.isLower(c) || text.isDigit(c) || c in ['.', '_', '-']
  {
    if ValidId(text, value) {
      assert IdChar(text, 0, value[0]);
      forall c | c in value ensures text.isLower(c) || text.isDigit(c) || c in ['.', '_', '-'] {
        var i :| 0 <= i < |value| && value[i] == c;
        assert IdChar(text, i, value[i]);
      }
    } else if value != "" {
      forall i | 0 <= i < |value| ensures value[i] in value {
      }
    }
  }

  /** Exactly which manifests are accepted: nothing is listed twice, a package neither depends on itself nor declares a
      component outside its own name, and a content root is a plain, unreserved word. */
  lemma ManifestRules(text: Text, m: Manifest)
    ensures ValidManifest(text, m) <==>
            && m.schema == "dark-magic.mod/v1" && m.engineApi == "v1" && m.kind in ["game", "extension"]
            && ValidId(text, m.id)
            && (exists c :: c in m.name && !text.isSpace(c)) && (exists c :: c in m.version && !text.isSpace(c))
            && (forall d :: d in m.dependencies ==> ValidId(text, d.id) && d.id != m.id)
            && (forall id :: multiset(DependencyIds(m))[id] <= 1)
            && (forall c :: c in m.clientComponents || c in m.authorityComponents ==>
                  ValidId(text, c) && m.id + "." <= c)
            && (forall c :: (multiset(m.clientComponents) + multiset(m.authorityComponents))[c] <= 1)
            && (forall r :: r in m.contentRoots ==>
                  ValidId(text, r) && '.' !in r && r !in ["components", "lua", "mods"])
            && (forall r :: multiset(m.contentRoots)[r] <= 1)
  {
    hide ValidHeader, ValidDependencies, ValidComponents, ValidRoots, ValidId;
    HeaderRules(text, m);
    DependencyRules(text, m);
    ComponentRules(text, m);
    RootRules(text, m);
  }

  lemma HeaderRules(text: Text, m: Manifest)
    ensures ValidHeader(text, m) <==>
            && m.schema == "dark-magic.mod/v1" && m.engineApi == "v1" && m.kind in ["game", "extension"]
            && ValidId(text, m.id)
            && (exists c :: c in m.name && !text.isSpace(c)) && (exists c :: c in m.version && !text.isSpace(c))
  {
    hide ValidId;
  }

  lemma ComponentRules(text: Text, m: Manifest)
    ensures ValidComponents(text, m) <==>
            && (forall c :: c in m.clientComponents || c in m.authorityComponents ==>
                  ValidId(text, c) && m.id + "." <= c)
            && (forall c :: (multiset(m.clientComponents) + multiset(m.authorityComponents))[c] <= 1)
  {
    hide ValidId, Distinct;
    var all := Components(m);
    DistinctIsOnce(all);
    assert multiset(all) == multiset(m.clientComponents) + multiset(m.authorityComponents);
    forall i | 0 <= i < |all| ensures all[i] in m.clientComponents || all[i] in m.authorityComponents {
    }
    forall c | c in m.clientComponents || c in m.authorityComponents
      ensures exists i :: 0 <= i < |all| && all[i] == c
    {
      assert c in all;
    }
  }

  lemma RootRules(text: Text, m: Manifest)
    ensures ValidRoots(text, m) <==>
            && (forall r :: r in m.contentRoots ==>
                  ValidId(text, r) && '.' !in r && r !in ["components", "lua", "mods"])
            && (forall r :: multiset(m.contentRoots)[r] <= 1)
  {
    hide ValidId, Distinct;
    DistinctIsOnce(m.contentRoots);
    assert forall i :: 0 <= i < |m.contentRoots| ==> m.contentRoots[i] in m.contentRoots;
  }

  lemma DependencyRules(text: Text, m: Manifest)
    ensures ValidDependencies(text, m) <==>
            && (forall d :: d in m.dependencies ==> ValidId(text, d.id) && d.id != m.id)
            && (forall id :: multiset(DependencyIds(m))[id] <= 1)
  {
    hide ValidId, Distinct;
    DistinctIsOnce(DependencyIds(m));
    assert forall i :: 0 <= i < |m.dependencies| ==> m.dependencies[i] in m.dependencies;
  }

  /** Exactly which profiles and locked packages are. */
  lemma ProfileAndPackageRules(text: Text, profile: Profile, pkg: LockedPackage)
    ensures ValidProfile(text, profile) <==>
            && profile.schema == "dark-magic.mod-profile/v1"
            && (forall id :: id in profile.enabled ==> ValidId(text, id))
            && (forall id :: multiset(profile.enabled)[id] <= 1)
    ensures ValidPackage(text, pkg) <==>
            && ValidManifest(text, pkg.manifest) && pkg.descriptor.size > 0 && ValidDigest(pkg.descriptor.digest)
            && pkg.descriptor.id == pkg.manifest.id && pkg.descriptor.version == pkg.manifest.version
            && pkg.descriptor.redistributable == pkg.manifest.redistributable
  {
    DistinctIsOnce(profile.enabled);
    hide ValidId, Distinct, ValidManifest;
    assert forall i :: 0 <= i < |profile.enabled| ==> profile.enabled[i] in profile.enabled;
  }
}
