/**
 * The package side of src/rhsm/profile.py: `Package` and its comparison and
 * dict form, `RPMProfile`'s header filtering, `collect` and comparison, and
 * the `get_profile` lookup in `PROFILE_MAP`.
 */
module RpmProfile {
  import opened Wrappers

  /** A value an rpm header or a package attribute can hold. */
  datatype Value = Str(s: string) | Bytes(b: seq<bv8>) | Int(i: int) | Null

  /** Python truthiness: `None`, `0`, `""` and `b""` are false. */
  predicate Truthy(v: Value) {
    match v
    case Str(s) => s != []
    case Bytes(b) => b != []
    case Int(i) => i != 0
    case Null => false
  }

  /** `bytes.decode("utf-8", "replace")`, which this model takes as given. */
  type Decoder = seq<bv8> -> string

  /** `Package._normalize_string`: bytes are decoded, anything else is kept. */
  function Normalize(v: Value, decode: Decoder): (r: Value)
    ensures !r.Bytes?
    ensures v.Bytes? ==> r == Str(decode(v.b))
    ensures !v.Bytes? ==> r == v
  {
    if v.Bytes? then Str(decode(v.b)) else v
  }

  lemma NormalizeIdempotent(v: Value, decode: Decoder)
    ensures Normalize(Normalize(v, decode), decode) == Normalize(v, decode)
  {
  }

  datatype Package = Package(
    name: Value, version: Value, release: Value, arch: Value, epoch: Value, vendor: Value)

  /**
   * `Package.__eq__`; `other` is `None` when it is not a `Package` at all.
   * Vendors are compared after normalisation, the other fields as they are.
   */
  predicate PackageEq(self: Package, other: Option<Package>, decode: Decoder): (b: bool)
    ensures b ==> other.Some? && ToDict(self, decode) == ToDict(other.value, decode)
  {
    && other.Some?
    && self.name == other.value.name
    && self.version == other.value.version
    && self.release == other.value.release
    && self.arch == other.value.arch
    && self.epoch == other.value.epoch
    && Normalize(self.vendor, decode) == Normalize(other.value.vendor, decode)
  }

  lemma PackageEqReflexive(p: Package, decode: Decoder)
    ensures PackageEq(p, Some(p), decode)
  {
  }

  lemma PackageEqSymmetric(p: Package, q: Package, decode: Decoder)
    ensures PackageEq(p, Some(q), decode) <==> PackageEq(q, Some(p), decode)
  {
  }

  lemma PackageEqTransitive(p: Package, q: Package, r: Package, decode: Decoder)
    requires PackageEq(p, Some(q), decode) && PackageEq(q, Some(r), decode)
    ensures PackageEq(p, Some(r), decode)
  {
  }

  /** A vendor given as bytes equals the same vendor given as its decoded text. */
  lemma PackageEqDecodedVendor(p: Package, decode: Decoder)
    requires p.vendor.Bytes?
    ensures PackageEq(p, Some(p.(vendor := Str(decode(p.vendor.b)))), decode)
    ensures p != p.(vendor := Str(decode(p.vendor.b)))
  {
  }

  const DictKeys: set<string> := {"name", "version", "release", "arch", "epoch", "vendor"}

  /** `Package.to_dict`: every attribute, normalised. */
  function ToDict(p: Package, decode: Decoder): (d: map<string, Value>)
    ensures d.Keys == DictKeys
    ensures forall k | k in d :: !d[k].Bytes?
    ensures d["name"] == Normalize(p.name, decode) && d["version"] == Normalize(p.version, decode)
    ensures d["release"] == Normalize(p.release, decode) && d["arch"] == Normalize(p.arch, decode)
    ensures d["epoch"] == Normalize(p.epoch, decode) && d["vendor"] == Normalize(p.vendor, decode)
  {
    map["name" := Normalize(p.name, decode), "version" := Normalize(p.version, decode),
        "release" := Normalize(p.release, decode), "arch" := Normalize(p.arch, decode),
        "epoch" := Normalize(p.epoch, decode), "vendor" := Normalize(p.vendor, decode)]
  }

  /** Packages that compare equal have the same dict form. */
  lemma PackageEqSameDict(p: Package, q: Package, decode: Decoder)
    requires PackageEq(p, Some(q), decode)
    ensures ToDict(p, decode) == ToDict(q, decode)
  {
  }

  /** The fields `_accumulate_profile` reads from an rpm header. */
  datatype Header = Header(
    name: Value, version: Value, release: Value, arch: Value, epoch: Value, vendor: Value)

  /** Imported gpg keys show up in the rpm database as packages of this name. */
  predicate IsGpgKey(h: Header) {
    h.name == Str("gpg-pubkey")
  }

  /** The `Package` built from one header: epoch 0 and vendor None stand in for falsy values. */
  function PackageOf(h: Header): (p: Package)
    ensures p.name == h.name && p.version == h.version && p.release == h.release && p.arch == h.arch
    ensures p.epoch == if Truthy(h.epoch) then h.epoch else Int(0)
    ensures p.vendor == if Truthy(h.vendor) then h.vendor else Null
    ensures Truthy(p.vendor) || p.vendor == Null
  {
    Package(h.name, h.version, h.release, h.arch,
            if Truthy(h.epoch) then h.epoch else Int(0),
            if Truthy(h.vendor) then h.vendor else Null)
  }

  /** What `_accumulate_profile` returns: one package per non-key header, in order. */
  function Accumulated(headers: seq<Header>): (ps: seq<Package>)
    ensures |ps| <= |headers|
  {
    if headers == [] then []
    else
      var init, last := headers[..|headers| - 1], headers[|headers| - 1];
      if IsGpgKey(last) then Accumulated(init) else Accumulated(init) + [PackageOf(last)]
  }

  lemma {:induction false} AccumulatedAppend(a: seq<Header>, b: seq<Header>)
    ensures Accumulated(a + b) == Accumulated(a) + Accumulated(b)
    decreases |b|
  {
    if b == [] {
      assert a + b == a;
    } else {
      var b0, last := b[..|b| - 1], b[|b| - 1];
      assert (a + b)[..|a + b| - 1] == a + b0;
      assert (a + b)[|a + b| - 1] == last;
      AccumulatedAppend(a, b0);
    }
  }

  /** Every header that is not a gpg key gives a package; every package comes from one. */
  lemma {:induction false} AccumulatedMembers(headers: seq<Header>)
    ensures forall h | h in headers && !IsGpgKey(h) :: PackageOf(h) in Accumulated(headers)
    ensures forall p | p in Accumulated(headers) :: exists h | h in headers :: !IsGpgKey(h) && p == PackageOf(h)
    ensures forall p | p in Accumulated(headers) :: p.name != Str("gpg-pubkey")
  {
    if headers != [] {
      var init, last := headers[..|headers| - 1], headers[|headers| - 1];
      assert headers == init + [last];
      AccumulatedMembers(init);
    }
  }

  /** Without gpg keys, every header gives its package at its own position. */
  lemma {:induction false} AccumulatedWithoutKeys(headers: seq<Header>)
    requires forall i | 0 <= i < |headers| :: !IsGpgKey(headers[i])
    ensures |Accumulated(headers)| == |headers|
    ensures forall i | 0 <= i < |headers| :: Accumulated(headers)[i] == PackageOf(headers[i])
  {
    if headers != [] {
      var init := headers[..|headers| - 1];
      AccumulatedWithoutKeys(init);
    }
  }

  /** `RPMProfile._accumulate_profile`. */
  method AccumulateProfile(rpmHeaderList: seq<Header>) returns (pkgList: seq<Package>)
    ensures pkgList == Accumulated(rpmHeaderList)
  {
    pkgList := [];
    for i := 0 to |rpmHeaderList|
      invariant pkgList == Accumulated(rpmHeaderList[..i])
    {
      var h := rpmHeaderList[i];
      assert rpmHeaderList[..i + 1][..i] == rpmHeaderList[..i];
      if IsGpgKey(h) {
        continue;
      }
      pkgList := pkgList + [PackageOf(h)];
    }
    assert rpmHeaderList[..|rpmHeaderList|] == rpmHeaderList;
  }

  /** `RPMProfile.collect`: one dict per package, in order. */
  method Collect(packages: seq<Package>, decode: Decoder) returns (pkgDicts: seq<map<string, Value>>)
    ensures |pkgDicts| == |packages|
    ensures forall i | 0 <= i < |packages| :: pkgDicts[i] == ToDict(packages[i], decode)
  {
    pkgDicts := [];
    for i := 0 to |packages|
      invariant |pkgDicts| == i
      invariant forall j | 0 <= j < i :: pkgDicts[j] == ToDict(packages[j], decode)
    {
      pkgDicts := pkgDicts + [ToDict(packages[i], decode)];
    }
  }

  /** The dict forms of a list of packages, in order. */
  function Dicts(packages: seq<Package>, decode: Decoder): (ds: seq<map<string, Value>>)
    ensures forall j | 0 <= j < |packages| :: ToDict(packages[j], decode) in ds
  {
    var ds := seq(|packages|, j requires 0 <= j < |packages| => ToDict(packages[j], decode));
    assert forall j | 0 <= j < |packages| :: ds[j] == ToDict(packages[j], decode);
    ds
  }

  /** `pkg in packages`: some element compares equal to `pkg`. */
  predicate InList(pkg: Package, packages: seq<Package>, decode: Decoder): (b: bool)
    ensures b ==> ToDict(pkg, decode) in Dicts(packages, decode)
  {
    exists j | 0 <= j < |packages| :: PackageEq(packages[j], Some(pkg), decode)
  }

  /** What `RPMProfile.__eq__` decides; `other` is `None` when it is not an `RPMProfile`. */
  predicate SameProfile(self: seq<Package>, other: Option<seq<Package>>, decode: Decoder): (b: bool)
    ensures b ==> other.Some? && |self| == |other.value|
    ensures b ==> forall i | 0 <= i < |self| :: ToDict(self[i], decode) in Dicts(other.value, decode)
  {
    && other.Some?
    && |self| == |other.value|
    && forall i | 0 <= i < |self| :: InList(self[i], other.value, decode)
  }

  /** `RPMProfile.__eq__`, with its early returns. */
  method ProfilesEqual(self: seq<Package>, other: Option<seq<Package>>, decode: Decoder) returns (r: bool)
    ensures r == SameProfile(self, other, decode)
  {
    if other.None? {
      return false;
    }
    if |self| != |other.value| {
      return false;
    }
    for i := 0 to |self|
      invariant forall k | 0 <= k < i :: InList(self[k], other.value, decode)
    {
      var found := false;
      for j := 0 to |other.value|
        invariant found <==> exists l | 0 <= l < j :: PackageEq(other.value[l], Some(self[i]), decode)
      {
        if PackageEq(other.value[j], Some(self[i]), decode) {
          found := true;
        }
      }
      assert found <==> InList(self[i], other.value, decode);
      if !found {
        // `self[i]` is the package the other profile lacks
        assert !SameProfile(self, other, decode) by {
          assert 0 <= i < |self| && !InList(self[i], other.value, decode);
        }
        return false;
      }
    }
    return true;
  }

  /** A profile compares equal to any reordering of itself. */
  lemma SameProfileReordered(self: seq<Package>, other: seq<Package>, decode: Decoder)
    requires multiset(self) == multiset(other)
    ensures SameProfile(self, Some(other), decode)
  {
    assert |self| == |multiset(self)| == |multiset(other)| == |other|;
    forall i | 0 <= i < |self| ensures InList(self[i], other, decode) {
      assert self[i] in multiset(other);
      var j :| 0 <= j < |other| && other[j] == self[i];
      PackageEqReflexive(self[i], decode);
    }
  }

  /** Profiles of different sizes never compare equal. */
  lemma SameProfileSizes(self: seq<Package>, other: seq<Package>, decode: Decoder)
    requires |self| != |other|
    ensures !SameProfile(self, Some(other), decode)
  {
  }

  /**
   * The comparison is not symmetric: a profile listing one package twice
   * equals a profile of that package and another, but not the other way round.
   */
  lemma SameProfileNotSymmetric(a: Package, b: Package, decode: Decoder)
    requires !PackageEq(a, Some(b), decode)
    ensures SameProfile([a, a], Some([a, b]), decode)
    ensures !SameProfile([a, b], Some([a, a]), decode)
  {
    PackageEqReflexive(a, decode);
    assert PackageEq([a, b][0], Some([a, a][0]), decode);
    assert [a, b][1] == b;
    assert forall j | 0 <= j < 2 :: [a, a][j] == a;
    assert !InList(b, [a, a], decode);
  }

  /** The profile classes `PROFILE_MAP` can name. */
  datatype ProfileKind = EnabledReposProfile | RPMProfile | ModulesProfile | DebProfile

  datatype ProfileError = InvalidProfileType(profileType: string)

  /**
   * `PROFILE_MAP` as populated at import: `haveDnfOrYum` says whether the dnf
   * or yum repofile support imported, `haveApt` whether apt did.
   */
  function ProfileMap(haveDnfOrYum: bool, haveApt: bool): (m: map<string, ProfileKind>)
    ensures "enabled_repos" in m && m["enabled_repos"] == EnabledReposProfile
    ensures ("rpm" in m <==> haveDnfOrYum) && ("modulemd" in m <==> haveDnfOrYum)
    ensures ("deb" in m <==> haveApt)
    ensures haveDnfOrYum ==> m["rpm"] == RPMProfile && m["modulemd"] == ModulesProfile
    ensures haveApt ==> m["deb"] == DebProfile
    ensures m.Keys <= {"enabled_repos", "rpm", "modulemd", "deb"}
  {
    var base := map["enabled_repos" := EnabledReposProfile];
    var withRpm := if haveDnfOrYum then base["rpm" := RPMProfile]["modulemd" := ModulesProfile] else base;
    if haveApt then withRpm["deb" := DebProfile] else withRpm
  }

  /** `get_profile`: which profile class to instantiate, or `InvalidProfileType`. */
  function GetProfile(profileType: string, profileMap: map<string, ProfileKind>): (r: Result<ProfileKind, ProfileError>)
    ensures r.Success? <==> profileType in profileMap
    ensures r.Success? ==> r.value == profileMap[profileType]
    ensures r.Failure? ==> r.error == InvalidProfileType(profileType)
  {
    if profileType !in profileMap then Failure(InvalidProfileType(profileType))
    else Success(profileMap[profileType])
  }

  /** Only the four known names can ever be looked up successfully. */
  lemma GetProfileUnknown(profileType: string, haveDnfOrYum: bool, haveApt: bool)
    requires profileType !in {"enabled_repos", "rpm", "modulemd", "deb"}
    ensures GetProfile(profileType, ProfileMap(haveDnfOrYum, haveApt)) == Failure(InvalidProfileType(profileType))
  {
  }
}
