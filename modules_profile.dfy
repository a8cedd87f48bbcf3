/**
 * `ModulesProfile._uniquify` (src/rhsm/profile.py): dnf may report the same
 * module stream once per repository; the profile keeps one entry per
 * (name, stream, version, context, arch), preferring an active duplicate.
 */
module ModulesProfile {

  /** The "active" entry of a module dict: absent, a bool, or some other value. */
  datatype Active = Missing | Flag(b: bool) | OtherValue

  /** A module dict as `__generate` builds it. */
  datatype Module = Module(
    name: string, stream: string, version: int, context: string, arch: string,
    profiles: seq<string>, installedProfiles: seq<string>, status: string,
    active: Active)

  type Key = (string, string, int, string, string)

  function KeyOf(m: Module): Key {
    (m.name, m.stream, m.version, m.context, m.arch)
  }

  /** `module.get("active", False) is False`. */
  predicate Inactive(m: Module) {
    m.active == Missing || m.active == Flag(false)
  }

  /** `module.get("active", False) is True`. */
  predicate IsActive(m: Module) {
    m.active == Flag(true)
  }

  function KeySet(ms: seq<Module>): set<Key> {
    set i | 0 <= i < |ms| :: KeyOf(ms[i])
  }

  lemma KeySetSnoc(ms: seq<Module>, m: Module)
    ensures KeySet(ms + [m]) == KeySet(ms) + {KeyOf(m)}
  {
    var ms' := ms + [m];
    assert forall i | 0 <= i < |ms| :: ms'[i] == ms[i];
    assert ms'[|ms|] == m;
  }

  /** Where `k` first appears. */
  function FirstIndex(ms: seq<Module>, k: Key): (i: nat)
    requires k in KeySet(ms)
    ensures i < |ms| && KeyOf(ms[i]) == k
    ensures forall j :: 0 <= j < i ==> KeyOf(ms[j]) != k
  {
    if KeyOf(ms[0]) == k then 0
    else
      assert k in KeySet(ms[1..]) by {
        var i :| 0 <= i < |ms| && KeyOf(ms[i]) == k;
        assert ms[1..][i - 1] == ms[i];
      }
      var i := 1 + FirstIndex(ms[1..], k);
      assert forall j :: 1 <= j < i ==> ms[j] == ms[1..][j - 1];
      i
  }

  /** Whether some entry with key `k` is active. */
  predicate HasActive(ms: seq<Module>, k: Key) {
    exists i :: 0 <= i < |ms| && KeyOf(ms[i]) == k && IsActive(ms[i])
  }

  /** Where the first active entry with key `k` is. */
  function FirstActiveIndex(ms: seq<Module>, k: Key): (i: nat)
    requires HasActive(ms, k)
    ensures i < |ms| && KeyOf(ms[i]) == k && IsActive(ms[i])
    ensures forall j :: 0 <= j < i ==> !(KeyOf(ms[j]) == k && IsActive(ms[j]))
  {
    if KeyOf(ms[0]) == k && IsActive(ms[0]) then 0
    else
      assert HasActive(ms[1..], k) by {
        var i :| 0 <= i < |ms| && KeyOf(ms[i]) == k && IsActive(ms[i]);
        assert ms[1..][i - 1] == ms[i];
      }
      var i := 1 + FirstActiveIndex(ms[1..], k);
      assert forall j :: 1 <= j < i ==> ms[j] == ms[1..][j - 1];
      i
  }

  /**
   * The entry kept for key `k`: the first one, unless it is inactive and an
   * active duplicate exists, in which case the first active duplicate.
   */
  function Chosen(ms: seq<Module>, k: Key): (m: Module)
    requires k in KeySet(ms)
    ensures KeyOf(m) == k && m in ms
  {
    var first := ms[FirstIndex(ms, k)];
    if Inactive(first) && HasActive(ms, k) then ms[FirstActiveIndex(ms, k)] else first
  }

  /** The keys in order of first appearance. */
  function DistinctKeys(ms: seq<Module>): (d: seq<Key>)
    ensures forall i, j :: 0 <= i < j < |d| ==> d[i] != d[j]
    ensures forall k :: k in d <==> k in KeySet(ms)
  {
    if ms == [] then []
    else
      var init, last := ms[..|ms| - 1], ms[|ms| - 1];
      assert ms == init + [last];
      KeySetSnoc(init, last);
      var d := DistinctKeys(init);
      if KeyOf(last) in d then d else d + [KeyOf(last)]
  }

  lemma FirstIndexUnique(ms: seq<Module>, k: Key, i: nat)
    requires i < |ms| && KeyOf(ms[i]) == k
    requires forall j :: 0 <= j < i ==> KeyOf(ms[j]) != k
    ensures k in KeySet(ms) && FirstIndex(ms, k) == i
  {
  }

  lemma FirstActiveIndexUnique(ms: seq<Module>, k: Key, i: nat)
    requires i < |ms| && KeyOf(ms[i]) == k && IsActive(ms[i])
    requires forall j :: 0 <= j < i ==> !(KeyOf(ms[j]) == k && IsActive(ms[j]))
    ensures HasActive(ms, k) && FirstActiveIndex(ms, k) == i
  {
  }

  /**
   * Appending one module changes only its own key's choice: it is taken when
   * the key is new, or when the entry kept so far is inactive and it is active.
   */
  lemma {:induction false} ChosenSnoc(ms: seq<Module>, m: Module, k: Key)
    requires k in KeySet(ms + [m])
    ensures k != KeyOf(m) ==> k in KeySet(ms) && Chosen(ms + [m], k) == Chosen(ms, k)
    ensures k == KeyOf(m) && k !in KeySet(ms) ==> Chosen(ms + [m], k) == m
    ensures k == KeyOf(m) && k in KeySet(ms) ==>
      Chosen(ms + [m], k) == (if Inactive(Chosen(ms, k)) && IsActive(m) then m else Chosen(ms, k))
  {
    var ms' := ms + [m];
    KeySetSnoc(ms, m);
    assert forall j | 0 <= j < |ms| :: ms'[j] == ms[j];
    assert ms'[|ms|] == m;
    if k in KeySet(ms) {
      var f := FirstIndex(ms, k);
      FirstIndexUnique(ms', k, f);
      if HasActive(ms, k) {
        var a := FirstActiveIndex(ms, k);
        FirstActiveIndexUnique(ms', k, a);
      } else if KeyOf(m) == k && IsActive(m) {
        FirstActiveIndexUnique(ms', k, |ms|);
      } else {
        assert !HasActive(ms', k);
      }
    } else {
      FirstIndexUnique(ms', k, |ms|);
      assert !Inactive(m) || !HasActive(ms', k);
    }
  }

  /** The keys come out in the order of their first appearance. */
  lemma {:induction false} DistinctKeysInFirstAppearanceOrder(ms: seq<Module>, i: nat, j: nat)
    requires i < j < |DistinctKeys(ms)|
    ensures FirstIndex(ms, DistinctKeys(ms)[i]) < FirstIndex(ms, DistinctKeys(ms)[j])
  {
    var init, last := ms[..|ms| - 1], ms[|ms| - 1];
    assert ms == init + [last];
    KeySetSnoc(init, last);
    var d, d0 := DistinctKeys(ms), DistinctKeys(init);
    var ki, kj := d[i], d[j];
    assert forall x | 0 <= x < |init| :: ms[x] == init[x];
    var fi := FirstIndex(init, ki);
    FirstIndexUnique(ms, ki, fi);
    if j < |d0| {
      DistinctKeysInFirstAppearanceOrder(init, i, j);
      var fj := FirstIndex(init, kj);
      FirstIndexUnique(ms, kj, fj);
    } else {
      // `kj` is the key of `last`, new in `ms`
      assert kj == KeyOf(last) && kj !in KeySet(init);
      FirstIndexUnique(ms, kj, |init|);
    }
  }

  /**
   * What `_uniquify` returns: one module per key, in the order the keys first
   * appear, each the entry `Chosen` for its key.
   */
  function Uniquified(ms: seq<Module>): (r: seq<Module>)
    ensures |r| == |DistinctKeys(ms)|
    ensures forall i, j :: 0 <= i < j < |r| ==> KeyOf(r[i]) != KeyOf(r[j])
    ensures forall i :: 0 <= i < |r| ==> KeyOf(r[i]) == DistinctKeys(ms)[i] && r[i] in ms
    ensures KeySet(r) == KeySet(ms)
    // a first entry whose "active" is not False is never replaced
    ensures forall i :: 0 <= i < |r| && !Inactive(ms[FirstIndex(ms, KeyOf(r[i]))]) ==>
      r[i] == ms[FirstIndex(ms, KeyOf(r[i]))]
    // an inactive first entry gives way to the first active duplicate, if any
    ensures forall i :: 0 <= i < |r| && Inactive(ms[FirstIndex(ms, KeyOf(r[i]))]) ==>
      r[i] == if HasActive(ms, KeyOf(r[i])) then ms[FirstActiveIndex(ms, KeyOf(r[i]))]
              else ms[FirstIndex(ms, KeyOf(r[i]))]
  {
    var d := DistinctKeys(ms);
    var r := seq(|d|, i requires 0 <= i < |d| => Chosen(ms, d[i]));
    assert KeySet(r) == KeySet(ms) by {
      forall k | k in KeySet(ms) ensures k in KeySet(r) {
        var i :| 0 <= i < |d| && d[i] == k;
        assert KeyOf(r[i]) == k;
      }
    }
    r
  }

  lemma {:induction false} DistinctKeysOfUnique(r: seq<Module>)
    requires forall i, j :: 0 <= i < j < |r| ==> KeyOf(r[i]) != KeyOf(r[j])
    ensures |DistinctKeys(r)| == |r|
    ensures forall i :: 0 <= i < |r| ==> DistinctKeys(r)[i] == KeyOf(r[i])
  {
    if r != [] {
      var init, last := r[..|r| - 1], r[|r| - 1];
      assert r == init + [last];
      DistinctKeysOfUnique(init);
      assert KeyOf(last) !in KeySet(init);
    }
  }

  /** Uniquifying an already uniquified list changes nothing. */
  lemma UniquifiedIdempotent(ms: seq<Module>)
    ensures Uniquified(Uniquified(ms)) == Uniquified(ms)
  {
    var r := Uniquified(ms);
    DistinctKeysOfUnique(r);
    forall i | 0 <= i < |r| ensures Chosen(r, KeyOf(r[i])) == r[i] {
      var k := KeyOf(r[i]);
      FirstIndexUnique(r, k, i);
      if HasActive(r, k) {
        var a := FirstActiveIndex(r, k);
        assert a == i;
      }
    }
  }

  /** `ret`, with its insertion order `order`, holds what `_uniquify` keeps of `seen`. */
  ghost predicate Tracks(ret: map<Key, Module>, order: seq<Key>, seen: seq<Module>) {
    && order == DistinctKeys(seen)
    && ret.Keys == KeySet(seen)
    && forall k | k in ret :: ret[k] == Chosen(seen, k)
  }

  lemma DistinctKeysSnoc(seen: seq<Module>, m: Module)
    ensures DistinctKeys(seen + [m]) ==
      if KeyOf(m) in KeySet(seen) then DistinctKeys(seen) else DistinctKeys(seen) + [KeyOf(m)]
  {
    assert (seen + [m])[..|seen|] == seen;
  }

  /**
   * The map after one more module: its key now maps to the module the rule
   * keeps for it, every other key to what it mapped to before.
   */
  lemma ChosenMapStep(ret: map<Key, Module>, seen: seq<Module>, m: Module, v: Module)
    requires ret.Keys == KeySet(seen)
    requires forall k | k in ret :: ret[k] == Chosen(seen, k)
    requires v == if KeyOf(m) !in ret || (Inactive(ret[KeyOf(m)]) && IsActive(m)) then m else ret[KeyOf(m)]
    ensures ret[KeyOf(m) := v].Keys == KeySet(seen + [m])
    ensures forall k | k in ret[KeyOf(m) := v] :: ret[KeyOf(m) := v][k] == Chosen(seen + [m], k)
  {
    var key, ret' := KeyOf(m), ret[KeyOf(m) := v];
    KeySetSnoc(seen, m);
    forall k | k in ret' ensures ret'[k] == Chosen(seen + [m], k) {
      ChosenSnoc(seen, m, k);
    }
  }

  /** One iteration of `_uniquify`'s loop. */
  method Visit(ret: map<Key, Module>, order: seq<Key>, m: Module, ghost seen: seq<Module>)
    returns (ret': map<Key, Module>, order': seq<Key>)
    requires order == DistinctKeys(seen)
    requires ret.Keys == KeySet(seen)
    requires forall k | k in ret :: ret[k] == Chosen(seen, k)
    ensures order' == DistinctKeys(seen + [m])
    ensures ret'.Keys == KeySet(seen + [m])
    ensures forall k | k in ret' :: ret'[k] == Chosen(seen + [m], k)
  {
    var key := KeyOf(m);
    if key !in ret {
      ret', order' := ret[key := m], order + [key];
    } else if Inactive(ret[key]) && IsActive(m) {
      ret', order' := ret[key := m], order;
    } else {
      ret', order' := ret, order;
    }
    DistinctKeysSnoc(seen, m);
    ChosenMapStep(ret, seen, m, ret'[key]);
    assert ret' == ret[key := ret'[key]];
  }

  /** `ModulesProfile._uniquify`: `ret` is filled in input order, then its values listed. */
  method Uniquify(moduleList: seq<Module>) returns (result: seq<Module>)
    ensures result == Uniquified(moduleList)
  {
    var ret: map<Key, Module> := map[];
    var order: seq<Key> := [];
    for i := 0 to |moduleList|
      invariant Tracks(ret, order, moduleList[..i])
    {
      assert moduleList[..i + 1] == moduleList[..i] + [moduleList[i]];
      ret, order := Visit(ret, order, moduleList[i], moduleList[..i]);
    }
    assert moduleList[..|moduleList|] == moduleList;
    result := seq(|order|, j requires 0 <= j < |order| => ret[order[j]]);
  }
}
