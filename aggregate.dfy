/**
 * `accumulate_fields` and `find_shared_key_value_pairs`
 * (src/subscription_manager/cpuinfo.py): which fields all processors share.
 */
module Aggregate {
  import opened Pairs

  /** The distinct values `key` has across the processors that have it. */
  function ValuesOf(key: string, processors: seq<Dict>): set<string> {
    set i | 0 <= i < |processors| && key in processors[i] :: processors[i][key]
  }

  /** Every key of every processor. */
  function AllKeys(processors: seq<Dict>): set<string> {
    set i, k | 0 <= i < |processors| && k in processors[i] :: k
  }

  /** The value of `key` in the first processor that has it. */
  function FirstValue(key: string, processors: seq<Dict>): (v: string)
    requires exists i :: 0 <= i < |processors| && key in processors[i]
    ensures v in ValuesOf(key, processors)
  {
    if key in processors[0] then processors[0][key]
    else
      var v := FirstValue(key, processors[1..]);
      assert forall i | 0 <= i < |processors[1..]| :: processors[1..][i] == processors[i + 1];
      v
  }

  lemma SingletonValue(s: set<string>, a: string)
    requires |s| == 1 && a in s
    ensures s == {a}
  {
    assert |s - {a}| == 0;
  }

  /**
   * The fields whose values, over the processors that have them, are one
   * single value, mapped to that value.
   */
  function SharedPairs(fields: set<string>, processors: seq<Dict>): (common: Dict)
    ensures forall k :: k in common <==> k in fields && |ValuesOf(k, processors)| == 1
    ensures forall k | k in common :: ValuesOf(k, processors) == {common[k]}
  {
    var common := map k | k in fields && |ValuesOf(k, processors)| == 1 :: FirstValue(k, processors);
    assert forall k | k in common :: ValuesOf(k, processors) == {common[k]} by {
      forall k | k in common ensures ValuesOf(k, processors) == {common[k]} {
        SingletonValue(ValuesOf(k, processors), common[k]);
      }
    }
    common
  }

  /** A field that every processor having it gives the same value is shared, even if some processors lack it. */
  lemma SharedWhenAgreeing(fields: set<string>, processors: seq<Dict>, k: string, v: string, i: nat)
    requires k in fields && i < |processors| && k in processors[i]
    requires forall j :: 0 <= j < |processors| && k in processors[j] ==> processors[j][k] == v
    ensures k in SharedPairs(fields, processors) && SharedPairs(fields, processors)[k] == v
  {
    assert ValuesOf(k, processors) == {v} by {
      assert processors[i][k] in ValuesOf(k, processors);
    }
  }

  /** A field on which two processors disagree is not shared. */
  lemma NotSharedWhenDiffering(fields: set<string>, processors: seq<Dict>, k: string, i: nat, j: nat)
    requires i < |processors| && j < |processors| && k in processors[i] && k in processors[j]
    requires processors[i][k] != processors[j][k]
    ensures k !in SharedPairs(fields, processors)
  {
    var vs := ValuesOf(k, processors);
    assert processors[i][k] in vs && processors[j][k] in vs;
  }

  /** A field that no processor has is not shared. */
  lemma NotSharedWhenAbsent(fields: set<string>, processors: seq<Dict>, k: string)
    requires forall i :: 0 <= i < |processors| ==> k !in processors[i]
    ensures k !in SharedPairs(fields, processors)
  {
    assert ValuesOf(k, processors) == {};
  }

  /** Processor order does not matter: reordering the processors shares the same pairs. */
  lemma SharedPairsOrderIndependent(fields: set<string>, p: seq<Dict>, q: seq<Dict>)
    requires multiset(p) == multiset(q)
    ensures SharedPairs(fields, p) == SharedPairs(fields, q)
  {
    forall k ensures ValuesOf(k, p) == ValuesOf(k, q) {
      forall v | v in ValuesOf(k, p) ensures v in ValuesOf(k, q) {
        var i :| 0 <= i < |p| && k in p[i] && p[i][k] == v;
        assert p[i] in multiset(q);
        var j :| 0 <= j < |q| && q[j] == p[i];
      }
      forall v | v in ValuesOf(k, q) ensures v in ValuesOf(k, p) {
        var j :| 0 <= j < |q| && k in q[j] && q[j][k] == v;
        assert q[j] in multiset(p);
        var i :| 0 <= i < |p| && p[i] == q[j];
      }
    }
  }

  /** With a single processor every one of its fields is shared. */
  lemma SharedPairsOneProcessor(d: Dict)
    ensures SharedPairs(AllKeys([d]), [d]) == d
  {
    forall k | k in d ensures ValuesOf(k, [d]) == {d[k]} {
      assert [d][0] == d;
    }
    forall k | k in AllKeys([d]) ensures k in d {
    }
  }

  lemma AllKeysSnoc(processors: seq<Dict>, d: Dict)
    ensures AllKeys(processors + [d]) == AllKeys(processors) + d.Keys
  {
    var ps := processors + [d];
    forall k | k in AllKeys(ps) ensures k in AllKeys(processors) + d.Keys {
      var i :| 0 <= i < |ps| && k in ps[i];
      if i < |processors| { assert ps[i] == processors[i]; }
    }
    forall k | k in AllKeys(processors) + d.Keys ensures k in AllKeys(ps) {
      if k in d.Keys {
        assert k in ps[|processors|];
      } else {
        var i :| 0 <= i < |processors| && k in processors[i];
        assert ps[i] == processors[i];
      }
    }
  }

  /** `accumulate_fields`: add each field to the accumulated set. */
  method AccumulateFields(fieldsAccum: set<string>, fields: set<string>) returns (r: set<string>)
    ensures r == fieldsAccum + fields
  {
    r := fieldsAccum;
    var todo := fields;
    while todo != {}
      invariant todo <= fields
      invariant r == fieldsAccum + (fields - todo)
      decreases |todo|
    {
      var field :| field in todo;
      r := r + {field};
      todo := todo - {field};
    }
  }

  lemma ValuesOfSnoc(key: string, processors: seq<Dict>, j: nat)
    requires j < |processors|
    ensures ValuesOf(key, processors[..j + 1])
         == ValuesOf(key, processors[..j]) + (if key in processors[j] then {processors[j][key]} else {})
  {
    var a, b := processors[..j + 1], processors[..j];
    assert forall i | 0 <= i < j :: a[i] == b[i] == processors[i];
    assert a[j] == processors[j];
  }

  /** The values seen so far for `field` after its first `j` processors, as the defaultdict holds them. */
  function Smashed(done: set<string>, processors: seq<Dict>): map<string, set<string>> {
    map k | k in done && ValuesOf(k, processors) != {} :: ValuesOf(k, processors)
  }

  function WithValues(smashed: map<string, set<string>>, field: string, values: set<string>): map<string, set<string>> {
    if values == {} then smashed else smashed[field := values]
  }

  lemma SmashedAdd(done: set<string>, processors: seq<Dict>, field: string)
    requires field !in done
    ensures Smashed(done + {field}, processors) == WithValues(Smashed(done, processors), field, ValuesOf(field, processors))
  {
  }

  /** Keeping the fields with one value, with that value, gives the shared pairs. */
  lemma SingleValuesAreShared(fields: set<string>, processors: seq<Dict>, smashed: map<string, set<string>>, common: Dict)
    requires smashed == Smashed(fields, processors)
    requires forall k :: k in common <==> k in smashed && |smashed[k]| == 1
    requires forall k | k in common :: smashed[k] == {common[k]}
    ensures common == SharedPairs(fields, processors)
  {
  }

  /**
   * The inner loop of `find_shared_key_value_pairs`: add to `smashed[field]`
   * the value of `field` in every processor that has it.
   */
  method AddFieldValues(smashed: map<string, set<string>>, field: string, processors: seq<Dict>)
    returns (r: map<string, set<string>>)
    requires field !in smashed
    ensures r == WithValues(smashed, field, ValuesOf(field, processors))
  {
    r := smashed;
    var j := 0;
    assert processors[..0] == [];
    while j < |processors|
      invariant 0 <= j <= |processors|
      invariant r == WithValues(smashed, field, ValuesOf(field, processors[..j]))
    {
      ValuesOfSnoc(field, processors, j);
      ghost var seen := ValuesOf(field, processors[..j]);
      if field in processors[j] {
        var v := processors[j][field];
        if field in r {
          assert r == smashed[field := seen];
          r := r[field := r[field] + {v}];
          assert r == smashed[field := seen + {v}];
        } else {
          assert seen == {} && r == smashed;
          r := r[field := {v}];
          assert seen + {v} == {v};
        }
        assert v in seen + {v};
      } else {
        assert seen + {} == seen;
      }
      j := j + 1;
    }
    assert processors[..|processors|] == processors;
  }

  /** The dict comprehension of `find_shared_key_value_pairs`: each field with one value, mapped to it (`set.pop()`). */
  method SingleValued(smashed: map<string, set<string>>) returns (common: Dict)
    ensures forall k :: k in common <==> k in smashed && |smashed[k]| == 1
    ensures forall k | k in common :: smashed[k] == {common[k]}
  {
    common := map[];
    var keys := smashed.Keys;
    while keys != {}
      invariant keys <= smashed.Keys
      invariant forall k :: k in common <==> k in smashed.Keys - keys && |smashed[k]| == 1
      invariant forall k | k in common :: smashed[k] == {common[k]}
      decreases |keys|
    {
      var x :| x in keys;
      if |smashed[x]| == 1 {
        var v :| v in smashed[x];
        SingletonValue(smashed[x], v);
        common := common[x := v];
      }
      keys := keys - {x};
    }
  }

  /** `find_shared_key_value_pairs(all_fields, processors)`. */
  method FindSharedKeyValuePairs(allFields: set<string>, processors: seq<Dict>) returns (commonCpuInfo: Dict)
    ensures commonCpuInfo == SharedPairs(allFields, processors)
  {
    // fieldname -> the different values it has; a field no processor has gets no entry
    var smashed: map<string, set<string>> := map[];
    var remaining := allFields;
    ghost var done: set<string> := {};
    while remaining != {}
      invariant remaining <= allFields && done == allFields - remaining
      invariant smashed == Smashed(done, processors)
      decreases |remaining|
    {
      var field :| field in remaining;
      smashed := AddFieldValues(smashed, field, processors);
      SmashedAdd(done, processors, field);
      remaining := remaining - {field};
      done := done + {field};
    }
    assert done == allFields;

    commonCpuInfo := SingleValued(smashed);
    SingleValuesAreShared(allFields, processors, smashed, commonCpuInfo);
  }
}
