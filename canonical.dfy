/**
 * `fact_sluggify` and `fact_sluggify_item` (src/subscription_manager/cpuinfo.py):
 * turning a /proc/cpuinfo field name into a fact name such as "model_name".
 */
module Canonical {
  import opened Text
  import opened Pairs

  /** `key.lower().strip().replace(" ", "_").replace(".", "_")`. */
  function FactSluggify(key: string): (r: string)
    ensures |r| <= |key|
    ensures ' ' !in r && '.' !in r
    ensures forall i :: 0 <= i < |r| ==> !IsUpper(r[i])
    ensures Stripped(r)
  {
    var l := Lower(key);
    var s := Strip(l);
    assert forall i :: 0 <= i < |s| ==> !IsUpper(s[i]) by {
      forall i | 0 <= i < |s| ensures !IsUpper(s[i]) {
        assert s[i] in l;
      }
    }
    var u := Replace(s, ' ', '_');
    var r := Replace(u, '.', '_');
    assert forall i :: 0 <= i < |r| ==> IsSpace(r[i]) ==> IsSpace(s[i]);
    r
  }

  /** A key that is already a fact name: lower case, no space or dot, nothing to strip. */
  predicate IsSlug(key: string) {
    && ' ' !in key && '.' !in key
    && (forall i :: 0 <= i < |key| ==> !IsUpper(key[i]))
    && Stripped(key)
  }

  /** Fact names are exactly the keys `fact_sluggify` leaves unchanged. */
  lemma SlugFixedPoint(key: string)
    ensures IsSlug(key) <==> FactSluggify(key) == key
  {
    if IsSlug(key) {
      var l := Lower(key);
      assert l == key;
      StripStripped(key);
      var u := Replace(key, ' ', '_');
      assert u == key;
      assert Replace(u, '.', '_') == key;
    }
  }

  /** `fact_sluggify` is idempotent. */
  lemma SluggifyIdempotent(key: string)
    ensures FactSluggify(FactSluggify(key)) == FactSluggify(key)
  {
    SlugFixedPoint(FactSluggify(key));
  }

  /** What `fact_sluggify` makes of one character of the stripped key. */
  function SlugChar(c: char): char {
    var l := LowerChar(c);
    if l == ' ' || l == '.' then '_' else l
  }

  lemma SpaceNotUpper(c: char)
    ensures IsSpace(c) ==> !IsUpper(c) && LowerChar(c) == c
    ensures IsSpace(LowerChar(c)) ==> IsSpace(c)
  {
  }

  /**
   * A key padded with white space sluggifies character by character: the
   * padding goes, each letter is lowered, and ' ' and '.' become '_'.
   */
  lemma {:induction false} FactSluggifyPadded(left: string, key: string, right: string)
    requires AllSpace(left) && AllSpace(right) && Stripped(key)
    ensures |FactSluggify(left + key + right)| == |key|
    ensures forall i :: 0 <= i < |key| ==> FactSluggify(left + key + right)[i] == SlugChar(key[i])
  {
    var s := left + key + right;
    var l := Lower(key);
    forall c | c in left + right ensures !IsUpper(c) {
      SpaceNotUpper(c);
    }
    assert Lower(s) == left + l + right;
    if key != [] {
      SpaceNotUpper(key[0]);
      SpaceNotUpper(key[|key| - 1]);
    }
    assert Stripped(l);
    StripPadded(left, l, right);
  }

  /** Lower-casing the key first changes nothing. */
  lemma SluggifyLower(key: string)
    ensures FactSluggify(Lower(key)) == FactSluggify(key)
  {
    assert Lower(Lower(key)) == Lower(key);
  }

  /** `fact_sluggify_item`: sluggify the key of a pair, keep its value. */
  function FactSluggifyItem(item: Pair): (r: Pair)
    ensures r.1 == item.1
    ensures IsSlug(r.0) && r.0 == FactSluggify(item.0)
  {
    (FactSluggify(item.0), item.1)
  }

  function SluggifyItems(items: seq<Pair>): (r: seq<Pair>)
    ensures |r| == |items|
    ensures forall i :: 0 <= i < |r| ==> r[i] == FactSluggifyItem(items[i])
  {
    seq(|items|, i requires 0 <= i < |items| => FactSluggifyItem(items[i]))
  }

  /**
   * `Ppc64ProcessorModel.from_stanza` and `X86_64CpuInfo.processor_stanza_to_processor_data`:
   * a dict of the stanza's pairs with sluggified keys.
   */
  function SluggedDict(stanza: seq<Pair>): (d: Dict)
    ensures d.Keys == set i | 0 <= i < |stanza| :: FactSluggify(stanza[i].0)
    ensures forall k | k in d :: IsSlug(k)
  {
    var items := SluggifyItems(stanza);
    assert KeysOf(items) == set i | 0 <= i < |stanza| :: FactSluggify(stanza[i].0) by {
      assert forall i | 0 <= i < |stanza| :: items[i].0 == FactSluggify(stanza[i].0);
    }
    ToDict(items)
  }

  /** Each key of the dict holds the value of the last stanza pair whose key sluggifies to it. */
  lemma SluggedDictLastWins(stanza: seq<Pair>, i: nat)
    requires i < |stanza|
    requires forall j :: i < j < |stanza| ==> FactSluggify(stanza[j].0) != FactSluggify(stanza[i].0)
    ensures SluggedDict(stanza)[FactSluggify(stanza[i].0)] == stanza[i].1
  {
    ToDictLastWins(SluggifyItems(stanza), i);
  }

  /** The dict of each stanza in turn. */
  function SluggedDicts(stanzas: seq<seq<Pair>>): (ds: seq<Dict>)
    ensures |ds| == |stanzas|
  {
    if stanzas == [] then []
    else SluggedDicts(stanzas[..|stanzas| - 1]) + [SluggedDict(stanzas[|stanzas| - 1])]
  }

  lemma {:induction false} SluggedDictsIndex(stanzas: seq<seq<Pair>>, i: nat)
    requires i < |stanzas|
    ensures SluggedDicts(stanzas)[i] == SluggedDict(stanzas[i])
  {
    if i < |stanzas| - 1 {
      var init := stanzas[..|stanzas| - 1];
      assert init[i] == stanzas[i];
      SluggedDictsIndex(init, i);
    }
  }
}
