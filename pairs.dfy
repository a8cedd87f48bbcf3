/**
 * Ordered key/value pairs and the Python `dict` built from them.  A `dict`
 * filled pair by pair keeps the value of the last pair with each key.
 */
module Pairs {

  /** A `(key, value)` tuple read from one line of /proc/cpuinfo. */
  type Pair = (string, string)

  /** A Python `dict` of strings; key order is not modelled. */
  type Dict = map<string, string>

  function KeysOf(items: seq<Pair>): set<string> {
    set i | 0 <= i < |items| :: items[i].0
  }

  /** `dict(items)`: the pairs entered one after the other, each overwriting any earlier value of its key. */
  function ToDict(items: seq<Pair>): (d: Dict)
    ensures d.Keys == KeysOf(items)
  {
    if items == [] then map[]
    else
      var init := items[..|items| - 1];
      assert KeysOf(items) == KeysOf(init) + {items[|items| - 1].0} by {
        assert forall i | 0 <= i < |init| :: init[i] == items[i];
      }
      ToDict(init)[items[|items| - 1].0 := items[|items| - 1].1]
  }

  /** Last write wins: the value a dict holds for a key is that of the last pair with that key. */
  lemma {:induction false} ToDictLastWins(items: seq<Pair>, i: nat)
    requires i < |items|
    requires forall j :: i < j < |items| ==> items[j].0 != items[i].0
    ensures items[i].0 in ToDict(items) && ToDict(items)[items[i].0] == items[i].1
  {
    if i < |items| - 1 {
      var init := items[..|items| - 1];
      assert init[i] == items[i];
      ToDictLastWins(init, i);
    }
  }

  /** The number of pairs whose key is `key`. */
  function Occurrences(items: seq<Pair>, key: string): nat {
    if items == [] then 0
    else (if items[0].0 == key then 1 else 0) + Occurrences(items[1..], key)
  }

  lemma {:induction false} OccurrencesSnoc(items: seq<Pair>, x: Pair, key: string)
    ensures Occurrences(items + [x], key) == Occurrences(items, key) + (if x.0 == key then 1 else 0)
  {
    if items != [] {
      assert (items + [x])[1..] == items[1..] + [x];
      OccurrencesSnoc(items[1..], x, key);
    } else {
      assert [x][1..] == [];
    }
  }

  /** The values of the pairs whose key is `key`, in input order. */
  function ValuesFor(items: seq<Pair>, key: string): (vs: seq<string>)
    ensures |vs| == Occurrences(items, key)
  {
    if items == [] then []
    else
      var init, last := items[..|items| - 1], items[|items| - 1];
      assert items == init + [last];
      OccurrencesSnoc(init, last, key);
      ValuesFor(init, key) + (if last.0 == key then [last.1] else [])
  }
}
