/**
 * `split_kv_list_by_field` (src/subscription_manager/cpuinfo.py): cutting an
 * ordered list of pairs into stanzas, one starting at each pair whose key is
 * the delimiter field ("processor" for /proc/cpuinfo).
 */
module StanzaSplitter {
  import opened Pairs

  /** The number of leading pairs whose key is not `field`. */
  function Run(kv: seq<Pair>, field: string): (n: nat)
    ensures n <= |kv|
    ensures forall j :: 0 <= j < n ==> kv[j].0 != field
    ensures n < |kv| ==> kv[n].0 == field
  {
    if kv == [] || kv[0].0 == field then 0 else 1 + Run(kv[1..], field)
  }

  /**
   * The stanzas of `kv`: pairs before the first `field` pair belong to none;
   * each `field` pair opens a stanza that runs up to the next one.
   */
  function Stanzas(kv: seq<Pair>, field: string): (r: seq<seq<Pair>>)
    ensures |r| <= |kv|
    ensures forall i :: 0 <= i < |r| ==> r[i] != [] && r[i][0].0 == field
    decreases |kv|
  {
    if kv == [] then []
    else if kv[0].0 != field then Stanzas(kv[1..], field)
    else
      var n := 1 + Run(kv[1..], field);
      [kv[..n]] + Stanzas(kv[n..], field)
  }

  function Flatten(chunks: seq<seq<Pair>>): seq<Pair> {
    if chunks == [] then [] else chunks[0] + Flatten(chunks[1..])
  }

  /** Every stanza starts with a `field` pair and holds no other `field` pair. */
  lemma {:induction false} StanzaShape(kv: seq<Pair>, field: string)
    ensures forall i :: 0 <= i < |Stanzas(kv, field)| ==>
              var c := Stanzas(kv, field)[i];
              |c| > 0 && c[0].0 == field && forall j :: 0 < j < |c| ==> c[j].0 != field
    decreases |kv|
  {
    if kv != [] {
      if kv[0].0 != field {
        StanzaShape(kv[1..], field);
      } else {
        var n := 1 + Run(kv[1..], field);
        StanzaShape(kv[n..], field);
        var c := kv[..n];
        assert forall j :: 0 < j < |c| ==> c[j] == kv[1..][j - 1];
      }
    }
  }

  /** Skipping pairs that are not `field` pairs skips no occurrence. */
  lemma {:induction false} OccurrencesSkip(kv: seq<Pair>, field: string, m: nat)
    requires m <= |kv|
    requires forall j :: 0 <= j < m ==> kv[j].0 != field
    ensures Occurrences(kv, field) == Occurrences(kv[m..], field)
  {
    if m > 0 {
      assert kv[1..][m - 1..] == kv[m..];
      OccurrencesSkip(kv[1..], field, m - 1);
    }
  }

  /** There are as many stanzas as `field` pairs; in particular none when `field` never occurs. */
  lemma {:induction false} StanzaCount(kv: seq<Pair>, field: string)
    ensures |Stanzas(kv, field)| == Occurrences(kv, field)
    ensures Occurrences(kv, field) == 0 ==> Stanzas(kv, field) == []
    decreases |kv|
  {
    if kv != [] {
      if kv[0].0 != field {
        StanzaCount(kv[1..], field);
      } else {
        var n := 1 + Run(kv[1..], field);
        OccurrencesSkip(kv[1..], field, n - 1);
        assert kv[1..][n - 1..] == kv[n..];
        StanzaCount(kv[n..], field);
      }
    }
  }

  /**
   * The stanzas, laid end to end, are the input from the first `field` pair on:
   * exactly the pairs before it (none of them a `field` pair) are dropped.
   */
  lemma {:induction false} StanzaConcat(kv: seq<Pair>, field: string)
    ensures Flatten(Stanzas(kv, field)) == kv[Run(kv, field)..]
    ensures kv == kv[..Run(kv, field)] + Flatten(Stanzas(kv, field))
    decreases |kv|
  {
    if kv != [] {
      if kv[0].0 != field {
        StanzaConcat(kv[1..], field);
        assert kv[1..][Run(kv[1..], field)..] == kv[Run(kv, field)..];
      } else {
        var n := 1 + Run(kv[1..], field);
        StanzaConcat(kv[n..], field);
        assert Run(kv[n..], field) == 0;
        assert kv[..n] + kv[n..] == kv;
      }
    }
  }

  /** The stanzas still to come when `current` is the open stanza ([] when none is open) and `rest` is unread. */
  function Resume(current: seq<Pair>, rest: seq<Pair>, field: string): seq<seq<Pair>> {
    if current == [] then Stanzas(rest, field)
    else
      var n := Run(rest, field);
      [current + rest[..n]] + Stanzas(rest[n..], field)
  }

  /** Reading a `field` pair closes the open stanza, if any, and opens a new one. */
  lemma ResumeAtField(current: seq<Pair>, rest: seq<Pair>, field: string)
    requires rest != [] && rest[0].0 == field
    ensures Resume(current, rest, field) == (if current != [] then [current] else []) + Resume([rest[0]], rest[1..], field)
  {
    var r := Run(rest[1..], field);
    assert Stanzas(rest, field) == [rest[..1 + r]] + Stanzas(rest[1 + r..], field);
    assert rest[..1 + r] == [rest[0]] + rest[1..][..r];
    assert rest[1 + r..] == rest[1..][r..];
    if current != [] {
      assert Run(rest, field) == 0;
      assert current + rest[..0] == current;
      assert rest[0..] == rest;
    }
  }

  /** Reading another pair while a stanza is open appends it to that stanza. */
  lemma ResumeExtend(current: seq<Pair>, rest: seq<Pair>, field: string)
    requires rest != [] && rest[0].0 != field && current != []
    ensures Resume(current, rest, field) == Resume(current + [rest[0]], rest[1..], field)
  {
    var r := Run(rest[1..], field);
    assert Run(rest, field) == 1 + r;
    assert current + rest[..1 + r] == current + [rest[0]] + rest[1..][..r];
    assert rest[1 + r..] == rest[1..][r..];
  }

  /** Reading another pair while no stanza is open drops it. */
  lemma ResumeSkip(rest: seq<Pair>, field: string)
    requires rest != [] && rest[0].0 != field
    ensures Resume([], rest, field) == Resume([], rest[1..], field)
  {
  }

  /** At the end of the input the open stanza, if any, is the last one. */
  lemma ResumeEnd(current: seq<Pair>, field: string)
    ensures Resume(current, [], field) == if current != [] then [current] else []
  {
    if current != [] {
      var empty: seq<Pair> := [];
      assert empty[..0] == empty && empty[0..] == empty;
      assert current + empty == current;
    }
  }

  /** One step of `split_kv_list_by_field`: the closed stanzas and the open one after reading `p`. */
  function Step(chunks: seq<seq<Pair>>, current: seq<Pair>, p: Pair, field: string): (seq<seq<Pair>>, seq<Pair>) {
    if p.0 == field then ((if current != [] then chunks + [current] else chunks), [p])
    else if current != [] then (chunks, current + [p])
    else (chunks, [])
  }

  /** A step keeps the stanzas closed so far plus those still to come unchanged. */
  lemma StepResume(chunks: seq<seq<Pair>>, current: seq<Pair>, rest: seq<Pair>, field: string)
    requires rest != []
    ensures var (c, o) := Step(chunks, current, rest[0], field);
            c + Resume(o, rest[1..], field) == chunks + Resume(current, rest, field)
  {
    if rest[0].0 == field {
      ResumeAtField(current, rest, field);
      if current != [] {
        assert chunks + [current] + Resume([rest[0]], rest[1..], field)
            == chunks + ([current] + Resume([rest[0]], rest[1..], field));
      } else {
        assert [] + Resume([rest[0]], rest[1..], field) == Resume([rest[0]], rest[1..], field);
      }
    } else if current != [] {
      ResumeExtend(current, rest, field);
    } else {
      ResumeSkip(rest, field);
    }
  }

  /** `split_kv_list_by_field(kv_list, field)`, its yields gathered into a list. */
  method SplitKvListByField(kvList: seq<Pair>, field: string) returns (chunks: seq<seq<Pair>>)
    ensures chunks == Stanzas(kvList, field)
  {
    chunks := [];
    var currentStanza: seq<Pair> := [];  // [] stands for both None and an empty list
    assert kvList[0..] == kvList;
    assert [] + Resume(currentStanza, kvList[0..], field) == Stanzas(kvList, field);
    for i := 0 to |kvList|
      invariant chunks + Resume(currentStanza, kvList[i..], field) == Stanzas(kvList, field)
    {
      StepResume(chunks, currentStanza, kvList[i..], field);
      assert kvList[i..][0] == kvList[i] && kvList[i..][1..] == kvList[i + 1..];
      var (key, value) := kvList[i];
      if key == field {
        if currentStanza != [] {
          chunks := chunks + [currentStanza];
        }
        currentStanza := [(key, value)];
        continue;
      }
      // pairs before the first `field` pair belong to no stanza and are dropped
      if currentStanza != [] {
        currentStanza := currentStanza + [(key, value)];
      }
    }
    assert kvList[|kvList|..] == [];
    ResumeEnd(currentStanza, field);
    if currentStanza != [] {
      chunks := chunks + [currentStanza];
    }
  }
}
