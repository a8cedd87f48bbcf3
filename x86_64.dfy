/**
 * `X86_64CpuInfo` (src/subscription_manager/cpuinfo.py): one stanza per
 * processor, opened by each raw "processor" key; `common` is what all
 * processors that have a field agree on.
 */
module X86 {
  import opened Wrappers
  import opened Pairs
  import opened Tokenizer
  import opened Canonical
  import opened StanzaSplitter
  import opened Aggregate
  import opened CpuinfoModels

  lemma ProcessorIsSlug()
    ensures FactSluggify("processor") == "processor"
  {
    SlugFixedPoint("processor");
  }

  /** `processor_stanza_to_processor_data` applied to each "processor" stanza. */
  function X86Processors(pairs: seq<Pair>): (ps: seq<Dict>)
    ensures |ps| == Occurrences(pairs, "processor")
  {
    StanzaCount(pairs, "processor");
    SluggedDicts(Stanzas(pairs, "processor"))
  }

  /** Every processor dict has a "processor" key: its stanza opens with one. */
  lemma X86ProcessorKey(pairs: seq<Pair>, i: nat)
    requires i < |X86Processors(pairs)|
    ensures "processor" in X86Processors(pairs)[i]
  {
    var s: seq<seq<Pair>> := Stanzas(pairs, "processor");
    StanzaShape(pairs, "processor");
    ProcessorIsSlug();
    SluggedDictsIndex(s, i);
    assert s[i][0].0 == "processor";
  }

  /** What a successful parse stores. */
  datatype X86Parse = X86Parse(processors: seq<Dict>, common: Dict)

  /**
   * The parse of a whole /proc/cpuinfo text: `None` when some line has no
   * ':' (the pair unpacking fails), otherwise the processors and the pairs
   * shared over the union of their keys.
   */
  function X86ParseSpec(text: string): (r: Option<X86Parse>)
    ensures r.Some? <==> AsPairs(Tokenize(text)).Some?
    ensures r.Some? ==> |r.value.processors| == Occurrences(AsPairs(Tokenize(text)).value, "processor")
  {
    match AsPairs(Tokenize(text))
    case None => None
    case Some(pairs) =>
      var ps := X86Processors(pairs);
      Some(X86Parse(ps, SharedPairs(AllKeys(ps), ps)))
  }

  /** With a single processor, every one of its fields, "processor" included, lands in `common`. */
  lemma X86SingleProcessor(text: string)
    requires X86ParseSpec(text).Some?
    requires Occurrences(AsPairs(Tokenize(text)).value, "processor") == 1
    ensures X86ParseSpec(text).value.common == X86ParseSpec(text).value.processors[0]
    ensures "processor" in X86ParseSpec(text).value.common
  {
    var ps := X86ParseSpec(text).value.processors;
    assert ps == [ps[0]];
    X86ProcessorKey(AsPairs(Tokenize(text)).value, 0);
    SharedPairsOneProcessor(ps[0]);
  }

  /** A field every processor that has it agrees on is shared, whatever the other processors lack. */
  lemma X86AgreeingFieldShared(text: string, k: string, v: string, i: nat)
    requires X86ParseSpec(text).Some?
    requires i < |X86ParseSpec(text).value.processors| && k in X86ParseSpec(text).value.processors[i]
    requires forall j :: 0 <= j < |X86ParseSpec(text).value.processors| && k in X86ParseSpec(text).value.processors[j] ==>
               X86ParseSpec(text).value.processors[j][k] == v
    ensures k in X86ParseSpec(text).value.common && X86ParseSpec(text).value.common[k] == v
  {
    var ps := X86ParseSpec(text).value.processors;
    assert k in AllKeys(ps);
    SharedWhenAgreeing(AllKeys(ps), ps, k, v, i);
  }

  /**
   * The loop of `_parse` over the stanzas: one dict per stanza, and
   * `accumulate_fields` of each dict's keys.
   */
  method CollectProcessors(stanzas: seq<seq<Pair>>) returns (processors: seq<Dict>, allFields: set<string>)
    ensures processors == SluggedDicts(stanzas)
    ensures allFields == AllKeys(processors)
  {
    processors := [];
    allFields := {};
    for i := 0 to |stanzas|
      invariant processors == SluggedDicts(stanzas[..i])
      invariant allFields == AllKeys(processors)
    {
      var procDict := SluggedDict(stanzas[i]);
      assert stanzas[..i + 1][..i] == stanzas[..i];
      AllKeysSnoc(processors, procDict);
      processors := processors + [procDict];
      // `allFields` holds every key of the stanzas converted so far
      allFields := AccumulateFields(allFields, procDict.Keys);
    }
    assert stanzas[..|stanzas|] == stanzas;
  }

  class X86_64CpuInfo {
    const cpuInfo: CpuinfoModel

    constructor ()
      ensures fresh(cpuInfo) && cpuInfo.fields == X86Fields && cpuInfo.cpuinfoData == None
      ensures cpuInfo.processors == [] && cpuInfo.other == [] && cpuInfo.common == map[]
      ensures cpuInfo.modelNameOverride == None && cpuInfo.modelOverride == None
    {
      cpuInfo := new CpuinfoModel(X86Fields, None);
    }

    /** `_parse`: on success sets `common`, `processors` and `cpuinfo_data`; on failure changes nothing. */
    method Parse(cpuinfoData: string) returns (outcome: Outcome<ParseError>)
      modifies cpuInfo
      ensures outcome.Pass? <==> X86ParseSpec(cpuinfoData).Some?
      ensures outcome.Pass? ==>
                && cpuInfo.processors == X86ParseSpec(cpuinfoData).value.processors
                && cpuInfo.common == X86ParseSpec(cpuinfoData).value.common
                && cpuInfo.cpuinfoData == Some(cpuinfoData)
                && cpuInfo.other == old(cpuInfo.other)
                && cpuInfo.modelNameOverride == old(cpuInfo.modelNameOverride)
                && cpuInfo.modelOverride == old(cpuInfo.modelOverride)
      ensures outcome.Fail? ==> unchanged(cpuInfo) && outcome.error == NotEnoughValues
    {
      var kvIter := SplitKeyValueGenerator(cpuinfoData);
      var kvList := AsPairs(kvIter);
      if kvList.None? {
        return Fail(NotEnoughValues);
      }
      var stanzas := SplitKvListByField(kvList.value, "processor");
      var processors, allFields := CollectProcessors(stanzas);
      var common := FindSharedKeyValuePairs(allFields, processors);
      cpuInfo.common := common;
      cpuInfo.processors := processors;
      cpuInfo.cpuinfoData := Some(cpuinfoData);
      return Pass;
    }
  }
}
