/**
 * `Aarch64CpuInfo` (src/subscription_manager/cpuinfo.py): aarch64 lists
 * bare "processor : N" lines and one set of fields for all of them, so
 * every processor is the shared fields plus its own number.
 */
module Aarch64 {
  import opened Wrappers
  import opened Pairs
  import opened Tokenizer
  import opened Canonical
  import opened CpuinfoModels

  /** `_capital_processor_to_model_name`: the raw key "Processor" becomes "model_name". */
  function CapitalProcessorToModelName(item: Pair): (r: Pair)
    ensures r.1 == item.1
    ensures r.0 != "Processor"
    ensures item.0 == "Processor" ==> r.0 == "model_name"
    ensures item.0 != "Processor" ==> r == item
  {
    if item.0 == "Processor" then ("model_name", item.1) else item
  }

  /** The keys `gather_cpu_info_model` leaves out. */
  predicate PerProcessorKey(k: string) {
    k == "processor" || k == "hardware"
  }

  /** `gather_cpu_info_model` as a value: a dict of every pair but the "processor" and "hardware" ones. */
  function CpuInfoModelOf(kv: seq<Pair>): (d: Dict)
    ensures d.Keys == KeysOf(kv) - {"processor", "hardware"}
  {
    if kv == [] then map[]
    else
      var init, last := kv[..|kv| - 1], kv[|kv| - 1];
      assert KeysOf(kv) == KeysOf(init) + {last.0} by {
        assert forall i | 0 <= i < |init| :: init[i] == kv[i];
      }
      if PerProcessorKey(last.0) then CpuInfoModelOf(init)
      else CpuInfoModelOf(init)[last.0 := last.1]
  }

  /** Last write wins in `gather_cpu_info_model`. */
  lemma {:induction false} CpuInfoModelLastWins(kv: seq<Pair>, i: nat)
    requires i < |kv| && !PerProcessorKey(kv[i].0)
    requires forall j :: i < j < |kv| ==> kv[j].0 != kv[i].0
    ensures kv[i].0 in CpuInfoModelOf(kv) && CpuInfoModelOf(kv)[kv[i].0] == kv[i].1
  {
    if i < |kv| - 1 {
      var init := kv[..|kv| - 1];
      assert init[i] == kv[i];
      CpuInfoModelLastWins(init, i);
    }
  }

  method GatherCpuInfoModel(kvList: seq<Pair>) returns (cpuData: Dict)
    ensures cpuData == CpuInfoModelOf(kvList)
  {
    cpuData := map[];
    for i := 0 to |kvList|
      invariant cpuData == CpuInfoModelOf(kvList[..i])
    {
      assert kvList[..i + 1][..i] == kvList[..i];
      var (k, v) := kvList[i];
      if k == "processor" || k == "hardware" {
        continue;
      }
      cpuData := cpuData[k := v];
    }
    assert kvList[..|kvList|] == kvList;
  }

  /** One dict per "processor" pair: `common` with that pair's value under "processor". */
  function ProcessorEntries(kv: seq<Pair>, common: Dict): (ps: seq<Dict>)
    ensures |ps| == Occurrences(kv, "processor")
  {
    if kv == [] then []
    else
      var init, last := kv[..|kv| - 1], kv[|kv| - 1];
      assert kv == init + [last];
      OccurrencesSnoc(init, last, "processor");
      ProcessorEntries(init, common) + (if last.0 == "processor" then [common["processor" := last.1]] else [])
  }

  /** The i-th processor is `common` plus the i-th "processor" value. */
  lemma {:induction false} ProcessorEntriesIndex(kv: seq<Pair>, common: Dict, i: nat)
    requires i < Occurrences(kv, "processor")
    ensures ProcessorEntries(kv, common)[i] == common["processor" := ValuesFor(kv, "processor")[i]]
  {
    var init, last := kv[..|kv| - 1], kv[|kv| - 1];
    assert kv == init + [last];
    OccurrencesSnoc(init, last, "processor");
    if i < Occurrences(init, "processor") {
      ProcessorEntriesIndex(init, common, i);
    }
  }

  /** `gather_processor_list`, which rebuilds the shared dict for every processor. */
  method GatherProcessorList(kvList: seq<Pair>) returns (processorList: seq<Dict>)
    ensures processorList == ProcessorEntries(kvList, CpuInfoModelOf(kvList))
  {
    processorList := [];
    for i := 0 to |kvList|
      invariant processorList == ProcessorEntries(kvList[..i], CpuInfoModelOf(kvList))
    {
      assert kvList[..i + 1][..i] == kvList[..i];
      var (k, v) := kvList[i];
      if k != "processor" {
        continue;
      }
      var cpuInfoModel := GatherCpuInfoModel(kvList);
      cpuInfoModel := cpuInfoModel["processor" := v];
      processorList := processorList + [cpuInfoModel];
    }
    assert kvList[..|kvList|] == kvList;
  }

  /** The "hardware" pairs, in order. */
  function HardwarePairs(kv: seq<Pair>): (other: seq<Pair>)
    ensures |other| == Occurrences(kv, "hardware")
    ensures forall i :: 0 <= i < |other| ==> other[i] == ("hardware", ValuesFor(kv, "hardware")[i])
  {
    if kv == [] then []
    else
      var init, last := kv[..|kv| - 1], kv[|kv| - 1];
      assert kv == init + [last];
      OccurrencesSnoc(init, last, "hardware");
      HardwarePairs(init) + (if last.0 == "hardware" then [last] else [])
  }

  method GatherCpuInfoOther(kvList: seq<Pair>) returns (otherList: seq<Pair>)
    ensures otherList == HardwarePairs(kvList)
  {
    otherList := [];
    for i := 0 to |kvList|
      invariant otherList == HardwarePairs(kvList[..i])
    {
      assert kvList[..i + 1][..i] == kvList[..i];
      var (k, v) := kvList[i];
      if k == "hardware" {
        otherList := otherList + [(k, v)];
      }
    }
    assert kvList[..|kvList|] == kvList;
  }

  /** The renamed, sluggified pairs `_parse` works on; `None` when a line has no ':'. */
  function SluggedKvList(rawKvIter: seq<Parts>): (r: Option<seq<Pair>>)
    ensures r.Some? <==> AsPairs(rawKvIter).Some?
    ensures r.Some? ==> |r.value| == |rawKvIter|
  {
    match AsPairs(rawKvIter)
    case None => None
    case Some(raw) =>
      var renamed := seq(|raw|, i requires 0 <= i < |raw| => CapitalProcessorToModelName(raw[i]));
      Some(SluggifyItems(renamed))
  }

  /** What a successful parse stores. */
  datatype Aarch64Parse = Aarch64Parse(common: Dict, processors: seq<Dict>, other: seq<Pair>)

  function Aarch64ParseSpec(text: string): (r: Option<Aarch64Parse>)
    ensures r.Some? <==> AsPairs(Tokenize(text)).Some?
    ensures r.Some? ==> |r.value.processors| == Occurrences(SluggedKvList(Tokenize(text)).value, "processor")
  {
    match SluggedKvList(Tokenize(text))
    case None => None
    case Some(kv) =>
      var common := CpuInfoModelOf(kv);
      Some(Aarch64Parse(common, ProcessorEntries(kv, common), HardwarePairs(kv)))
  }

  lemma ModelNameIsSlug()
    ensures FactSluggify("model_name") == "model_name"
  {
    SlugFixedPoint("model_name");
  }

  /**
   * The value of the raw "Processor" line is the model name, unless a later
   * line's key also sluggifies to "model_name".
   */
  lemma Aarch64ModelName(text: string, i: nat)
    requires AsPairs(Tokenize(text)).Some?
    requires i < |AsPairs(Tokenize(text)).value| && AsPairs(Tokenize(text)).value[i].0 == "Processor"
    requires forall j :: i < j < |AsPairs(Tokenize(text)).value| ==>
               FactSluggify(CapitalProcessorToModelName(AsPairs(Tokenize(text)).value[j]).0) != "model_name"
    ensures "model_name" in Aarch64ParseSpec(text).value.common
    ensures Aarch64ParseSpec(text).value.common["model_name"] == AsPairs(Tokenize(text)).value[i].1
  {
    var raw := AsPairs(Tokenize(text)).value;
    var kv := SluggedKvList(Tokenize(text)).value;
    ModelNameIsSlug();
    assert kv[i] == ("model_name", raw[i].1);
    CpuInfoModelLastWins(kv, i);
  }

  /** Each processor is `common` plus its own "processor" value, and holds no "hardware" key. */
  lemma Aarch64ProcessorShape(text: string, i: nat)
    requires Aarch64ParseSpec(text).Some?
    requires i < |Aarch64ParseSpec(text).value.processors|
    ensures var p := Aarch64ParseSpec(text).value;
            p.processors[i] == p.common["processor" := ValuesFor(SluggedKvList(Tokenize(text)).value, "processor")[i]]
    ensures "hardware" !in Aarch64ParseSpec(text).value.processors[i]
  {
    var kv := SluggedKvList(Tokenize(text)).value;
    ProcessorEntriesIndex(kv, CpuInfoModelOf(kv), i);
  }

  class Aarch64CpuInfo {
    const cpuInfo: CpuinfoModel

    constructor ()
      ensures fresh(cpuInfo) && cpuInfo.fields == Aarch64Fields && cpuInfo.cpuinfoData == None
      ensures cpuInfo.processors == [] && cpuInfo.other == [] && cpuInfo.common == map[]
      ensures cpuInfo.modelNameOverride == None && cpuInfo.modelOverride == None
    {
      cpuInfo := new CpuinfoModel(Aarch64Fields, None);
    }

    /**
     * `_parse`: on success sets `common`, `processors` and `other` (and,
     * unlike the other architectures, leaves `cpuinfo_data` alone); on
     * failure changes nothing.
     */
    method Parse(cpuinfoData: string) returns (outcome: Outcome<ParseError>)
      modifies cpuInfo
      ensures outcome.Pass? <==> Aarch64ParseSpec(cpuinfoData).Some?
      ensures outcome.Pass? ==>
                && cpuInfo.common == Aarch64ParseSpec(cpuinfoData).value.common
                && cpuInfo.processors == Aarch64ParseSpec(cpuinfoData).value.processors
                && cpuInfo.other == Aarch64ParseSpec(cpuinfoData).value.other
                && cpuInfo.cpuinfoData == old(cpuInfo.cpuinfoData)
                && cpuInfo.modelNameOverride == old(cpuInfo.modelNameOverride)
                && cpuInfo.modelOverride == old(cpuInfo.modelOverride)
      ensures outcome.Fail? ==> unchanged(cpuInfo) && outcome.error == IndexOutOfRange
    {
      var rawKvIter := SplitKeyValueGenerator(cpuinfoData);
      var sluggedKvList := SluggedKvList(rawKvIter);
      if sluggedKvList.None? {
        return Fail(IndexOutOfRange);
      }
      var common := GatherCpuInfoModel(sluggedKvList.value);
      var processors := GatherProcessorList(sluggedKvList.value);
      var other := GatherCpuInfoOther(sluggedKvList.value);
      cpuInfo.common := common;
      cpuInfo.processors := processors;
      cpuInfo.other := other;
      return Pass;
    }
  }
}
