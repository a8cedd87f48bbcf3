/**
 * `Ppc64CpuInfo` (src/subscription_manager/cpuinfo.py): the processor
 * stanzas come first; the first "timebase" line ends them, and every line
 * after it describes the whole machine.
 */
module Ppc64 {
  import opened Wrappers
  import opened Pairs
  import opened Tokenizer
  import opened Canonical
  import opened StanzaSplitter
  import opened CpuinfoModels

  /** `_not_timebase_key`: the predicate `itertools.takewhile` stops at. */
  predicate NotTimebaseKey(item: Parts): (b: bool)
    ensures !b <==> (item.KeyOnly? && item.text == "timebase") || (item.KeyValue? && item.key == "timebase")
  {
    FirstPart(item) != "timebase"
  }

  /**
   * Where reading the processor stanzas ends: at the first "timebase" entry,
   * which `takewhile` consumes, or at the first one-part entry, whose
   * unpacking raises.
   */
  function StopIndex(entries: seq<Parts>): (b: nat)
    ensures b <= |entries|
    ensures forall j :: 0 <= j < b ==> entries[j].KeyValue? && NotTimebaseKey(entries[j])
    ensures b < |entries| ==> entries[b].KeyOnly? || !NotTimebaseKey(entries[b])
  {
    if entries == [] || entries[0].KeyOnly? || !NotTimebaseKey(entries[0]) then 0
    else
      var b := 1 + StopIndex(entries[1..]);
      assert forall j :: 1 <= j < b ==> entries[j] == entries[1..][j - 1];
      b
  }

  /** The pairs before the stop. */
  function ProcessorPairs(entries: seq<Parts>): (kv: seq<Pair>)
    ensures |kv| == StopIndex(entries)
  {
    AsPairs(entries[..StopIndex(entries)]).value
  }

  /** The stanzas `split_kv_list_by_field` had yielded when it stopped early: all but the open one. */
  function Completed(stanzas: seq<seq<Pair>>): seq<seq<Pair>> {
    if stanzas == [] then [] else stanzas[..|stanzas| - 1]
  }

  /**
   * The processors a parse appends: one per stanza before the stop, or, when
   * a one-part entry raises first, one per stanza already closed.
   */
  function Ppc64Processors(entries: seq<Parts>): (ps: seq<Dict>)
    ensures |ps| <= Occurrences(ProcessorPairs(entries), "processor")
  {
    var b := StopIndex(entries);
    var stanzas := Stanzas(ProcessorPairs(entries), "processor");
    StanzaCount(ProcessorPairs(entries), "processor");
    if b < |entries| && NotTimebaseKey(entries[b]) then SluggedDicts(Completed(stanzas))
    else SluggedDicts(stanzas)
  }

  /** What `kv_iter` still holds after the processor entries and the swallowed "timebase" entry. */
  function AfterStop(entries: seq<Parts>): seq<Parts> {
    var b := StopIndex(entries);
    if b < |entries| then entries[b + 1..] else []
  }

  /** The new `common`: the sluggified pairs after the "timebase" entry; `None` when the parse raises. */
  function Ppc64Common(entries: seq<Parts>): (r: Option<Dict>)
    ensures StopIndex(entries) == |entries| && r.Some? ==> r.value == map[]
  {
    var b := StopIndex(entries);
    if b < |entries| && NotTimebaseKey(entries[b]) then None
    else
      match AsPairs(AfterStop(entries))
      case None => None
      case Some(restPairs) => Some(SluggedDict(restPairs))
  }

  /**
   * The error of a failed parse: unpacking a one-part entry among the
   * processor entries raises `ValueError`; reading `[1]` of one after the
   * "timebase" entry raises `IndexError`.
   */
  function Ppc64Error(entries: seq<Parts>): (e: ParseError)
    ensures e == NotEnoughValues ==> StopIndex(entries) < |entries| && entries[StopIndex(entries)].KeyOnly?
    ensures Ppc64Common(entries).None? && e == IndexOutOfRange ==>
              exists j :: StopIndex(entries) < j < |entries| && entries[j].KeyOnly?
  {
    var b := StopIndex(entries);
    if b < |entries| && NotTimebaseKey(entries[b]) then NotEnoughValues
    else
      var rest := AfterStop(entries);
      assert forall i :: 0 <= i < |rest| ==> rest[i] == entries[b + 1 + i];
      IndexOutOfRange
  }

  /** Without a "timebase" line every pair is a processor pair and `common` is empty. */
  lemma Ppc64NoTimebase(entries: seq<Parts>)
    requires forall j :: 0 <= j < |entries| ==> entries[j].KeyValue? && entries[j].key != "timebase"
    ensures Ppc64Common(entries) == Some(map[])
    ensures Ppc64Processors(entries) == SluggedDicts(Stanzas(AsPairs(entries).value, "processor"))
  {
    assert StopIndex(entries) == |entries|;
    assert entries[..|entries|] == entries;
    var empty: seq<Parts> := [];
    assert AsPairs(empty) == Some([]);
  }

  /**
   * When the processor pairs end at the input's end or at a "timebase" entry
   * (a stop, not a raise), one processor per raw "processor" pair is appended.
   */
  lemma Ppc64ProcessorCount(entries: seq<Parts>)
    requires StopIndex(entries) == |entries| || !NotTimebaseKey(entries[StopIndex(entries)])
    ensures |Ppc64Processors(entries)| == Occurrences(ProcessorPairs(entries), "processor")
  {
    StanzaCount(ProcessorPairs(entries), "processor");
  }

  /** The "timebase" entry is swallowed: its value reaches neither the processors nor `common`. */
  lemma Ppc64TimebaseSwallowed(entries: seq<Parts>, x: Parts)
    requires StopIndex(entries) < |entries| && !NotTimebaseKey(entries[StopIndex(entries)])
    requires FirstPart(x) == "timebase"
    ensures Ppc64Processors(entries[StopIndex(entries) := x]) == Ppc64Processors(entries)
    ensures Ppc64Common(entries[StopIndex(entries) := x]) == Ppc64Common(entries)
  {
    var b := StopIndex(entries);
    var e := entries[b := x];
    StopIndexUnique(e, b);
    assert e[..b] == entries[..b];
    assert e[b + 1..] == entries[b + 1..];
  }

  /**
   * What follows the "timebase" entry does not change the processors: two
   * inputs that agree up to and including it append the same processors.
   */
  lemma Ppc64ProcessorsIgnoreTail(e: seq<Parts>, entries: seq<Parts>, b: nat)
    requires b < |entries| && b < |e| && e[..b + 1] == entries[..b + 1]
    requires StopIndex(entries) == b && !NotTimebaseKey(entries[b])
    ensures Ppc64Processors(e) == Ppc64Processors(entries)
  {
    forall j | 0 <= j <= b ensures e[j] == entries[j] {
      assert e[..b + 1][j] == entries[..b + 1][j];
    }
    StopIndexUnique(e, b);
    assert e[..b] == entries[..b];
    assert ProcessorPairs(e) == ProcessorPairs(entries);
  }

  /** `StopIndex` is the first entry that stops the reading. */
  lemma StopIndexUnique(entries: seq<Parts>, b: nat)
    requires b < |entries| && (entries[b].KeyOnly? || !NotTimebaseKey(entries[b]))
    requires forall j :: 0 <= j < b ==> entries[j].KeyValue? && NotTimebaseKey(entries[j])
    ensures StopIndex(entries) == b
  {
  }

  /** When the input ends early, the stanzas already closed are all but the open one. */
  lemma CompletedStanzas(chunks: seq<seq<Pair>>, current: seq<Pair>, kv: seq<Pair>)
    requires chunks + (if current != [] then [current] else []) == Stanzas(kv, "processor")
    requires current == [] ==> chunks == []
    ensures chunks == Completed(Stanzas(kv, "processor"))
  {
    if current != [] {
      assert (chunks + [current])[..|chunks|] == chunks;
    }
  }

  /**
   * The state of the processor loop before entry `i`: the stanzas closed so
   * far, followed by those the open stanza and the remaining pairs give, are
   * all the stanzas of the processor pairs.
   */
  ghost predicate Reading(entries: seq<Parts>, i: nat, chunks: seq<seq<Pair>>, current: seq<Pair>) {
    && i <= StopIndex(entries)
    && chunks + Resume(current, ProcessorPairs(entries)[i..], "processor") == Stanzas(ProcessorPairs(entries), "processor")
    && (current == [] ==> chunks == [])
  }

  lemma ReadingStart(entries: seq<Parts>)
    ensures Reading(entries, 0, [], [])
  {
    var kv := ProcessorPairs(entries);
    assert kv[0..] == kv;
  }

  /** Reading one more pair keeps the loop state. */
  lemma ReadingStep(entries: seq<Parts>, i: nat, chunks: seq<seq<Pair>>, current: seq<Pair>)
    requires Reading(entries, i, chunks, current)
    requires i < |entries| && entries[i].KeyValue? && NotTimebaseKey(entries[i])
    ensures var (c, o) := Step(chunks, current, (entries[i].key, entries[i].value), "processor");
            Reading(entries, i + 1, c, o)
  {
    var kv := ProcessorPairs(entries);
    StopIndexAhead(entries, i);
    ProcessorPairsAt(entries, i);
    StepResume(chunks, current, kv[i..], "processor");
    assert kv[i..][0] == kv[i] && kv[i..][1..] == kv[i + 1..];
  }

  /** A one-part entry raises: the processors are the stanzas closed so far. */
  lemma ReadingRaised(entries: seq<Parts>, i: nat, chunks: seq<seq<Pair>>, current: seq<Pair>)
    requires Reading(entries, i, chunks, current)
    requires i < |entries| && entries[i].KeyOnly? && NotTimebaseKey(entries[i])
    ensures i == StopIndex(entries)
    ensures Ppc64Processors(entries) == SluggedDicts(chunks)
  {
    var kv := ProcessorPairs(entries);
    assert kv[i..] == [];
    ResumeEnd(current, "processor");
    CompletedStanzas(chunks, current, kv);
  }

  /** The loop stops at the end or at "timebase": every stanza, the open one included, is appended. */
  lemma ReadingDone(entries: seq<Parts>, i: nat, chunks: seq<seq<Pair>>, current: seq<Pair>)
    requires Reading(entries, i, chunks, current)
    requires !(i < |entries| && NotTimebaseKey(entries[i]))
    ensures i == StopIndex(entries)
    ensures Ppc64Processors(entries) == SluggedDicts(chunks + (if current != [] then [current] else []))
  {
    var kv := ProcessorPairs(entries);
    assert kv[i..] == [];
    ResumeEnd(current, "processor");
  }

  lemma ProcessorPairsAt(entries: seq<Parts>, j: nat)
    requires j < StopIndex(entries)
    ensures ProcessorPairs(entries)[j] == (entries[j].key, entries[j].value)
  {
    assert entries[..StopIndex(entries)][j] == entries[j];
  }

  lemma StopIndexAhead(entries: seq<Parts>, i: nat)
    requires i <= StopIndex(entries) && i < |entries|
    requires entries[i].KeyValue? && NotTimebaseKey(entries[i])
    ensures i < StopIndex(entries)
  {
  }

  class Ppc64CpuInfo {
    const cpuInfo: CpuinfoModel

    constructor ()
      ensures fresh(cpuInfo) && cpuInfo.fields == Ppc64Fields && cpuInfo.cpuinfoData == None
      ensures cpuInfo.processors == [] && cpuInfo.other == [] && cpuInfo.common == map[]
      ensures cpuInfo.modelNameOverride == None && cpuInfo.modelOverride == None
    {
      cpuInfo := new CpuinfoModel(Ppc64Fields, None);
    }

    /**
     * One pair read by `split_kv_list_by_field`: a "processor" pair closes the
     * open stanza, whose dict is appended to `processors` at once, and opens a
     * new one; any other pair extends the open stanza, or is dropped when none is open.
     */
    method ReadPair(currentStanza: seq<Pair>, key: string, value: string,
                    ghost chunks: seq<seq<Pair>>, ghost base: seq<Dict>)
      returns (next: seq<Pair>, ghost nextChunks: seq<seq<Pair>>)
      modifies cpuInfo
      requires cpuInfo.processors == base + SluggedDicts(chunks)
      ensures (nextChunks, next) == Step(chunks, currentStanza, (key, value), "processor")
      ensures cpuInfo.processors == base + SluggedDicts(nextChunks)
      ensures cpuInfo.common == old(cpuInfo.common) && cpuInfo.cpuinfoData == old(cpuInfo.cpuinfoData)
      ensures cpuInfo.other == old(cpuInfo.other)
      ensures cpuInfo.modelNameOverride == old(cpuInfo.modelNameOverride)
      ensures cpuInfo.modelOverride == old(cpuInfo.modelOverride)
    {
      next, nextChunks := currentStanza, chunks;
      if key == "processor" {
        nextChunks := CloseStanza(currentStanza, chunks, base);
        assert chunks + [] == chunks;
        next := [(key, value)];
      } else if currentStanza != [] {
        next := currentStanza + [(key, value)];
      }
    }

    /** Yield the open stanza, if any: its dict is appended to `processors`. */
    method CloseStanza(currentStanza: seq<Pair>, ghost chunks: seq<seq<Pair>>, ghost base: seq<Dict>)
      returns (ghost nextChunks: seq<seq<Pair>>)
      modifies cpuInfo
      requires cpuInfo.processors == base + SluggedDicts(chunks)
      ensures nextChunks == chunks + (if currentStanza != [] then [currentStanza] else [])
      ensures cpuInfo.processors == base + SluggedDicts(nextChunks)
      ensures cpuInfo.common == old(cpuInfo.common) && cpuInfo.cpuinfoData == old(cpuInfo.cpuinfoData)
      ensures cpuInfo.other == old(cpuInfo.other)
      ensures cpuInfo.modelNameOverride == old(cpuInfo.modelNameOverride)
      ensures cpuInfo.modelOverride == old(cpuInfo.modelOverride)
    {
      nextChunks := chunks;
      if currentStanza != [] {
        var procDict := SluggedDict(currentStanza);
        cpuInfo.processors := cpuInfo.processors + [procDict];
        assert (chunks + [currentStanza])[..|chunks|] == chunks;
        nextChunks := chunks + [currentStanza];
      }
    }

    /**
     * The first loop of `_parse`: `split_kv_list_by_field` reading
     * `takewhile(_not_timebase_key, kv_iter)`, each yielded stanza's dict
     * appended to `processors` at once.  Returns where the reading stopped
     * and whether it stopped by raising.
     */
    method AppendProcessorStanzas(kvIter: seq<Parts>) returns (raised: bool, stop: nat)
      modifies cpuInfo
      ensures stop == StopIndex(kvIter)
      ensures raised <==> stop < |kvIter| && NotTimebaseKey(kvIter[stop])
      ensures cpuInfo.processors == old(cpuInfo.processors) + Ppc64Processors(kvIter)
      ensures cpuInfo.common == old(cpuInfo.common) && cpuInfo.cpuinfoData == old(cpuInfo.cpuinfoData)
      ensures cpuInfo.other == old(cpuInfo.other)
      ensures cpuInfo.modelNameOverride == old(cpuInfo.modelNameOverride)
      ensures cpuInfo.modelOverride == old(cpuInfo.modelOverride)
    {
      ghost var chunks: seq<seq<Pair>> := [];
      var currentStanza: seq<Pair> := [];
      var i := 0;
      ReadingStart(kvIter);
      while i < |kvIter| && NotTimebaseKey(kvIter[i])
        invariant Reading(kvIter, i, chunks, currentStanza)
        invariant cpuInfo.processors == old(cpuInfo.processors) + SluggedDicts(chunks)
        invariant cpuInfo.common == old(cpuInfo.common) && cpuInfo.cpuinfoData == old(cpuInfo.cpuinfoData)
        invariant cpuInfo.other == old(cpuInfo.other)
        invariant cpuInfo.modelNameOverride == old(cpuInfo.modelNameOverride)
        invariant cpuInfo.modelOverride == old(cpuInfo.modelOverride)
      {
        if kvIter[i].KeyOnly? {
          // unpacking the one-part entry raises; the open stanza is never yielded
          ReadingRaised(kvIter, i, chunks, currentStanza);
          return true, i;
        }
        ReadingStep(kvIter, i, chunks, currentStanza);
        var key, value := kvIter[i].key, kvIter[i].value;
        currentStanza, chunks := ReadPair(currentStanza, key, value, chunks, old(cpuInfo.processors));
        i := i + 1;
      }
      ReadingDone(kvIter, i, chunks, currentStanza);
      chunks := CloseStanza(currentStanza, chunks, old(cpuInfo.processors));
      return false, i;
    }

    /**
     * `_parse`: appends each processor stanza's dict to `processors` as soon
     * as the stanza is complete, then sets `common` and `cpuinfo_data`.  An
     * error leaves the processors appended so far in place.
     */
    method Parse(cpuinfoData: string) returns (outcome: Outcome<ParseError>)
      modifies cpuInfo
      ensures cpuInfo.processors == old(cpuInfo.processors) + Ppc64Processors(Tokenize(cpuinfoData))
      ensures outcome.Pass? <==> Ppc64Common(Tokenize(cpuinfoData)).Some?
      ensures outcome.Pass? ==>
                cpuInfo.common == Ppc64Common(Tokenize(cpuinfoData)).value && cpuInfo.cpuinfoData == Some(cpuinfoData)
      ensures outcome.Fail? ==> cpuInfo.common == old(cpuInfo.common) && cpuInfo.cpuinfoData == old(cpuInfo.cpuinfoData)
      ensures outcome.Fail? ==> outcome.error == Ppc64Error(Tokenize(cpuinfoData))
      ensures cpuInfo.other == old(cpuInfo.other)
      ensures cpuInfo.modelNameOverride == old(cpuInfo.modelNameOverride)
      ensures cpuInfo.modelOverride == old(cpuInfo.modelOverride)
    {
      var kvIter := SplitKeyValueGenerator(cpuinfoData);
      var raised, stop := AppendProcessorStanzas(kvIter);
      if raised {
        assert Ppc64Common(kvIter).None? && Ppc64Error(kvIter) == NotEnoughValues;
        return Fail(NotEnoughValues);
      }
      // the rest of kv_iter, after the swallowed "timebase" entry, is shared by all processors
      var rest := if stop < |kvIter| then kvIter[stop + 1..] else [];
      var restPairs := AsPairs(rest);
      assert rest == AfterStop(kvIter);
      if restPairs.None? {
        return Fail(IndexOutOfRange);
      }
      cpuInfo.common := SluggedDict(restPairs.value);
      cpuInfo.cpuinfoData := Some(cpuinfoData);
      return Pass;
    }
  }
}
