# cpuinfo and profile model

A Dafny model of two pieces of subscription-manager.

**The /proc/cpuinfo parser** (`src/subscription_manager/cpuinfo.py`):
- It cuts the text into `key: value` lines and normalises ("sluggifies") the keys.
- It splits the list into one stanza per processor.
- It works out the fields every processor agrees on.
- It fills a `CpuinfoModel` (processors, common fields, other lines, the `count`, `model_name` and `model` accessors).
- There are three dialects:
  - x86_64: processors are split at every "processor" key; `common` holds the fields whose value is the same in every processor that has them.
  - aarch64: `common` is the whole list with "processor" and "hardware" dropped; there is one processor per "processor" line; "hardware" lines go to `other`.
  - ppc64: processor stanzas are read up to the "timebase" line; whatever follows becomes `common`.
- `SystemCpuInfoFactory.from_uname_machine` picks the dialect from `uname -m`.

**The package and module profiles** (`src/rhsm/profile.py`), reported to the entitlement server:
- `ModulesProfile._uniquify` removes duplicate module streams.
- `RPMProfile._accumulate_profile` turns rpm headers into `Package`s.
- `Package.__eq__` and `to_dict`.
- `RPMProfile.collect` and `RPMProfile.__eq__`.
- The `get_profile` lookup in `PROFILE_MAP`.

## How the model is organised

**Modules:**
- `Text`: the Python string built-ins that are used.
- `Pairs`: key/value lists and dicts.
- `Canonical`: `fact_sluggify`.
- `Tokenizer`: `line_splitter`, `split_key_value_generator`.
- `StanzaSplitter`: `split_kv_list_by_field`.
- `Aggregate`: `accumulate_fields`, `find_shared_key_value_pairs`.
- `CpuinfoModels`: the `*Fields` classes and `CpuinfoModel`.
- `X86`, `Aarch64`, `Ppc64`: the three dialects.
- `Factory`: `from_proc_cpuinfo_string` and `from_uname_machine`.
- `ModulesProfile`: `_uniquify`.
- `RpmProfile`: packages and profiles.

**How the source's forms carry over:**
- Source loops become Dafny methods with loop invariants. Each is proved equal to a specification function, and the promised properties are proved as lemmas about that function.
- `CpuinfoModel`, whose fields `_parse` assigns, is a class. So is each `*CpuInfo` parser holding one.
- A line without ':' gives a one-part entry, and a parse fails on it in one of two ways:
  - Unpacking it as `key, value` raises `ValueError`. This becomes `Fail(NotEnoughValues)` (x86_64, and ppc64's processor entries).
  - Reading its `[1]` in `fact_sluggify_item` raises `IndexError`. This becomes `Fail(IndexOutOfRange)` (aarch64, and ppc64's entries after "timebase").

**Where the code and its description differ, the model follows the code:**
- Pairs before the first "processor" line are dropped, not kept as `other` (x86_64 and ppc64).
- A field counts as shared when the processors that have it agree, even if some processors lack it.
- `fact_sluggify` replaces each single space with '_'. It does not collapse runs of whitespace, and tabs inside a key are kept.

**Behaviours of the code that the model makes explicit:**
- aarch64's `_parse` never sets `cpuinfo_data`.
- ppc64's `_parse` appends each processor stanza to `processors` as soon as it is complete. So a malformed line after the first stanzas leaves those stanzas appended when the error is raised. x86_64 and aarch64 change nothing on a malformed input.
- In ppc64, a line reading just "timebase" (no ':') stops the processor stanzas like a "timebase" key, without raising.
- `RPMProfile.__eq__` is not symmetric when one side lists a package twice.

## Model

| member | source | states |
|---|---|---|
| Text.Lower | src/subscription_manager/cpuinfo.py:253 | `str.lower()` lowers each upper-case (ASCII) letter to its lower-case letter and keeps every other character, so no upper-case letter is left |
| Text.Replace | src/subscription_manager/cpuinfo.py:253 | `str.replace` of one character by another puts the new character at each position of the old one, keeps every other character, and leaves none of the old one |
| Text.Strip | src/subscription_manager/cpuinfo.py:253 | `str.strip()` gives a string with no leading or trailing whitespace, no longer than its input, made of its input's characters |
| Text.StripPadded | src/subscription_manager/cpuinfo.py:274 | stripping a stripped text padded with whitespace on both sides gives the text back |
| Text.StripStripped | src/subscription_manager/cpuinfo.py:274 | strip is the identity on stripped text |
| Text.TrimLeftSpaces | src/subscription_manager/cpuinfo.py:274 | leading whitespace in front of a non-space character is removed exactly |
| Text.TrimRightSpaces | src/subscription_manager/cpuinfo.py:274 | trailing whitespace after a non-space character is removed exactly |
| Text.TrimLeftShape | src/subscription_manager/cpuinfo.py:274 | the left trim is a suffix of its input and starts with a non-space |
| Text.TrimRightShape | src/subscription_manager/cpuinfo.py:274 | the right trim is a prefix of its input and ends with a non-space |
| Text.ColonIndex | src/subscription_manager/cpuinfo.py:272 | the position `split(":", 1)` cuts at is the first ':' (or the end) |
| Text.BreakIndex | src/subscription_manager/cpuinfo.py:263 | the first line boundary of the text (or the end) |
| Text.BreakAfter | src/subscription_manager/cpuinfo.py:263 | a line followed by a boundary ends exactly at that boundary |
| Text.SplitLines | src/subscription_manager/cpuinfo.py:263 | `splitlines()` gives lines without any line boundary in them, at most one per character |
| Text.SplitLinesJoinLines | src/subscription_manager/cpuinfo.py:263 | `splitlines()` of lines written one per "\n"-terminated line recovers exactly those lines |
| Pairs.ToDict | src/subscription_manager/cpuinfo.py:220 | `dict(pairs)` has exactly the pairs' keys |
| Pairs.ToDictLastWins | src/subscription_manager/cpuinfo.py:220 | a key maps to the value of its last pair |
| Pairs.OccurrencesSnoc | src/subscription_manager/cpuinfo.py:314-323 | appending a pair adds one occurrence of its key and none of any other |
| Pairs.ValuesFor | src/subscription_manager/cpuinfo.py:397-403 | one value per occurrence of the key |
| Canonical.FactSluggify | src/subscription_manager/cpuinfo.py:241-253 | the slug is no longer than the key, has no ' ', no '.', no upper-case letter, no outer whitespace |
| Canonical.FactSluggifyPadded | src/subscription_manager/cpuinfo.py:241-253 | a stripped key with whitespace around it gives a slug of the key's length whose i-th character is the key's i-th character lowered, with ' ' and '.' turned into '_' |
| Canonical.SluggifyLower | src/subscription_manager/cpuinfo.py:241-253 | lower-casing a key first does not change its slug |
| Canonical.SlugFixedPoint | src/subscription_manager/cpuinfo.py:241-253 | a key is left unchanged by `fact_sluggify` iff it already has the slug shape |
| Canonical.SluggifyIdempotent | src/subscription_manager/cpuinfo.py:241-253 | sluggifying twice is sluggifying once |
| Canonical.FactSluggifyItem | src/subscription_manager/cpuinfo.py:256-258 | the key becomes its slug, the value is kept |
| Canonical.SluggifyItems | src/subscription_manager/cpuinfo.py:377 | the new list has one item per item of the input; the i-th is the i-th input item with its key sluggified |
| Canonical.SluggedDict | src/subscription_manager/cpuinfo.py:217-221 | `from_stanza` / `processor_stanza_to_processor_data`: the dict's keys are exactly the slugs of the stanza keys |
| Canonical.SluggedDictLastWins | src/subscription_manager/cpuinfo.py:217-221 | a slug maps to the value of the last pair with that slug |
| Canonical.SluggedDictsIndex | src/subscription_manager/cpuinfo.py:435-437 | the i-th processor dict is built from the i-th stanza |
| Tokenizer.LineSplitter | src/subscription_manager/cpuinfo.py:269-276 | no parts iff the text before the first ':' is empty; two parts iff the line has a ':'; a line without ':' gives its stripped self |
| Tokenizer.LineSplitterKeyValue | src/subscription_manager/cpuinfo.py:269-276 | "key\t: value" gives (key, value) for stripped key and value |
| Tokenizer.LineSplitterSplit | src/subscription_manager/cpuinfo.py:269-276 | a line whose text before its first ':' is non-empty gives two parts: that text stripped, and everything after the ':' stripped |
| Tokenizer.LineSplitterNoColon | src/subscription_manager/cpuinfo.py:269-276 | a line without ':' gives one stripped part; a blank line gives "" |
| Tokenizer.KeyValueEntries | src/subscription_manager/cpuinfo.py:262-266 | at most one entry per line; every part is stripped and no key holds ':' |
| Tokenizer.KeyValueEntriesAppend | src/subscription_manager/cpuinfo.py:262-266 | the entries of two blocks of lines are the entries of each, concatenated |
| Tokenizer.KeyValueEntriesOne | src/subscription_manager/cpuinfo.py:262-266 | a line yields nothing iff it splits to no parts, else its parts |
| Tokenizer.Tokenize | src/subscription_manager/cpuinfo.py:262-266 | at most one entry per character of the text; every part is stripped and no key holds ':' |
| Tokenizer.SplitKeyValueGenerator | src/subscription_manager/cpuinfo.py:262-266 | the loop yields the split of every line that has parts, in order; empty text yields nothing |
| Tokenizer.AsPairs | src/subscription_manager/cpuinfo.py:314 | unpacking as (key, value) succeeds iff every entry has two parts, and keeps order and length |
| StanzaSplitter.Run | src/subscription_manager/cpuinfo.py:314-323 | the number of pairs before the first `field` pair (all of `kv` when there is none) |
| StanzaSplitter.Stanzas | src/subscription_manager/cpuinfo.py:304-327 | no more stanzas than pairs; every stanza is non-empty and opens with a `field` pair |
| StanzaSplitter.StanzaShape | src/subscription_manager/cpuinfo.py:304-327 | every stanza is non-empty, starts with `field` and has no other `field` pair |
| StanzaSplitter.StanzaCount | src/subscription_manager/cpuinfo.py:304-327 | one stanza per occurrence of `field`; none when it never occurs |
| StanzaSplitter.StanzaConcat | src/subscription_manager/cpuinfo.py:304-327 | the stanzas concatenated give back the list from the first `field` pair on; what precedes it is dropped |
| StanzaSplitter.OccurrencesSkip | src/subscription_manager/cpuinfo.py:322-323 | the dropped prefix holds no `field` pair |
| StanzaSplitter.ResumeAtField | src/subscription_manager/cpuinfo.py:315-319 | a `field` pair yields the stanza in progress (if any) and opens a new one |
| StanzaSplitter.ResumeExtend | src/subscription_manager/cpuinfo.py:322-323 | another pair extends the open stanza |
| StanzaSplitter.ResumeEnd | src/subscription_manager/cpuinfo.py:325-327 | at the end the open stanza, if any, is yielded |
| StanzaSplitter.StepResume | src/subscription_manager/cpuinfo.py:314-323 | one loop iteration keeps "stanzas yielded + stanzas still to come" equal to the whole result |
| StanzaSplitter.SplitKvListByField | src/subscription_manager/cpuinfo.py:304-327 | the loop yields exactly the stanzas of the list |
| Aggregate.FirstValue | src/subscription_manager/cpuinfo.py:300 | the value kept for a field is one of that field's values |
| Aggregate.SingletonValue | src/subscription_manager/cpuinfo.py:300 | a one-element set pops its only element |
| Aggregate.SharedPairs | src/subscription_manager/cpuinfo.py:285-301 | a field is common iff it is in `all_fields` and the processors that have it show exactly one value, which is the common value |
| Aggregate.SharedWhenAgreeing | src/subscription_manager/cpuinfo.py:285-301 | a field present somewhere, with one value wherever present, is common with that value |
| Aggregate.NotSharedWhenDiffering | src/subscription_manager/cpuinfo.py:285-301 | two processors disagreeing on a field keep it out of `common` |
| Aggregate.NotSharedWhenAbsent | src/subscription_manager/cpuinfo.py:285-301 | a field no processor has is not common |
| Aggregate.SharedPairsOrderIndependent | src/subscription_manager/cpuinfo.py:285-301 | the result does not depend on the order of the processors |
| Aggregate.SharedPairsOneProcessor | src/subscription_manager/cpuinfo.py:285-301 | with one processor, `common` is that processor |
| Aggregate.AllKeysSnoc | src/subscription_manager/cpuinfo.py:439 | adding a processor adds its keys to the accumulated fields |
| Aggregate.AccumulateFields | src/subscription_manager/cpuinfo.py:279-282 | the accumulator becomes its union with the fields |
| Aggregate.ValuesOfSnoc | src/subscription_manager/cpuinfo.py:294-297 | one more processor adds its value of the field, if it has one |
| Aggregate.SmashedAdd | src/subscription_manager/cpuinfo.py:293-297 | one more field adds exactly that field's value set |
| Aggregate.AddFieldValues | src/subscription_manager/cpuinfo.py:294-297 | the inner loop gathers the set of the field's values across processors, skipping `None` |
| Aggregate.SingleValued | src/subscription_manager/cpuinfo.py:300 | keeps exactly the fields with one value, mapped to it |
| Aggregate.SingleValuesAreShared | src/subscription_manager/cpuinfo.py:300-301 | the single-valued fields of the gathered sets are the shared pairs |
| Aggregate.FindSharedKeyValuePairs | src/subscription_manager/cpuinfo.py:285-301 | the loops compute exactly the shared pairs |
| CpuinfoModels.LookupField | src/subscription_manager/cpuinfo.py:168-186 | a truthy override wins; else `None` for empty `common`, else `common.get(field)` |
| CpuinfoModels.CpuinfoModel.constructor | src/subscription_manager/cpuinfo.py:143-162 | a new model has no processors, no other lines, empty `common`, no overrides |
| CpuinfoModels.CpuinfoModel.Count | src/subscription_manager/cpuinfo.py:164-166 | the number of processors |
| CpuinfoModels.CpuinfoModel.ModelName | src/subscription_manager/cpuinfo.py:168-176 | the override if truthy, else the architecture's model-name field of `common` when present |
| CpuinfoModels.CpuinfoModel.Model | src/subscription_manager/cpuinfo.py:178-186 | the override if truthy, else the architecture's model field of `common` when present |
| X86.ProcessorIsSlug | src/subscription_manager/cpuinfo.py:435 | "processor" is its own slug, so the split key survives sluggification |
| X86.X86Processors | src/subscription_manager/cpuinfo.py:435-437 | one processor dict per "processor" line |
| X86.X86ProcessorKey | src/subscription_manager/cpuinfo.py:435-437 | every processor dict has a "processor" key |
| X86.X86ParseSpec | src/subscription_manager/cpuinfo.py:429-443 | the parse succeeds iff every non-empty line has a ':' (an empty line is dropped, a whitespace-only line fails); it then has one processor per "processor" line |
| X86.X86SingleProcessor | src/subscription_manager/cpuinfo.py:429-443 | with one processor, `common` is that processor, including its "processor" entry |
| X86.X86AgreeingFieldShared | src/subscription_manager/cpuinfo.py:429-443 | a field with one value across the processors is in `common` with that value |
| X86.CollectProcessors | src/subscription_manager/cpuinfo.py:433-439 | the loop builds one dict per stanza, in order, and accumulates exactly their keys |
| X86.X86_64CpuInfo.constructor | src/subscription_manager/cpuinfo.py:426-427 | a new parser holds a fresh, empty x86_64 model |
| X86.X86_64CpuInfo.Parse | src/subscription_manager/cpuinfo.py:429-443 | succeeds iff the text parses; then `processors`, `common` and `cpuinfo_data` are set as specified; a failure changes nothing and is `ValueError` |
| Aarch64.CapitalProcessorToModelName | src/subscription_manager/cpuinfo.py:386-393 | "Processor" becomes "model_name"; any other item is unchanged |
| Aarch64.CpuInfoModelOf | src/subscription_manager/cpuinfo.py:416-422 | the keys are all keys but "processor" and "hardware" |
| Aarch64.CpuInfoModelLastWins | src/subscription_manager/cpuinfo.py:416-422 | a kept key maps to the value of its last pair |
| Aarch64.GatherCpuInfoModel | src/subscription_manager/cpuinfo.py:416-422 | the loop computes that dict |
| Aarch64.ProcessorEntries | src/subscription_manager/cpuinfo.py:395-405 | one entry per "processor" pair |
| Aarch64.ProcessorEntriesIndex | src/subscription_manager/cpuinfo.py:395-405 | the i-th entry is the whole-list model with "processor" set to the i-th processor value |
| Aarch64.GatherProcessorList | src/subscription_manager/cpuinfo.py:395-405 | the loop computes those entries |
| Aarch64.HardwarePairs | src/subscription_manager/cpuinfo.py:409-414 | one ("hardware", value) pair per "hardware" line, in order |
| Aarch64.GatherCpuInfoOther | src/subscription_manager/cpuinfo.py:409-414 | the loop computes those pairs |
| Aarch64.SluggedKvList | src/subscription_manager/cpuinfo.py:371-377 | renaming and sluggifying succeed iff every non-empty line has a ':' (an empty line is dropped, a whitespace-only line fails) and keep the length |
| Aarch64.Aarch64ParseSpec | src/subscription_manager/cpuinfo.py:370-384 | the parse succeeds iff every non-empty line has a ':' (an empty line is dropped, a whitespace-only line fails); it then has one processor per "processor" line |
| Aarch64.ModelNameIsSlug | src/subscription_manager/cpuinfo.py:386-393 | "model_name" survives sluggification |
| Aarch64.Aarch64ModelName | src/subscription_manager/cpuinfo.py:370-393 | the last "Processor" line's value is `common["model_name"]` when no later pair renames to it |
| Aarch64.Aarch64ProcessorShape | src/subscription_manager/cpuinfo.py:380-381 | each processor is `common` plus its own "processor" value, and has no "hardware" key |
| Aarch64.Aarch64CpuInfo.constructor | src/subscription_manager/cpuinfo.py:367-368 | a new parser holds a fresh, empty aarch64 model |
| Aarch64.Aarch64CpuInfo.Parse | src/subscription_manager/cpuinfo.py:370-384 | succeeds iff the text parses; then `common`, `processors` and `other` are set and `cpuinfo_data` is left alone; a failure changes nothing and is `IndexError` |
| Ppc64.StopIndex | src/subscription_manager/cpuinfo.py:459-470 | where the processor stanzas stop: the first entry that has one part or is keyed "timebase" |
| Ppc64.NotTimebaseKey | src/subscription_manager/cpuinfo.py:469-470 | an entry passes `takewhile` unless its `[0]` — the text of a one-part entry, the key of a two-part one — is "timebase" |
| Ppc64.ProcessorPairs | src/subscription_manager/cpuinfo.py:459 | the pairs `takewhile` lets through, one per entry before the stop |
| Ppc64.ProcessorPairsAt | src/subscription_manager/cpuinfo.py:459 | the j-th of them is the j-th entry's key and value |
| Ppc64.Ppc64Processors | src/subscription_manager/cpuinfo.py:459-462 | never more processors than "processor" pairs before the stop |
| Ppc64.Ppc64Common | src/subscription_manager/cpuinfo.py:466 | `common` is the sluggified dict of what follows the "timebase" entry; empty when there is none |
| Ppc64.Ppc64Error | src/subscription_manager/cpuinfo.py:459-467 | a failure in the processor entries is `ValueError` and the stopping entry has one part; a failure after "timebase" is `IndexError` and some later entry has one part |
| Ppc64.Ppc64NoTimebase | src/subscription_manager/cpuinfo.py:456-467 | without a "timebase" line, every stanza is a processor and `common` is empty |
| Ppc64.Ppc64ProcessorCount | src/subscription_manager/cpuinfo.py:459-462 | when the processor entries end at the input's end or at a "timebase" entry (a stop, not a raise), one processor per "processor" line before it |
| Ppc64.Ppc64TimebaseSwallowed | src/subscription_manager/cpuinfo.py:459-470 | the "timebase" entry itself is consumed: its value changes neither processors nor `common` |
| Ppc64.Ppc64ProcessorsIgnoreTail | src/subscription_manager/cpuinfo.py:459-462 | the processors depend only on the lines up to the "timebase" line |
| Ppc64.StopIndexUnique | src/subscription_manager/cpuinfo.py:459 | the stop is the first stopping entry |
| Ppc64.StopIndexAhead | src/subscription_manager/cpuinfo.py:459 | an entry `takewhile` accepts is before the stop |
| Ppc64.CompletedStanzas | src/subscription_manager/cpuinfo.py:313-323 | the stanzas yielded so far are all but the open one |
| Ppc64.ReadingRaised | src/subscription_manager/cpuinfo.py:459-462 | a one-part entry among the processor entries raises after exactly the stanzas closed so far were appended |
| Ppc64.ReadingDone | src/subscription_manager/cpuinfo.py:459-462 | when the processor entries end without a raise, the closed stanzas and the open one are every processor |
| Ppc64.Ppc64CpuInfo.constructor | src/subscription_manager/cpuinfo.py:453-454 | a new parser holds a fresh, empty ppc64 model |
| Ppc64.Ppc64CpuInfo.ReadPair | src/subscription_manager/cpuinfo.py:313-323 | one pair of the split loop, with its append to `processors` |
| Ppc64.Ppc64CpuInfo.CloseStanza | src/subscription_manager/cpuinfo.py:325-327 | the final stanza, if any, is appended |
| Ppc64.Ppc64CpuInfo.AppendProcessorStanzas | src/subscription_manager/cpuinfo.py:459-462 | the loop appends the specified processors, reports whether it raised and where it stopped, and touches nothing else |
| Ppc64.Ppc64CpuInfo.Parse | src/subscription_manager/cpuinfo.py:456-467 | the processors are appended in all cases; success iff the rest parses, and then `common` and `cpuinfo_data` are set; a failure reports the exception `Ppc64Error` names |
| Factory.CpuinfoClass | src/subscription_manager/cpuinfo.py:474-479 | exactly x86_64, aarch64, ppc64 and ppc64le have a parser; both ppc64 names map to the ppc64 one |
| Factory.Dispatch | src/subscription_manager/cpuinfo.py:482-491 | an unknown machine is refused before the file is read; an unreadable file fails; otherwise the parser and the text |
| Factory.UnknownMachineIgnoresFile | src/subscription_manager/cpuinfo.py:484-486 | an unknown machine gives NotImplemented whatever the file |
| Factory.Ppc64Endianness | src/subscription_manager/cpuinfo.py:474-479 | ppc64 and ppc64le are handled identically |
| Factory.FromProcCpuinfoString | src/subscription_manager/cpuinfo.py:351-361 | a fresh model, filled as the dialect's parse specifies, or the parse's exception: `ValueError` for x86_64, `IndexError` for aarch64, and for ppc64 the one `Ppc64Error` names |
| Factory.FromUnameMachine | src/subscription_manager/cpuinfo.py:482-491 | the dispatch decision, then the dialect's parse of the text; a failed parse carries the dialect's exception as `FromProcCpuinfoString` gives it |
| ModulesProfile.FirstIndex | src/rhsm/profile.py:86-87 | where a key first appears |
| ModulesProfile.FirstActiveIndex | src/rhsm/profile.py:89-90 | where the first active duplicate of a key is |
| ModulesProfile.Chosen | src/rhsm/profile.py:81-92 | the entry kept for a key comes from the input and has that key |
| ModulesProfile.DistinctKeys | src/rhsm/profile.py:81-92 | the keys, each once, exactly those of the input |
| ModulesProfile.DistinctKeysInFirstAppearanceOrder | src/rhsm/profile.py:81-92 | the output order is the order of first appearance |
| ModulesProfile.ChosenSnoc | src/rhsm/profile.py:86-90 | a new module is kept when its key is new, replaces the kept entry only when that is inactive and the new one active, and changes no other key |
| ModulesProfile.ChosenMapStep | src/rhsm/profile.py:86-90 | updating `ret` at the new module's key by the loop's rule keeps it equal to the choice for the modules seen |
| ModulesProfile.Uniquified | src/rhsm/profile.py:75-92 | one module per key, keys distinct and all present, every module from the input; a first entry whose "active" is not False is never replaced; an inactive one gives way to the first active duplicate |
| ModulesProfile.UniquifiedIdempotent | src/rhsm/profile.py:75-92 | uniquifying twice is uniquifying once |
| ModulesProfile.DistinctKeysOfUnique | src/rhsm/profile.py:81-92 | a list with distinct keys keeps its own order of keys |
| ModulesProfile.Visit | src/rhsm/profile.py:83-90 | one iteration keeps `ret` and its insertion order equal to the choice for the modules seen |
| ModulesProfile.Uniquify | src/rhsm/profile.py:75-92 | the loop returns exactly `Uniquified` of its input |
| RpmProfile.Normalize | src/rhsm/profile.py:277-281 | bytes are decoded, every other value is kept; the result is never bytes |
| RpmProfile.NormalizeIdempotent | src/rhsm/profile.py:277-281 | normalising twice is normalising once |
| RpmProfile.PackageEq | src/rhsm/profile.py:254-271 | packages that compare equal are both packages and have the same `to_dict` |
| RpmProfile.PackageEqReflexive | src/rhsm/profile.py:254-271 | a package equals itself |
| RpmProfile.PackageEqSymmetric | src/rhsm/profile.py:254-271 | package equality is symmetric |
| RpmProfile.PackageEqTransitive | src/rhsm/profile.py:254-271 | package equality is transitive |
| RpmProfile.PackageEqDecodedVendor | src/rhsm/profile.py:267 | a bytes vendor equals its decoded text, though the packages differ as values |
| RpmProfile.ToDict | src/rhsm/profile.py:243-252 | exactly the six keys, each the normalised attribute, none bytes |
| RpmProfile.PackageEqSameDict | src/rhsm/profile.py:243-271 | packages that compare equal have the same dict |
| RpmProfile.PackageOf | src/rhsm/profile.py:329-338 | the header's fields, epoch 0 for a falsy epoch, vendor None for a falsy vendor |
| RpmProfile.Accumulated | src/rhsm/profile.py:322-339 | never more packages than headers |
| RpmProfile.AccumulatedAppend | src/rhsm/profile.py:322-339 | the profile of two header lists is the two profiles concatenated, so order is kept |
| RpmProfile.AccumulatedMembers | src/rhsm/profile.py:322-339 | every non-"gpg-pubkey" header gives a package, every package comes from such a header, no package is named "gpg-pubkey" |
| RpmProfile.AccumulatedWithoutKeys | src/rhsm/profile.py:322-339 | without gpg keys, the i-th package is built from the i-th header |
| RpmProfile.AccumulateProfile | src/rhsm/profile.py:314-339 | the loop computes exactly `Accumulated` |
| RpmProfile.Collect | src/rhsm/profile.py:341-353 | one dict per package, in order, each its `to_dict` |
| RpmProfile.InList | src/rhsm/profile.py:369 | a package found in a list has its `to_dict` among the list's dicts |
| RpmProfile.SameProfile | src/rhsm/profile.py:355-371 | profiles that compare equal have the same number of packages, and every package of self has its `to_dict` among the other's |
| RpmProfile.ProfilesEqual | src/rhsm/profile.py:355-371 | not equal to a non-profile or a profile of a different size; otherwise equal iff every package of self is in the other list |
| RpmProfile.SameProfileReordered | src/rhsm/profile.py:355-371 | a profile equals any reordering of itself |
| RpmProfile.SameProfileSizes | src/rhsm/profile.py:364-365 | different package counts never compare equal |
| RpmProfile.SameProfileNotSymmetric | src/rhsm/profile.py:367-371 | [a, a] equals [a, b] but [a, b] does not equal [a, a] |
| RpmProfile.ProfileMap | src/rhsm/profile.py:413-422 | "enabled_repos" always; "rpm" and "modulemd" iff dnf or yum imported; "deb" iff apt imported; nothing else |
| RpmProfile.GetProfile | src/rhsm/profile.py:400-409 | the mapped profile class iff the type is a key, else InvalidProfileType naming it |
| RpmProfile.GetProfileUnknown | src/rhsm/profile.py:406-407 | a type other than the four names always fails |

## Left out

- Reading /proc/cpuinfo (`open_proc_cpuinfo`, the `prefix` argument): the read becomes a parameter holding the file's text, or `None` when it cannot be read.
- `BaseCpuInfo` wrapper: `from_proc_cpuinfo_string` returns the parser object; the model returns its `cpu_info` model, which is all the parser holds.
- `__str__` methods: `CpuinfoModel`, `Package`, `ModulesProfile`; presentation only.
- Lazy generators: `split_key_value_generator`, `split_kv_list_by_field` and `takewhile` are modelled on whole sequences.
  - For x86_64 and aarch64 the difference cannot be observed, because they assign nothing before the whole list is consumed.
  - For ppc64 the appends are modelled one stanza at a time.
- Text.Lower: only ASCII upper-case letters are lowered. Python's Unicode case mapping is not modelled.
- Text.Strip and Text.SplitLines: these use the whitespace and line-boundary character sets of Python 3 written out. Other Unicode properties are not.
- Dict insertion order: dicts are Dafny maps. The order of keys in `processors` and `common`, which only shows in printing, is not modelled. List order (`other`, the profiles) is kept.
- `set.pop()`: it picks an arbitrary element. It is only applied to one-element sets, where the choice is determined.
- RpmProfile.Normalize: UTF-8 decoding with replacement is a parameter `decode`, taken as given.
- profile.py parts that depend on the system or do I/O are not part of this model:
  - `ModulesProfile.__generate` (dnf and libdnf) and `fix_aws_rhui_repos` (cloud metadata);
  - `ModulesProfile.collect` and `__eq__`, which return or compare `content` as it is;
  - `EnabledReposProfile` (repo files);
  - `RPMProfile.__init__` (the rpm database and the JSON file);
  - `DebProfile` (apt).
- RpmProfile.GetProfile: returns which profile class `get_profile` instantiates. The construction itself is left out, since every profile constructor reads the system.
- ModulesProfile.Uniquify: module dicts are assumed to carry the five key fields, since `__generate` always sets them. The `KeyError` for a missing one is not modelled. An "active" value other than a bool is kept as `OtherValue`, which is neither `is True` nor `is False`.
- Type checks: `isinstance(self, type(other))` against an unrelated object is modelled by passing `None` for `other`. Subclasses of `Package` and `RPMProfile` are not modelled.
