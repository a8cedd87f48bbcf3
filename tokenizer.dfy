/**
 * `line_splitter` and `split_key_value_generator` (src/subscription_manager/cpuinfo.py):
 * cutting /proc/cpuinfo text into the key/value parts of its lines.
 */
module Tokenizer {
  import opened Wrappers
  import opened Text
  import opened Pairs

  /**
   * The list `line_splitter` returns: one part for a line without ':',
   * two parts (key, value) otherwise.
   */
  datatype Parts = KeyOnly(text: string) | KeyValue(key: string, value: string)

  /** `parts[0]`, the item the parsers compare with "processor" or "timebase". */
  function FirstPart(p: Parts): string {
    match p
    case KeyOnly(t) => t
    case KeyValue(k, _) => k
  }

  /** Every part `line_splitter` returns is stripped, and a key holds no ':'. */
  predicate WellSplit(p: Parts) {
    match p
    case KeyOnly(t) => Stripped(t) && ':' !in t
    case KeyValue(k, v) => Stripped(k) && ':' !in k && Stripped(v)
  }

  /**
   * `line_splitter`: split once on the first ':'; no parts (None) when the text
   * before it is empty, otherwise every part stripped.
   */
  function LineSplitter(line: string): (r: Option<Parts>)
    ensures r.None? <==> line == [] || line[0] == ':'
    ensures r.Some? ==> (r.value.KeyValue? <==> ':' in line)
    ensures r.Some? && ':' !in line ==> r.value == KeyOnly(Strip(line))
    ensures r.Some? ==> WellSplit(r.value)
  {
    var i := ColonIndex(line);
    assert i < |line| ==> line[i] in line;
    assert ':' !in line[..i];
    if i == 0 then None
    else if i == |line| then Some(KeyOnly(Strip(line)))
    else Some(KeyValue(Strip(line[..i]), Strip(line[i + 1..])))
  }

  /**
   * A "key<TAB>: value" line of /proc/cpuinfo gives back its key and value;
   * a ':' inside the value stays in the value.
   */
  lemma LineSplitterKeyValue(key: string, value: string)
    requires key != [] && ':' !in key && Stripped(key) && Stripped(value)
    ensures LineSplitter(key + "\t: " + value) == Some(KeyValue(key, value))
  {
    var k, v := key + "\t", " " + value;
    assert key + "\t: " + value == k + ":" + v;
    assert ':' !in k;
    LineSplitterSplit(k, v);
    assert k == [] + key + "\t" && v == " " + value + [];
    StripPadded([], key, "\t");
    StripPadded(" ", value, []);
  }

  /**
   * Any line with a non-empty text before its first ':' splits there: the key
   * is that text stripped, the value everything after the ':' stripped.
   */
  lemma LineSplitterSplit(key: string, value: string)
    requires key != [] && ':' !in key
    ensures LineSplitter(key + ":" + value) == Some(KeyValue(Strip(key), Strip(value)))
  {
    var line := key + ":" + value;
    assert line[|key|] == ':';
    assert forall j :: 0 <= j < |key| ==> line[j] == key[j] && key[j] in key;
    assert ColonIndex(line) == |key|;
    assert line[..|key|] == key;
    assert line[|key| + 1..] == value;
  }

  /** A non-empty line without ':', even one of white space only, gives one part. */
  lemma LineSplitterNoColon(line: string)
    requires line != [] && ':' !in line
    ensures LineSplitter(line) == Some(KeyOnly(Strip(line)))
    ensures AllSpace(line) ==> LineSplitter(line) == Some(KeyOnly(""))
  {
    if AllSpace(line) {
      StripPadded(line, [], []);
      assert line + [] + [] == line;
    }
  }

  /** What `line_splitter` yields for each line that it does not reject, in line order. */
  function KeyValueEntries(lines: seq<string>): (entries: seq<Parts>)
    ensures |entries| <= |lines|
    ensures forall i :: 0 <= i < |entries| ==> WellSplit(entries[i])
  {
    if lines == [] then []
    else
      var init := lines[..|lines| - 1];
      KeyValueEntries(init) + match LineSplitter(lines[|lines| - 1])
                              case None => []
                              case Some(parts) => [parts]
  }

  /** The entries of two blocks of lines are those of the first block followed by those of the second. */
  lemma {:induction false} KeyValueEntriesAppend(a: seq<string>, b: seq<string>)
    ensures KeyValueEntries(a + b) == KeyValueEntries(a) + KeyValueEntries(b)
  {
    if b == [] {
      assert a + b == a;
    } else {
      var init := b[..|b| - 1];
      assert (a + b)[..|a + b| - 1] == a + init;
      KeyValueEntriesAppend(a, init);
    }
  }

  /** The entries of one line: none exactly when `line_splitter` rejects it. */
  lemma KeyValueEntriesOne(line: string)
    ensures KeyValueEntries([line]) == [] <==> line == [] || line[0] == ':'
    ensures KeyValueEntries([line]) != [] ==> KeyValueEntries([line]) == [LineSplitter(line).value]
  {
    assert [line][..0] == [];
  }

  /** The entries `split_key_value_generator` yields for the whole text. */
  function Tokenize(text: string): (entries: seq<Parts>)
    ensures forall i :: 0 <= i < |entries| ==> WellSplit(entries[i])
    ensures |entries| <= |text|
  {
    KeyValueEntries(SplitLines(text))
  }

  /** `split_key_value_generator(file_contents, line_splitter)`, its yields gathered into a list. */
  method SplitKeyValueGenerator(fileContents: string) returns (entries: seq<Parts>)
    ensures entries == Tokenize(fileContents)
    ensures fileContents == [] ==> entries == []
  {
    var lines := SplitLines(fileContents);
    entries := [];
    var i := 0;
    while i < |lines|
      invariant 0 <= i <= |lines|
      invariant entries == KeyValueEntries(lines[..i])
    {
      var parts := LineSplitter(lines[i]);
      assert lines[..i + 1][..i] == lines[..i];
      if parts.Some? {
        entries := entries + [parts.value];
      }
      i := i + 1;
    }
    assert lines[..i] == lines;
  }

  /**
   * Unpacking every entry as `key, value` (a `for key, value in ...` loop or
   * `item[1]`): it fails exactly when some line gave one part.
   */
  function AsPairs(entries: seq<Parts>): (r: Option<seq<Pair>>)
    ensures r.Some? <==> forall i :: 0 <= i < |entries| ==> entries[i].KeyValue?
    ensures r.Some? ==> |r.value| == |entries|
    ensures r.Some? ==> forall i :: 0 <= i < |entries| ==> r.value[i] == (entries[i].key, entries[i].value)
  {
    if forall i :: 0 <= i < |entries| ==> entries[i].KeyValue? then
      Some(seq(|entries|, i requires 0 <= i < |entries| => (entries[i].key, entries[i].value)))
    else None
  }
}
