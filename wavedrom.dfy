/** The WaveDrom encoder (`to_wavedrom_json` in digitalsim.py): one JSON
    object per input and output, in that order, each on its own line, with
    the waveform written as the decimal digits of its samples. */
module WaveDrom {
  import opened Results
  import opened Text
  import opened Netlist
  import opened Gates
  import opened Simulator

  /** `"".join(str(x) for x in samples)`. */
  function WaveString(samples: seq<int>): string
    decreases |samples|
  {
    if samples == [] then ""
    else WaveString(samples[..|samples| - 1]) + IntToString(samples[|samples| - 1])
  }

  /** The wave string holds only digits and minus signs, so no quote, brace
      or line break. */
  lemma {:induction false} WaveChars(samples: seq<int>)
    ensures forall k :: 0 <= k < |WaveString(samples)| ==>
      IsDigit(WaveString(samples)[k]) || WaveString(samples)[k] == '-'
    decreases |samples|
  {
    if samples != [] {
      WaveChars(samples[..|samples| - 1]);
    }
  }

  /** For bit samples the wave string has one character per sample, '0' or
      '1' as the sample. */
  lemma {:induction false} BitWave(samples: seq<int>)
    requires forall k :: 0 <= k < |samples| ==> IsBit(samples[k])
    ensures |WaveString(samples)| == |samples|
    ensures forall k :: 0 <= k < |samples| ==>
      WaveString(samples)[k] == if samples[k] == 1 then '1' else '0'
    decreases |samples|
  {
    if samples != [] {
      var init := samples[..|samples| - 1];
      BitWave(init);
      assert IsBit(samples[|samples| - 1]);
    }
  }

  /** The text of an entry up to its name, and between its name and its
      wave. */
  const NameKey := "    { \"name\": \""
  const WaveKey := "\", \"wave\": \""

  /** The text of `s` from index `i` up to the next quote. */
  function ReadQuoted(s: string, i: nat): string
    requires i <= |s|
  {
    s[i..][..IndexOf(s[i..], '"')]
  }

  /** Text without a quote, followed by a quote, reads back from where it
      starts. */
  lemma {:induction false} ReadsBack(s: string, i: nat, x: string)
    requires '"' !in x && i + |x| < |s| && s[i..i + |x|] == x && s[i + |x|] == '"'
    ensures ReadQuoted(s, i) == x
  {
    var t := s[i..];
    assert forall k :: 0 <= k < |x| ==> t[k] == x[k];
    IndexOfIs(t, '"', |x|);
    assert t[..|x|] == x;
  }

  /** Where the pieces of `pre + name + key + wave + tail` lie. */
  lemma {:induction false} FieldsAt(pre: string, name: string, key: string, wave: string, tail: string)
    requires key != [] && tail != []
    ensures var e := pre + name + key + wave + tail;
      var n, w := |pre|, |pre| + |name| + |key|;
      && w + |wave| < |e|
      && e[..n] == pre && e[n..n + |name|] == name && e[n + |name|] == key[0]
      && e[n + |name|..][..|key|] == key
      && e[w..w + |wave|] == wave && e[w + |wave|] == tail[0]
  {
    var e := pre + name + key + wave + tail;
    var n, w := |pre|, |pre| + |name| + |key|;
    assert e == pre + (name + (key + (wave + tail)));
  }

  /** One signal's line: its name and wave string between quotes, followed
      by a comma unless it is the last signal. Reading up to the next quote
      after each key gives back the name and, when the name has no quote,
      the wave. */
  function Entry(name: string, wave: string, last: bool): (e: string)
    ensures StartsWith(e, NameKey)
    ensures '"' !in name ==> ReadQuoted(e, |NameKey|) == name
    ensures '"' !in name ==> StartsWith(e[|NameKey| + |name|..], WaveKey)
    ensures '"' !in name && '"' !in wave ==> ReadQuoted(e, |NameKey| + |name| + |WaveKey|) == wave
  {
    var tail := "\" }" + (if last then "" else ",");
    var e := NameKey + name + WaveKey + wave + tail;
    FieldsAt(NameKey, name, WaveKey, wave, tail);
    assert StartsWith(e, NameKey) && StartsWith(e[|NameKey| + |name|..], WaveKey);
    if '"' !in name then
      ReadsBack(e, |NameKey|, name);
      if '"' !in wave then
        ReadsBack(e, |NameKey| + |name| + |WaveKey|, wave);
        e
      else e
    else e
  }

  /** The first `n` signal lines, one per listed signal in order. */
  function Entries(sigs: seq<string>, waves: map<string, seq<int>>, n: nat): seq<string>
    requires n <= |sigs| && forall k :: 0 <= k < |sigs| ==> sigs[k] in waves
  {
    seq(n, k requires 0 <= k < n => Entry(sigs[k], WaveString(waves[sigs[k]]), k == |sigs| - 1))
  }

  /** One more iteration of the loop adds the next signal's line. */
  lemma {:induction false} EntriesSnoc(sigs: seq<string>, waves: map<string, seq<int>>, n: nat)
    requires n < |sigs| && forall k :: 0 <= k < |sigs| ==> sigs[k] in waves
    ensures Entries(sigs, waves, n + 1) ==
      Entries(sigs, waves, n) + [Entry(sigs[n], WaveString(waves[sigs[n]]), n == |sigs| - 1)]
  {
  }

  /** `output_lines`: the opening lines, a line per input and output, and
      the closing lines. */
  function DocumentLines(c: Circuit, waves: map<string, seq<int>>): seq<string>
    requires forall k :: 0 <= k < |Signals(c)| ==> Signals(c)[k] in waves
  {
    ["{", "  \"signal\": ["] + Entries(Signals(c), waves, |Signals(c)|) + ["  ]", "}"]
  }

  /** `"\n".join(output_lines)`. */
  function Document(c: Circuit, waves: map<string, seq<int>>): string
    requires forall k :: 0 <= k < |Signals(c)| ==> Signals(c)[k] in waves
  {
    Join(DocumentLines(c, waves), "\n")
  }

  /** The generator inside `"".join`: the decimal form of every sample,
      concatenated. */
  method WaveText(samples: seq<int>) returns (s: string)
    ensures s == WaveString(samples)
  {
    s := "";
    for i := 0 to |samples|
      invariant s == WaveString(samples[..i])
    {
      assert samples[..i + 1][..i] == samples[..i];
      s := s + IntToString(samples[i]);
    }
    assert samples[..|samples|] == samples;
  }

  /** `to_wavedrom_json(circuit, wave_data)`. Every input and output must
      have a waveform. */
  method ToWaveDrom(c: Circuit, waves: map<string, seq<int>>) returns (doc: string)
    requires forall k :: 0 <= k < |Signals(c)| ==> Signals(c)[k] in waves
    ensures doc == Document(c, waves)
  {
    var lines := ["{", "  \"signal\": ["];
    var sigs := c.inputs + c.outputs;
    assert sigs == Signals(c);
    for idx := 0 to |sigs|
      invariant lines == ["{", "  \"signal\": ["] + Entries(sigs, waves, idx)
    {
      var wave := WaveText(waves[sigs[idx]]);
      var last := idx == |sigs| - 1;
      EntriesSnoc(sigs, waves, idx);
      lines := lines + [Entry(sigs[idx], wave, last)];
    }
    lines := lines + ["  ]"];
    lines := lines + ["}"];
    assert lines == DocumentLines(c, waves);
    doc := Join(lines, "\n");
  }

  // ---- properties of the document ----

  /** The document has the two opening lines, then the line of input or
      output `k` at line `k + 2`, then the two closing lines. */
  lemma {:induction false} DocumentLayout(c: Circuit, waves: map<string, seq<int>>)
    requires forall k :: 0 <= k < |Signals(c)| ==> Signals(c)[k] in waves
    ensures |DocumentLines(c, waves)| == |Signals(c)| + 4
    ensures DocumentLines(c, waves)[..2] == ["{", "  \"signal\": ["]
    ensures DocumentLines(c, waves)[|Signals(c)| + 2..] == ["  ]", "}"]
    ensures forall k :: 0 <= k < |Signals(c)| ==>
      DocumentLines(c, waves)[k + 2] ==
        Entry(Signals(c)[k], WaveString(waves[Signals(c)[k]]), k == |Signals(c)| - 1)
  {
  }

  /** A signal line ends with a comma exactly when it is not the last one. */
  lemma {:induction false} EntryEnds(name: string, wave: string, last: bool)
    ensures var e := Entry(name, wave, last);
      e[|e| - 1] == if last then '}' else ','
  {
  }

  lemma {:induction false} EntryUnbroken(name: string, wave: string, last: bool)
    requires '\n' !in name
    requires forall k :: 0 <= k < |wave| ==> IsDigit(wave[k]) || wave[k] == '-'
    ensures '\n' !in Entry(name, wave, last)
  {
    var tail := "\" }" + (if last then "" else ",");
    assert Entry(name, wave, last) == NameKey + name + WaveKey + wave + tail;
    assert '\n' !in wave;
    assert '\n' !in NameKey && '\n' !in WaveKey && '\n' !in tail;
  }

  /** No line of the document holds a line break, given signal names
      without one. */
  lemma {:induction false} LinesUnbroken(c: Circuit, waves: map<string, seq<int>>)
    requires forall k :: 0 <= k < |Signals(c)| ==> Signals(c)[k] in waves && '\n' !in Signals(c)[k]
    ensures forall k :: 0 <= k < |DocumentLines(c, waves)| ==> '\n' !in DocumentLines(c, waves)[k]
  {
    var lines := DocumentLines(c, waves);
    DocumentLayout(c, waves);
    forall k | 0 <= k < |lines|
      ensures '\n' !in lines[k]
    {
      if 2 <= k < |Signals(c)| + 2 {
        var name := Signals(c)[k - 2];
        var wave := WaveString(waves[name]);
        WaveChars(waves[name]);
        EntryUnbroken(name, wave, k - 2 == |Signals(c)| - 1);
      } else if k < 2 {
        assert lines[k] in lines[..2];
      } else {
        assert lines[k] in lines[|Signals(c)| + 2..];
      }
    }
  }

  /** Splitting the document at its line breaks gives back its lines, given
      signal names without a line break. */
  lemma {:induction false} DocumentSplits(c: Circuit, waves: map<string, seq<int>>)
    requires forall k :: 0 <= k < |Signals(c)| ==> Signals(c)[k] in waves && '\n' !in Signals(c)[k]
    ensures SplitOn(Document(c, waves), '\n') == DocumentLines(c, waves)
  {
    LinesUnbroken(c, waves);
    assert "\n" == ['\n'];
    SplitOnJoin(DocumentLines(c, waves), '\n');
  }

  /** The simulation's waveform map has a waveform for every input and
      output, so it can be encoded. */
  lemma {:induction false} SimulationEncodable(c: Circuit)
    requires Simulation(c).Ok?
    ensures forall k :: 0 <= k < |Signals(c)| ==> Signals(c)[k] in Simulation(c).value
  {
    SimulationShape(c);
    SignalsAreNodes(c);
  }

  /** Names without whitespace hold no line break. */
  lemma {:induction false} NamesUnbroken(names: seq<string>)
    requires forall k :: 0 <= k < |names| ==> NoSpace(names[k])
    ensures forall k :: 0 <= k < |names| ==> '\n' !in names[k]
  {
    assert IsSpace('\n');
    forall k | 0 <= k < |names|
      ensures '\n' !in names[k]
    {
      assert forall i :: 0 <= i < |names[k]| ==> names[k][i] != '\n';
    }
  }

  /** Parsed signal names hold no line break. */
  lemma {:induction false} ParsedSignalsUnbroken(lines: seq<CleanLine>, c: Circuit)
    requires ParseLines(lines) == Ok(c)
    ensures forall k :: 0 <= k < |Signals(c)| ==> '\n' !in Signals(c)[k]
  {
    ParsedNamesPlain(lines, c);
    NamesUnbroken(c.inputs + c.outputs);
  }

  /** For a parsed netlist whose simulation succeeds, the encoded document
      splits into exactly its lines: parsed signal names hold no whitespace. */
  lemma {:induction false} ParsedDocumentSplits(text: string, c: Circuit)
    requires Parse(text) == Ok(c) && Simulation(c).Ok?
    ensures forall k :: 0 <= k < |Signals(c)| ==> Signals(c)[k] in Simulation(c).value
    ensures SplitOn(Document(c, Simulation(c).value), '\n') == DocumentLines(c, Simulation(c).value)
  {
    SimulationEncodable(c);
    ParsedSignalsUnbroken(Cleaned(SplitLines(text)), c);
    DocumentSplits(c, Simulation(c).value);
  }

  /** With bit stimulus values the wave of every signal is a string of '0'
      and '1', one character per sample. */
  lemma {:induction false} WaveOfBits(c: Circuit, x: string)
    requires forall k, i :: 0 <= k < |c.stimulus| && 0 <= i < |c.stimulus[k].values| ==>
      IsBit(c.stimulus[k].values[i])
    requires Simulation(c).Ok? && x in Simulation(c).value
    ensures var w := Simulation(c).value[x];
      |WaveString(w)| == |w| &&
      forall m :: 0 <= m < |w| ==> WaveString(w)[m] == if w[m] == 1 then '1' else '0'
  {
    SimulationBits(c, x);
    BitWave(Simulation(c).value[x]);
  }
}
