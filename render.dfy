/** Writing a circuit back out as a netlist text: the inverse of
    `parse_netlsit`. A circuit whose names the netlist syntax can carry is
    formatted into a text that parses back to exactly that circuit. */
module Render {
  import opened Results
  import opened Text
  import opened Netlist

  /** A gate field the gate-line syntax carries unchanged: non-empty, no
      whitespace, none of the delimiters `=`, `(`, `)` and `,`, no `:` (the
      line would read as a section header) and no `#` (a leading one makes
      a comment). */
  predicate Plain(s: string) {
    && s != [] && NoSpace(s)
    && ':' !in s && '=' !in s && '(' !in s && ')' !in s && ',' !in s && '#' !in s
  }

  predicate PlainGate(g: Gate) {
    && Plain(g.output) && Plain(g.kind) && g.operands != []
    && forall k :: 0 <= k < |g.operands| ==> Plain(g.operands[k])
  }

  /** The circuits a netlist text describes: signal names without
      whitespace, plain gate fields with at least one operand, one value per
      input on every stimulus line, and strictly increasing times. */
  predicate Formattable(c: Circuit) {
    && Words(c.inputs) && Words(c.outputs)
    && (forall k :: 0 <= k < |c.gates| ==> PlainGate(c.gates[k]))
    && (forall k :: 0 <= k < |c.stimulus| ==> |c.stimulus[k].values| == |c.inputs|)
    && StrictlyIncreasing(Times(c.stimulus))
  }

  /** `NAME: a b c`, or `NAME:` with no names. */
  function HeaderText(name: string, names: seq<string>): string {
    if names == [] then name + ":" else name + ": " + Join(names, " ")
  }

  /** `out=KIND(a,b)`. */
  function GateText(g: Gate): string {
    g.output + "=" + (g.kind + "(" + (Join(g.operands, ",") + ")"))
  }

  function Numerals(xs: seq<int>): seq<string> {
    seq(|xs|, k requires 0 <= k < |xs| => IntToString(xs[k]))
  }

  /** `time v1 v2 ...`. */
  function StepText(s: Step): string {
    Join(Numerals([s.time] + s.values), " ")
  }

  function GateTexts(gates: seq<Gate>): seq<string> {
    seq(|gates|, k requires 0 <= k < |gates| => GateText(gates[k]))
  }

  function StepTexts(steps: seq<Step>): seq<string> {
    seq(|steps|, k requires 0 <= k < |steps| => StepText(steps[k]))
  }

  /** The sections in the order INPUTS, OUTPUTS, GATES, STIMULUS. */
  function FormatLines(c: Circuit): seq<string> {
    [HeaderText("INPUTS", c.inputs), HeaderText("OUTPUTS", c.outputs), HeaderText("GATES", [])]
    + GateTexts(c.gates) + [HeaderText("STIMULUS", [])] + StepTexts(c.stimulus)
  }

  function Format(c: Circuit): string {
    Join(FormatLines(c), "\n")
  }

  /** A line whose first character differs from the prefix's does not
      start with it. */
  lemma {:induction false} FirstDiffers(line: string, prefix: string)
    requires line != [] && prefix != [] && line[0] != prefix[0]
    ensures !StartsWith(line, prefix)
  {
    if |prefix| <= |line| {
      assert line[..|prefix|][0] == line[0];
    }
  }

  /** A line without a colon starts no section header. */
  lemma {:induction false} ColonFree(line: string, name: string)
    requires ':' !in line
    ensures !StartsWith(line, name + ":")
  {
    if |name| + 1 <= |line| {
      assert line[|name|] in line;
      assert line[..|name| + 1][|name|] == line[|name|];
      assert (name + ":")[|name|] == ':';
    }
  }

  /** A header line is clean, holds no line break and opens with the first
      character of its name. */
  lemma {:induction false} HeaderTextClean(name: string, names: seq<string>)
    requires name != [] && NoSpace(name) && name[0] != '#'
    requires Words(names)
    ensures var line := HeaderText(name, names);
      IsClean(line) && NoLineBreak(line) && line[0] == name[0]
  {
    var line := HeaderText(name, names);
    SpaceFreeUnbroken(name);
    UnbrokenConcat(name, ":");
    if names == [] {
      assert line[|line| - 1] == ':';
    } else {
      var joined := Join(names, " ");
      JoinLast(names, " ");
      forall k | 0 <= k < |names|
        ensures NoLineBreak(names[k])
      {
        SpaceFreeUnbroken(names[k]);
      }
      JoinUnbroken(names, " ");
      UnbrokenConcat(" ", joined);
      UnbrokenConcat(name + ":", " " + joined);
      assert line == (name + ": ") + joined;
      assert line[|line| - 1] == joined[|joined| - 1];
    }
    assert line[0] == name[0];
    FirstDiffers(line, "#");
  }

  /** A header line starts with its name and colon, and the names after
      the colon read back. */
  lemma {:induction false} HeaderTextNames(name: string, names: seq<string>)
    requires ':' !in name && Words(names)
    ensures var line := HeaderText(name, names);
      && StartsWith(line, name + ":") && ':' in line
      && SplitWs(AfterFirst(line, ':')) == names
  {
    var line := HeaderText(name, names);
    var rest := if names == [] then "" else " " + Join(names, " ");
    assert line == name + ":" + rest;
    assert line[..|name| + 1] == name + ":";
    assert forall k :: 0 <= k < |name| ==> line[k] == name[k];
    IndexOfIs(line, ':', |name|);
    assert AfterFirst(line, ':') == rest;
    if names != [] {
      SplitWsSkip(" ", Join(names, " "));
      SplitWsJoin(names);
    }
  }

  /** A gate line is clean and holds neither a line break nor a colon. */
  lemma {:induction false} GateTextClean(g: Gate)
    requires PlainGate(g)
    ensures var line := GateText(g);
      IsClean(line) && NoLineBreak(line) && ':' !in line
  {
    var ops := Join(g.operands, ",");
    var line := GateText(g);
    JoinWithout(g.operands, ",", ':');
    forall k | 0 <= k < |g.operands|
      ensures NoLineBreak(g.operands[k])
    {
      SpaceFreeUnbroken(g.operands[k]);
    }
    JoinUnbroken(g.operands, ",");
    SpaceFreeUnbroken(g.output);
    SpaceFreeUnbroken(g.kind);
    UnbrokenConcat(ops, ")");
    UnbrokenConcat(g.kind, "(");
    UnbrokenConcat(g.kind + "(", ops + ")");
    UnbrokenConcat(g.output, "=");
    UnbrokenConcat(g.output + "=", g.kind + "(" + (ops + ")"));
    assert line[0] == g.output[0] && line[|line| - 1] == ')';
    FirstDiffers(line, "#");
  }

  /** Splitting a gate line at `=`, its right side at `(` and the rest at
      `)` cuts out the output, the kind and the joined operands. */
  lemma {:induction false} GateTextSplits(g: Gate)
    requires PlainGate(g)
    ensures var ops := Join(g.operands, ","); var rhs := g.kind + "(" + (ops + ")");
      && SplitOn(GateText(g), '=') == [g.output, rhs]
      && SplitOn(rhs, '(') == [g.kind, ops + ")"]
      && SplitOn(ops + ")", ')')[0] == ops
  {
    var ops := Join(g.operands, ",");
    var inner := ops + ")";
    var rhs := g.kind + "(" + inner;
    JoinWithout(g.operands, ",", '=');
    JoinWithout(g.operands, ",", '(');
    JoinWithout(g.operands, ",", ')');
    SplitOnce(g.output, '=', rhs);
    SplitOnce(g.kind, '(', inner);
    SplitOnce(ops, ')', "");
    assert ops + ")" == ops + [')'] + "";
  }

  /** The stripped comma-separated pieces of joined plain operands are the
      operands. */
  lemma {:induction false} OperandsRead(operands: seq<string>)
    requires operands != [] && forall k :: 0 <= k < |operands| ==> Plain(operands[k])
    ensures StripAll(SplitOn(Join(operands, ","), ',')) == operands
  {
    SplitOnJoin(operands, ',');
    forall k | 0 <= k < |operands|
      ensures Strip(operands[k]) == operands[k]
    {
      StripTrimmed(operands[k]);
    }
  }

  /** A gate line parses back to its gate. */
  lemma {:induction false} GateTextParses(g: Gate)
    requires PlainGate(g)
    ensures IsClean(GateText(g)) && ParseGateLine(GateText(g)) == Ok(g)
  {
    GateTextClean(g);
    GateTextSplits(g);
    OperandsRead(g.operands);
    StripTrimmed(g.output);
    StripTrimmed(g.kind);
  }

  /** The numerals of a stimulus line are non-empty, hold no whitespace
      and read back as their values. */
  lemma {:induction false} NumeralsRead(xs: seq<int>)
    ensures var toks := Numerals(xs);
      && Words(toks) && (forall k :: 0 <= k < |toks| ==> NoLineBreak(toks[k]))
      && forall k :: 0 <= k < |toks| ==> ParseInt(toks[k]) == Some(xs[k])
  {
    var toks := Numerals(xs);
    forall k | 0 <= k < |toks|
      ensures toks[k] != [] && NoSpace(toks[k]) && NoLineBreak(toks[k])
      ensures ParseInt(toks[k]) == Some(xs[k])
    {
      IntRoundTrip(xs[k]);
    }
  }

  /** A stimulus line is clean and holds no line break. */
  lemma {:induction false} StepTextClean(s: Step)
    ensures var line := StepText(s);
      IsClean(line) && NoLineBreak(line)
  {
    var toks := Numerals([s.time] + s.values);
    var line := StepText(s);
    NumeralsRead([s.time] + s.values);
    JoinFirst(toks, " ");
    JoinLast(toks, " ");
    JoinUnbroken(toks, " ");
    FirstDiffers(line, "#");
  }

  /** A stimulus line with one value per input parses back to its step. */
  lemma {:induction false} StepTextParses(s: Step, width: nat)
    requires |s.values| == width
    ensures IsClean(StepText(s)) && ParseStimulusLine(StepText(s), width) == Ok(s)
  {
    var xs := [s.time] + s.values;
    var toks := Numerals(xs);
    var line := StepText(s);
    StepTextClean(s);
    NumeralsRead(xs);
    SplitWsJoin(toks);
    StimulusLineAccepted(line, width);
    var r := ParseStimulusLine(line, width);
    assert ParseInt(toks[0]) == Some(s.time);
    forall k | 0 <= k < width
      ensures r.value.values[k] == s.values[k]
    {
      assert ParseInt(toks[k + 1]) == Some(s.values[k]);
    }
    assert r.value == s;
  }

  /** Lines the cleaning step keeps unchanged and `splitlines` does not cut. */
  predicate AllClean(lines: seq<string>) {
    forall k :: 0 <= k < |lines| ==> IsClean(lines[k]) && NoLineBreak(lines[k])
  }

  lemma {:induction false} AllCleanConcat(a: seq<string>, b: seq<string>)
    requires AllClean(a) && AllClean(b)
    ensures AllClean(a + b)
  {
    assert forall k :: |a| <= k < |a + b| ==> (a + b)[k] == b[k - |a|];
  }

  /** The regions of a list made of a head, a middle, one separating
      element and a tail. */
  lemma {:induction false} Regions<T>(head: seq<T>, middle: seq<T>, x: T, tail: seq<T>)
    ensures var all := head + middle + [x] + tail;
      && all[|head|..|head| + |middle|] == middle
      && all[|head| + |middle|] == x
      && all[|head| + |middle| + 1..] == tail
  {
  }

  /** Plain gates are written as clean lines without a colon that parse
      back to them. */
  lemma {:induction false} GatesRead(gates: seq<Gate>)
    requires forall k :: 0 <= k < |gates| ==> PlainGate(gates[k])
    ensures var lines := GateTexts(gates);
      && AllClean(lines) && (forall k :: 0 <= k < |lines| ==> ':' !in lines[k])
      && MapAll<CleanLine, Gate, ParseError>(lines, ParseGateLine) == Ok(gates)
  {
    var lines := GateTexts(gates);
    forall k | 0 <= k < |lines|
      ensures IsClean(lines[k]) && NoLineBreak(lines[k]) && ':' !in lines[k]
      ensures ParseGateLine(lines[k]) == Ok(gates[k])
    {
      GateTextClean(gates[k]);
      GateTextParses(gates[k]);
    }
    MapAllOk<CleanLine, Gate, ParseError>(lines, ParseGateLine, gates);
  }

  /** Steps with `width` values each are written as clean lines that parse
      back to them. */
  lemma {:induction false} StepsRead(steps: seq<Step>, width: nat)
    requires forall k :: 0 <= k < |steps| ==> |steps[k].values| == width
    ensures var lines := StepTexts(steps);
      && AllClean(lines)
      && MapAll<CleanLine, Step, ParseError>(lines, StimulusParser(width)) == Ok(steps)
  {
    var lines := StepTexts(steps);
    forall k | 0 <= k < |lines|
      ensures IsClean(lines[k]) && NoLineBreak(lines[k])
      ensures StimulusParser(width)(lines[k]) == Ok(steps[k])
    {
      StepTextClean(steps[k]);
      StepTextParses(steps[k], width);
    }
    MapAllOk<CleanLine, Step, ParseError>(lines, StimulusParser(width), steps);
  }

  /** The header lines of a circuit with whitespace-free names are clean. */
  lemma {:induction false} HeadersClean(c: Circuit)
    requires Words(c.inputs) && Words(c.outputs)
    ensures AllClean([HeaderText("INPUTS", c.inputs), HeaderText("OUTPUTS", c.outputs), HeaderText("GATES", [])])
    ensures AllClean([HeaderText("STIMULUS", [])])
  {
    HeaderTextClean("INPUTS", c.inputs);
    HeaderTextClean("OUTPUTS", c.outputs);
    HeaderTextClean("GATES", []);
    HeaderTextClean("STIMULUS", []);
  }

  /** Every formatted line is clean and holds no line break. */
  lemma {:induction false} FormatLinesClean(c: Circuit)
    requires Formattable(c)
    ensures AllClean(FormatLines(c))
  {
    var heads := [HeaderText("INPUTS", c.inputs), HeaderText("OUTPUTS", c.outputs), HeaderText("GATES", [])];
    var gates := GateTexts(c.gates);
    HeadersClean(c);
    GatesRead(c.gates);
    StepsRead(c.stimulus, |c.inputs|);
    AllCleanConcat(heads, gates);
    AllCleanConcat(heads + gates, [HeaderText("STIMULUS", [])]);
    AllCleanConcat(heads + gates + [HeaderText("STIMULUS", [])], StepTexts(c.stimulus));
  }

  /** Splitting the formatted text into lines and cleaning them gives back
      the formatted lines. */
  lemma {:induction false} FormatCleans(c: Circuit)
    requires Formattable(c)
    ensures Cleaned(SplitLines(Format(c))) == FormatLines(c)
  {
    var lines := FormatLines(c);
    FormatLinesClean(c);
    assert lines[|lines| - 1] != [];
    SplitLinesJoin(lines, "\n");
    CleanedClean(lines);
  }

  /** Lines laid out as `INPUTS:`, `OUTPUTS:`, `GATES:`, `n` lines without a
      colon, then `STIMULUS:` have their sections where they stand. */
  lemma {:induction false} SectionsAt(lines: seq<CleanLine>, n: nat)
    requires 3 + n < |lines|
    requires StartsWith(lines[0], "INPUTS" + ":") && StartsWith(lines[1], "OUTPUTS" + ":")
    requires StartsWith(lines[2], "GATES" + ":") && StartsWith(lines[3 + n], "STIMULUS" + ":")
    requires forall k :: 3 <= k < 3 + n ==> ':' !in lines[k]
    ensures Sections(lines) == Ok(Layout(1, 2, 0, 3 + n))
  {
    LeadingSectionsAt(lines);
    assert lines[0][0] == 'I' && lines[1][0] == 'O' && lines[2][0] == 'G';
    StimulusAt(lines, n);
  }

  /** The first three headers are found where they stand. */
  lemma {:induction false} LeadingSectionsAt(lines: seq<CleanLine>)
    requires 3 <= |lines|
    requires StartsWith(lines[0], "INPUTS" + ":") && StartsWith(lines[1], "OUTPUTS" + ":")
    requires StartsWith(lines[2], "GATES" + ":")
    ensures Section(lines, "INPUTS") == Ok(0) && Section(lines, "OUTPUTS") == Ok(1)
    ensures Section(lines, "GATES") == Ok(2)
  {
    assert lines[0][0] == 'I' && lines[1][0] == 'O';
    FirstDiffers(lines[0], "OUTPUTS" + ":");
    FindPrefixIs(lines, "OUTPUTS" + ":", 1);
    FirstDiffers(lines[0], "GATES" + ":");
    FirstDiffers(lines[1], "GATES" + ":");
    FindPrefixIs(lines, "GATES" + ":", 2);
    FindPrefixIs(lines, "INPUTS" + ":", 0);
  }

  /** `STIMULUS:` is found after the three headers and `n` lines without a
      colon. */
  lemma {:induction false} StimulusAt(lines: seq<CleanLine>, n: nat)
    requires 3 + n < |lines|
    requires forall k :: 0 <= k < 3 ==> lines[k] != [] && lines[k][0] != 'S'
    requires StartsWith(lines[3 + n], "STIMULUS" + ":")
    requires forall k :: 3 <= k < 3 + n ==> ':' !in lines[k]
    ensures Section(lines, "STIMULUS") == Ok(3 + n)
  {
    forall k | 0 <= k < 3 + n
      ensures !StartsWith(lines[k], "STIMULUS" + ":")
    {
      if k < 3 {
        FirstDiffers(lines[k], "STIMULUS" + ":");
      } else {
        ColonFree(lines[k], "STIMULUS");
      }
    }
    FindPrefixIs(lines, "STIMULUS" + ":", 3 + n);
  }

  /** Where each part of the formatted lines stands. */
  lemma {:induction false} FormatLayout(c: Circuit)
    ensures var lines, n := FormatLines(c), |c.gates|;
      && |lines| == 4 + n + |c.stimulus|
      && lines[0] == HeaderText("INPUTS", c.inputs) && lines[1] == HeaderText("OUTPUTS", c.outputs)
      && lines[2] == HeaderText("GATES", []) && lines[3 + n] == HeaderText("STIMULUS", [])
      && lines[3..3 + n] == GateTexts(c.gates) && lines[4 + n..] == StepTexts(c.stimulus)
  {
    var heads := [HeaderText("INPUTS", c.inputs), HeaderText("OUTPUTS", c.outputs), HeaderText("GATES", [])];
    Regions(heads, GateTexts(c.gates), HeaderText("STIMULUS", []), StepTexts(c.stimulus));
  }

  /** Lines laid out as the four sections of a circuit, whose header names,
      gate lines and stimulus lines read as that circuit's, parse to it. */
  lemma {:induction false} LinesRead(c: Circuit, lines: seq<CleanLine>)
    requires 4 + |c.gates| <= |lines|
    requires StartsWith(lines[0], "INPUTS" + ":") && StartsWith(lines[1], "OUTPUTS" + ":")
    requires StartsWith(lines[2], "GATES" + ":") && StartsWith(lines[3 + |c.gates|], "STIMULUS" + ":")
    requires ':' in lines[0] && ':' in lines[1]
    requires SectionNames(lines[0]) == c.inputs && SectionNames(lines[1]) == c.outputs
    requires forall k :: 3 <= k < 3 + |c.gates| ==> ':' !in lines[k]
    requires MapAll(lines[3..3 + |c.gates|], ParseGateLine) == Ok(c.gates)
    requires MapAll(lines[4 + |c.gates|..], StimulusParser(|c.inputs|)) == Ok(c.stimulus)
    requires StrictlyIncreasing(Times(c.stimulus))
    ensures ParseLines(lines) == Ok(c)
  {
    var n := |c.gates|;
    var at := Layout(1, 2, 0, 3 + n);
    SectionsAt(lines, n);
    assert GateLines(lines, at) == lines[3..3 + n];
    AssembleSteps(lines, at);
  }

  /** A character absent from every line of a region of lines. */
  lemma {:induction false} RegionWithout(lines: seq<string>, region: seq<string>, lo: nat, c: char)
    requires lo + |region| <= |lines| && lines[lo..lo + |region|] == region
    requires forall k :: 0 <= k < |region| ==> c !in region[k]
    ensures forall k :: lo <= k < lo + |region| ==> c !in lines[k]
  {
    assert forall k :: lo <= k < lo + |region| ==> lines[k] == region[k - lo];
  }

  /** A header line, seen as a cleaned line, is found by its section name
      and gives back its names. */
  lemma {:induction false} HeaderRead(line: CleanLine, name: string, names: seq<string>)
    requires ':' !in name && Words(names) && line == HeaderText(name, names)
    ensures StartsWith(line, name + ":") && ':' in line && SectionNames(line) == names
  {
    HeaderTextNames(name, names);
  }

  /** The gate lines after the three leading headers read back as the gates. */
  lemma {:induction false} GateRegionRead(lines: seq<CleanLine>, gates: seq<Gate>)
    requires 3 + |gates| <= |lines| && lines[3..3 + |gates|] == GateTexts(gates)
    requires forall k :: 0 <= k < |gates| ==> PlainGate(gates[k])
    ensures forall k :: 3 <= k < 3 + |gates| ==> ':' !in lines[k]
    ensures MapAll(lines[3..3 + |gates|], ParseGateLine) == Ok(gates)
  {
    GatesRead(gates);
    RegionWithout(lines, GateTexts(gates), 3, ':');
  }

  /** The stimulus lines from `from` on read back as the steps. */
  lemma {:induction false} StepRegionRead(lines: seq<CleanLine>, from: nat, steps: seq<Step>, width: nat)
    requires from <= |lines| && lines[from..] == StepTexts(steps)
    requires forall k :: 0 <= k < |steps| ==> |steps[k].values| == width
    ensures MapAll(lines[from..], StimulusParser(width)) == Ok(steps)
  {
    StepsRead(steps, width);
  }

  /** The four header lines of a formatted circuit are found by their
      section names and give back the input and output names. */
  lemma {:induction false} HeadersRead(c: Circuit, lines: seq<CleanLine>)
    requires Words(c.inputs) && Words(c.outputs) && 4 + |c.gates| <= |lines|
    requires lines[0] == HeaderText("INPUTS", c.inputs) && lines[1] == HeaderText("OUTPUTS", c.outputs)
    requires lines[2] == HeaderText("GATES", []) && lines[3 + |c.gates|] == HeaderText("STIMULUS", [])
    ensures StartsWith(lines[0], "INPUTS" + ":") && StartsWith(lines[1], "OUTPUTS" + ":")
    ensures StartsWith(lines[2], "GATES" + ":") && StartsWith(lines[3 + |c.gates|], "STIMULUS" + ":")
    ensures ':' in lines[0] && ':' in lines[1]
    ensures SectionNames(lines[0]) == c.inputs && SectionNames(lines[1]) == c.outputs
  {
    HeaderRead(lines[0], "INPUTS", c.inputs);
    HeaderRead(lines[1], "OUTPUTS", c.outputs);
    HeaderRead(lines[2], "GATES", []);
    HeaderRead(lines[3 + |c.gates|], "STIMULUS", []);
  }

  /** Lines holding the header, gate and stimulus texts of a circuit
      where the formatter puts them parse back to that circuit. */
  lemma {:induction false} FormatParses(c: Circuit, lines: seq<CleanLine>)
    requires Formattable(c)
    requires |lines| == 4 + |c.gates| + |c.stimulus|
    requires lines[0] == HeaderText("INPUTS", c.inputs) && lines[1] == HeaderText("OUTPUTS", c.outputs)
    requires lines[2] == HeaderText("GATES", []) && lines[3 + |c.gates|] == HeaderText("STIMULUS", [])
    requires lines[3..3 + |c.gates|] == GateTexts(c.gates) && lines[4 + |c.gates|..] == StepTexts(c.stimulus)
    ensures ParseLines(lines) == Ok(c)
  {
    HeadersRead(c, lines);
    GateRegionRead(lines, c.gates);
    StepRegionRead(lines, 4 + |c.gates|, c.stimulus, |c.inputs|);
    LinesRead(c, lines);
  }

  /** `parse_netlsit` reads a formatted circuit back unchanged. */
  lemma {:induction false} ParseFormat(c: Circuit)
    requires Formattable(c)
    ensures Parse(Format(c)) == Ok(c)
  {
    FormatCleans(c);
    FormatLayout(c);
    FormatParses(c, Cleaned(SplitLines(Format(c))));
  }
}
