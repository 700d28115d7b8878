/** The netlist parser (`parse_netlsit` in digitalsim.py): cleaning the text
    into lines, locating the four sections, and parsing the signal lists, the
    gate lines and the stimulus lines. */
module Netlist {
  import opened Results
  import opened Text

  /** A gate definition `out = KIND(a, b)`; the kind is kept as written and
      checked only when the gate is evaluated. */
  datatype Gate = Gate(output: string, kind: string, operands: seq<string>)

  /** A stimulus line: its timestamp and one value per input, in input order. */
  datatype Step = Step(time: int, values: seq<int>)

  datatype Circuit = Circuit(
    inputs: seq<string>,
    outputs: seq<string>,
    gates: seq<Gate>,
    stimulus: seq<Step>)

  /** The ways the parser fails; each carries the offending name, line or token. */
  datatype ParseError =
    | MissingSection(name: string)
    | MalformedGateLine(line: string)
    | NotAnInteger(token: string)
    | StimulusMismatch(line: string)
    | NonMonotonicTime

  // ---- cleaning ----

  /** The lines the cleaning loop keeps are stripped, non-empty and not comments. */
  predicate IsClean(s: string) {
    s != [] && !IsSpace(s[0]) && !IsSpace(s[|s| - 1]) && !StartsWith(s, "#")
  }

  type CleanLine = s: string | IsClean(s) witness "x"

  /** One line of the cleaning loop: the stripped line, unless it is blank
      or starts with `#`. */
  function Kept(line: string): seq<CleanLine> {
    var t := Strip(line);
    if t == [] || StartsWith(t, "#") then [] else [t]
  }

  /** Strip every line; drop the blank ones and those starting with `#`. */
  function Cleaned(raw: seq<string>): (r: seq<CleanLine>)
    decreases |raw|
  {
    if raw == [] then [] else Cleaned(raw[..|raw| - 1]) + Kept(raw[|raw| - 1])
  }

  /** Cleaning works line by line: it distributes over concatenation. With
      `CleanedOne` this says the cleaned list keeps exactly the stripped lines
      that are neither blank nor comments, in their original order. */
  lemma {:induction false} CleanedAppend(a: seq<string>, b: seq<string>)
    ensures Cleaned(a + b) == Cleaned(a) + Cleaned(b)
    decreases |b|
  {
    if b == [] {
      assert a + b == a;
    } else {
      var b' := b[..|b| - 1];
      assert (a + b)[..|a + b| - 1] == a + b';
      assert (a + b)[|a + b| - 1] == b[|b| - 1];
      CleanedAppend(a, b');
    }
  }

  /** A single line is kept, stripped, exactly when it is neither blank nor a comment. */
  lemma {:induction false} CleanedOne(l: string)
    ensures Cleaned([l]) == if Strip(l) == [] || StartsWith(Strip(l), "#") then [] else [Strip(l)]
  {
    assert [l][..0] == [];
  }

  /** Lines that are already clean survive cleaning unchanged, so cleaning
      twice is cleaning once. */
  lemma {:induction false} CleanedClean(lines: seq<string>)
    requires forall k :: 0 <= k < |lines| ==> IsClean(lines[k])
    ensures Cleaned(lines) == lines
    decreases |lines|
  {
    if lines != [] {
      var init, t := lines[..|lines| - 1], lines[|lines| - 1];
      assert lines == init + [t];
      CleanedClean(init);
      StripTrimmed(t);
    }
  }

  /** Every raw line the cleaning step keeps, as its stripped form `t`, is
      among the cleaned lines. */
  lemma {:induction false} CleanedKeeps(raw: seq<string>, j: nat, t: CleanLine)
    requires j < |raw| && Kept(raw[j]) == [t]
    ensures t in Cleaned(raw)
    decreases |raw|
  {
    var init := raw[..|raw| - 1];
    if j < |init| {
      assert init[j] == raw[j];
      CleanedKeeps(init, j, t);
    }
  }

  /** Every cleaned line is the stripped form of some raw line that is
      neither blank nor a comment. */
  lemma {:induction false} CleanedComesFrom(raw: seq<string>, x: string)
    requires x in Cleaned(raw)
    ensures exists j :: 0 <= j < |raw| && x == Strip(raw[j]) && x != [] && !StartsWith(x, "#")
    decreases |raw|
  {
    var init := raw[..|raw| - 1];
    if x in Cleaned(init) {
      CleanedComesFrom(init, x);
      var j :| 0 <= j < |init| && x == Strip(init[j]) && x != [] && !StartsWith(x, "#");
      assert init[j] == raw[j];
    } else {
      assert x == Strip(raw[|raw| - 1]);
    }
  }

  // ---- sections ----

  /** Index of the first line that starts with `prefix`, if any. */
  function FindPrefix(lines: seq<CleanLine>, prefix: string): (r: Option<nat>)
    ensures r.Some? ==> r.value < |lines| && StartsWith(lines[r.value], prefix)
    ensures r.Some? ==> forall k :: 0 <= k < r.value ==> !StartsWith(lines[k], prefix)
    ensures r.None? ==> forall k :: 0 <= k < |lines| ==> !StartsWith(lines[k], prefix)
    decreases |lines|
  {
    if lines == [] then None
    else
      var init := lines[..|lines| - 1];
      assert forall k :: 0 <= k < |init| ==> init[k] == lines[k];
      match FindPrefix(init, prefix)
      case Some(i) => Some(i)
      case None => if StartsWith(lines[|lines| - 1], prefix) then Some(|lines| - 1) else None
  }

  /** The first line with the prefix is the one found. */
  lemma {:induction false} FindPrefixIs(lines: seq<CleanLine>, prefix: string, i: nat)
    requires i < |lines| && StartsWith(lines[i], prefix)
    requires forall k :: 0 <= k < i ==> !StartsWith(lines[k], prefix)
    ensures FindPrefix(lines, prefix) == Some(i)
  {
  }

  /** `locate_section(name)`: the first line starting with `name + ":"`. */
  function Section(lines: seq<CleanLine>, name: string): (r: Result<nat, ParseError>)
    ensures r.Ok? ==> r.value < |lines| && StartsWith(lines[r.value], name + ":")
    ensures r.Err? ==> r.error == MissingSection(name)
    ensures r.Err? <==> forall k :: 0 <= k < |lines| ==> !StartsWith(lines[k], name + ":")
  {
    match FindPrefix(lines, name + ":")
    case Some(i) => Ok(i)
    case None => Err(MissingSection(name))
  }

  /** The searching loop of `locate_section`. */
  method LocateSection(lines: seq<CleanLine>, name: string) returns (r: Result<nat, ParseError>)
    ensures r == Section(lines, name)
  {
    for idx := 0 to |lines|
      invariant forall k :: 0 <= k < idx ==> !StartsWith(lines[k], name + ":")
    {
      if StartsWith(lines[idx], name + ":") {
        return Ok(idx);
      }
    }
    return Err(MissingSection(name));
  }

  /** The names after the first colon of a section line, split on whitespace. */
  function SectionNames(line: CleanLine): (names: seq<string>)
    requires ':' in line
    ensures Words(names)
  {
    SplitWs(AfterFirst(line, ':'))
  }

  /** Python's slice `lines[lo:hi]` for in-range bounds: empty when `hi < lo`. */
  function Slice<T>(s: seq<T>, lo: nat, hi: nat): (r: seq<T>)
    requires lo <= |s| && hi <= |s|
    ensures |r| == if lo <= hi then hi - lo else 0
    ensures forall k :: 0 <= k < |r| ==> r[k] == s[lo + k]
  {
    if lo <= hi then s[lo..hi] else []
  }

  /** A section line `name: ...` whose names are laid out with any
      whitespace reads back exactly those names. */
  lemma {:induction false} SectionNamesSpaced(line: CleanLine, name: string, words: seq<string>, gaps: seq<string>)
    requires Words(words) && Gaps(words, gaps)
    requires ':' !in name && line == name + ":" + Spaced(words, gaps)
    ensures ':' in line && SectionNames(line) == words
  {
    assert forall k :: 0 <= k < |name| ==> line[k] == name[k];
    assert line[|name|] == ':';
    IndexOfIs(line, ':', |name|);
    assert AfterFirst(line, ':') == Spaced(words, gaps);
    SplitWsSpaced(words, gaps);
  }

  // ---- gate lines ----

  /** Python's `[p.strip() for p in ps]`. */
  function StripAll(ps: seq<string>): seq<string>
  {
    seq(|ps|, k requires 0 <= k < |ps| => Strip(ps[k]))
  }

  /** One gate line: `lhs, rhs = line.split("=")`, the kind before the first
      `(`, the operands from the text after it up to the next `)`. */
  function ParseGateLine(line: CleanLine): (r: Result<Gate, ParseError>)
    ensures r.Err? ==> r.error == MalformedGateLine(line)
    ensures r.Ok? ==> Count(line, '=') == 1 && |r.value.operands| >= 1
  {
    var sides := SplitOn(line, '=');
    if |sides| != 2 then Err(MalformedGateLine(line))
    else
      var parts := SplitOn(sides[1], '(');
      if |parts| < 2 then Err(MalformedGateLine(line))
      else
        var inner := SplitOn(parts[1], ')')[0];
        Ok(Gate(Strip(sides[0]), Strip(parts[0]), StripAll(SplitOn(inner, ','))))
  }

  /** A split into exactly two pieces leaves the text after the separator as
      the second piece. */
  lemma {:induction false} SplitOnTwo(s: string, c: char)
    requires |SplitOn(s, c)| == 2
    ensures c in s && SplitOn(s, c)[1] == s[IndexOf(s, c) + 1..]
  {
    var i := IndexOf(s, c);
    assert i < |s|;
    assert c !in s[i + 1..] by {
      assert |SplitOn(s[i + 1..], c)| == 1;
    }
  }

  /** The second piece of a split is the first piece of the split of the
      text after the first separator. */
  lemma {:induction false} SplitOnSecond(s: string, c: char)
    requires c in s
    ensures |SplitOn(s, c)| >= 2
    ensures SplitOn(s, c)[1] == SplitOn(s[IndexOf(s, c) + 1..], c)[0]
  {
  }

  /** Index of the first parenthesis of either kind in `s`, or `|s|`. */
  function ParenIndex(s: string): (i: nat)
    ensures i <= |s|
    ensures i < |s| ==> s[i] == '(' || s[i] == ')'
    ensures forall k :: 0 <= k < i ==> s[k] != '(' && s[k] != ')'
  {
    if IndexOf(s, '(') <= IndexOf(s, ')') then IndexOf(s, '(') else IndexOf(s, ')')
  }

  /** A gate line is accepted exactly when it holds one `=` and a `(` after
      it; otherwise it fails with that line. */
  lemma {:induction false} GateLineAccepted(line: CleanLine)
    ensures ParseGateLine(line).Ok? <==>
      Count(line, '=') == 1 && '(' in line[IndexOf(line, '=') + 1..]
    ensures ParseGateLine(line).Err? ==> ParseGateLine(line).error == MalformedGateLine(line)
  {
    if |SplitOn(line, '=')| == 2 {
      SplitOnTwo(line, '=');
    }
  }

  /** Cutting the text before the first `(` at its first `)` cuts it at the
      first parenthesis of either kind. */
  lemma {:induction false} CutAtParen(after: string, piece: string)
    requires piece == SplitOn(after, '(')[0]
    ensures SplitOn(piece, ')')[0] == after[..ParenIndex(after)]
  {
    assert piece == after[..IndexOf(after, '(')];
    var m := ParenIndex(after);
    assert m <= |piece|;
    assert forall k :: 0 <= k < m ==> piece[k] == after[k];
    IndexOfIs(piece, ')', m);
    assert piece[..m] == after[..m];
  }

  /** The text after the first `=` of a gate line. */
  function RightSide(line: string): string
    requires '=' in line
  {
    line[IndexOf(line, '=') + 1..]
  }

  /** The text after the first `(` of a right-hand side. */
  function AfterParen(rhs: string): string
    requires '(' in rhs
  {
    rhs[IndexOf(rhs, '(') + 1..]
  }

  /** The operand list as written: from the first `(` up to the next
      parenthesis of either kind, or to the end of the line. */
  function OperandsText(rhs: string): string
    requires '(' in rhs
  {
    AfterParen(rhs)[..ParenIndex(AfterParen(rhs))]
  }

  /** The second piece of a right-hand side split on `(`, cut at its first
      `)`, is the operand list as written. */
  lemma {:induction false} OperandText(rhs: string)
    requires '(' in rhs
    ensures |SplitOn(rhs, '(')| >= 2
    ensures SplitOn(SplitOn(rhs, '(')[1], ')')[0] == OperandsText(rhs)
  {
    SplitOnSecond(rhs, '(');
    CutAtParen(AfterParen(rhs), SplitOn(rhs, '(')[1]);
  }

  /** What an accepted gate line yields: the output is the stripped text
      before `=`, the kind the stripped text between `=` and the first `(`,
      and the operands the stripped comma-separated pieces of the operand
      list. */
  lemma {:induction false} GateLineParts(line: CleanLine)
    requires ParseGateLine(line).Ok?
    ensures '=' in line && '(' in RightSide(line)
    ensures ParseGateLine(line).value.output == Strip(line[..IndexOf(line, '=')])
    ensures ParseGateLine(line).value.kind ==
      Strip(RightSide(line)[..IndexOf(RightSide(line), '(')])
    ensures ParseGateLine(line).value.operands ==
      StripAll(SplitOn(OperandsText(RightSide(line)), ','))
  {
    var sides := SplitOn(line, '=');
    SplitOnTwo(line, '=');
    var rhs := RightSide(line);
    assert sides[0] == line[..IndexOf(line, '=')] && sides[1] == rhs;
    var parts := SplitOn(rhs, '(');
    OperandText(rhs);
    var inner := SplitOn(parts[1], ')')[0];
    assert ParseGateLine(line) == Ok(Gate(Strip(sides[0]), Strip(parts[0]), StripAll(SplitOn(inner, ','))));
  }

  /** The output, kind and operands of a parsed gate are stripped, and none
      holds the delimiters that cut it out of the line: no `=` anywhere, no
      `(` in the kind, and no `(`, `)` or `,` in an operand. */
  lemma {:induction false} GateFieldsClean(line: CleanLine)
    requires ParseGateLine(line).Ok?
    ensures var g := ParseGateLine(line).value;
      && Strip(g.output) == g.output && '=' !in g.output
      && Strip(g.kind) == g.kind && '=' !in g.kind && '(' !in g.kind
    ensures var g := ParseGateLine(line).value;
      forall k :: 0 <= k < |g.operands| ==>
        && Strip(g.operands[k]) == g.operands[k]
        && '=' !in g.operands[k] && '(' !in g.operands[k]
        && ')' !in g.operands[k] && ',' !in g.operands[k]
  {
    var g := ParseGateLine(line).value;
    var sides := SplitOn(line, '=');
    var parts := SplitOn(sides[1], '(');
    var inner := SplitOn(parts[1], ')')[0];
    var pieces := SplitOn(inner, ',');
    assert g == Gate(Strip(sides[0]), Strip(parts[0]), StripAll(pieces));
    StripStripped(sides[0]);
    StripWithout(sides[0], '=');
    StripStripped(parts[0]);
    SplitOnWithout(sides[1], '(', '=');
    StripWithout(parts[0], '=');
    StripWithout(parts[0], '(');
    SplitOnWithout(parts[1], ')', '=');
    SplitOnWithout(parts[1], ')', '(');
    SplitOnWithout(inner, ',', '=');
    SplitOnWithout(inner, ',', '(');
    SplitOnWithout(inner, ',', ')');
    forall k | 0 <= k < |pieces|
      ensures && Strip(g.operands[k]) == g.operands[k]
              && '=' !in g.operands[k] && '(' !in g.operands[k]
              && ')' !in g.operands[k] && ',' !in g.operands[k]
    {
      StripStripped(pieces[k]);
      StripWithout(pieces[k], '=');
      StripWithout(pieces[k], '(');
      StripWithout(pieces[k], ')');
      StripWithout(pieces[k], ',');
    }
  }

  // ---- stimulus lines ----

  /** `int(tok)`, failing with the token. */
  function ParseToken(tok: string): (r: Result<int, ParseError>)
    ensures r.Ok? <==> IsIntToken(tok)
    ensures r.Ok? ==> ParseInt(tok) == Some(r.value)
    ensures r.Err? ==> r.error == NotAnInteger(tok)
  {
    match ParseInt(tok)
    case Some(v) => Ok(v)
    case None => Err(NotAnInteger(tok))
  }

  /** One stimulus line: the timestamp, the values, and the check that there
      is one value per input. */
  function ParseStimulusLine(line: CleanLine, width: nat): (r: Result<Step, ParseError>)
    ensures r.Ok? ==> |r.value.values| == width
    ensures r.Ok? ==>
      var tokens := SplitWs(line);
      |tokens| == width + 1 && ParseInt(tokens[0]) == Some(r.value.time) &&
      forall k :: 0 <= k < width ==> ParseInt(tokens[k + 1]) == Some(r.value.values[k])
    ensures r == Err(StimulusMismatch(line)) <==>
      var tokens := SplitWs(line);
      (forall k :: 0 <= k < |tokens| ==> IsIntToken(tokens[k])) && |tokens| != width + 1
    ensures r.Err? && r.error.NotAnInteger? ==> r.error.token in SplitWs(line)
  {
    var tokens := SplitWs(line);
    assert tokens != [] by { assert !IsSpace(line[0]); }
    var time :- ParseToken(tokens[0]);
    assert forall k :: 1 <= k < |tokens| ==> tokens[1..][k - 1] == tokens[k];
    var values :- MapAll(tokens[1..], ParseToken);
    if |values| != width then Err(StimulusMismatch(line)) else Ok(Step(time, values))
  }

  function StimulusParser(width: nat): CleanLine -> Result<Step, ParseError> {
    (line: CleanLine) => ParseStimulusLine(line, width)
  }

  /** A stimulus line parses exactly when every token is an integer and
      there is one value per input. */
  lemma {:induction false} StimulusLineAccepted(line: CleanLine, width: nat)
    ensures var tokens := SplitWs(line);
      ParseStimulusLine(line, width).Ok? <==>
        (forall k :: 0 <= k < |tokens| ==> IsIntToken(tokens[k])) && |tokens| == width + 1
  {
  }

  /** The token a failing stimulus line reports is its first token that is
      not an integer, the one `int()` raises on first. */
  lemma {:induction false} StimulusLineFirstBad(line: CleanLine, width: nat, i: nat)
    requires i < |SplitWs(line)| && !IsIntToken(SplitWs(line)[i])
    requires forall k :: 0 <= k < i ==> IsIntToken(SplitWs(line)[k])
    ensures ParseStimulusLine(line, width) == Err(NotAnInteger(SplitWs(line)[i]))
  {
    var tokens := SplitWs(line);
    if i > 0 {
      var rest := tokens[1..];
      assert forall k :: 0 <= k < i - 1 ==> rest[k] == tokens[k + 1];
      assert ParseToken(tokens[0]).Ok? && rest[i - 1] == tokens[i];
      MapAllFirstErr(rest, ParseToken, i - 1);
    }
  }

  // ---- timestamps ----

  function Times(steps: seq<Step>): seq<int> {
    seq(|steps|, k requires 0 <= k < |steps| => steps[k].time)
  }

  predicate StrictlyIncreasing(ts: seq<int>) {
    forall i, j :: 0 <= i < j < |ts| ==> ts[i] < ts[j]
  }

  lemma {:induction false} ConsIncreasing(h: int, t: seq<int>)
    requires StrictlyIncreasing(t) && forall k :: 0 <= k < |t| ==> h < t[k]
    ensures StrictlyIncreasing([h] + t)
  {
    var r := [h] + t;
    forall i, j | 0 <= i < j < |r| ensures r[i] < r[j] {
      assert r[j] == t[j - 1];
      if i > 0 { assert r[i] == t[i - 1]; }
    }
  }

  /** Inserts `x` into a strictly increasing list unless it is already there. */
  function Insert(x: int, s: seq<int>): (r: seq<int>)
    requires StrictlyIncreasing(s)
    ensures StrictlyIncreasing(r)
    ensures forall y :: y in r <==> y == x || y in s
    decreases |s|
  {
    if s == [] then [x]
    else
      assert forall k :: 0 < k < |s| ==> s[0] < s[k];
      if x < s[0] then
        ConsIncreasing(x, s);
        [x] + s
      else if x == s[0] then
        s
      else
        var tail := s[1..];
        var rest := Insert(x, tail);
        assert s == [s[0]] + tail;
        assert forall k :: 0 <= k < |rest| ==> rest[k] in rest;
        ConsIncreasing(s[0], rest);
        [s[0]] + rest
  }

  /** Python's `sorted(set(ts))`. */
  function SortedDistinct(ts: seq<int>): (r: seq<int>)
    ensures StrictlyIncreasing(r)
    ensures forall y :: y in r <==> y in ts
    decreases |ts|
  {
    if ts == [] then []
    else
      var init := ts[..|ts| - 1];
      assert ts == init + [ts[|ts| - 1]];
      Insert(ts[|ts| - 1], SortedDistinct(init))
  }

  /** Two strictly increasing lists with the same elements are equal. */
  lemma {:induction false} SortedUnique(a: seq<int>, b: seq<int>)
    requires StrictlyIncreasing(a) && StrictlyIncreasing(b)
    requires forall y :: y in a <==> y in b
    ensures a == b
    decreases |a|
  {
    assert a != [] ==> a[0] in a;
    assert b != [] ==> b[0] in b;
    if a != [] {
      var i :| 0 <= i < |a| && a[i] == b[0];
      var j :| 0 <= j < |b| && b[j] == a[0];
      assert a[0] <= a[i] && b[0] <= b[j];
      assert a == [a[0]] + a[1..] && b == [b[0]] + b[1..];
      assert forall y :: y in a[1..] <==> y in a && y != a[0];
      assert forall y :: y in b[1..] <==> y in b && y != b[0];
      SortedUnique(a[1..], b[1..]);
    }
  }

  /** The source's test `times != sorted(set(times))` rejects exactly the
      timestamp lists that are not strictly increasing. */
  lemma {:induction false} TimesCheck(ts: seq<int>)
    ensures ts == SortedDistinct(ts) <==> StrictlyIncreasing(ts)
  {
    if StrictlyIncreasing(ts) {
      SortedUnique(ts, SortedDistinct(ts));
    }
  }

  // ---- the whole parse ----

  /** Where the four section lines are among the cleaned lines. */
  datatype Layout = Layout(outputs: nat, gates: nat, inputs: nat, stimulus: nat)

  predicate ValidLayout(lines: seq<CleanLine>, at: Layout) {
    && at.outputs < |lines| && at.gates < |lines| && at.inputs < |lines| && at.stimulus < |lines|
    && ':' in lines[at.inputs] && ':' in lines[at.outputs]
  }

  /** A section line holds the colon of its header. */
  lemma {:induction false} HeaderHasColon(line: string, name: string)
    requires StartsWith(line, name + ":")
    ensures ':' in line
  {
    assert line[|name|] == (name + ":")[|name|];
  }

  /** The four `locate_section` calls, in the source's order. */
  function Sections(lines: seq<CleanLine>): (r: Result<Layout, ParseError>)
    ensures r.Ok? ==> ValidLayout(lines, r.value)
  {
    var iOut :- Section(lines, "OUTPUTS");
    var iGates :- Section(lines, "GATES");
    var iIn :- Section(lines, "INPUTS");
    var iStim :- Section(lines, "STIMULUS");
    HeaderHasColon(lines[iIn], "INPUTS");
    HeaderHasColon(lines[iOut], "OUTPUTS");
    Ok(Layout(iOut, iGates, iIn, iStim))
  }

  /** The gate region: the lines after `GATES:` and before `STIMULUS:`. */
  function GateLines(lines: seq<CleanLine>, at: Layout): seq<CleanLine>
    requires ValidLayout(lines, at)
  {
    Slice(lines, at.gates + 1, at.stimulus)
  }

  /** The stimulus region: every line after `STIMULUS:`. */
  function StimulusLines(lines: seq<CleanLine>, at: Layout): seq<CleanLine>
    requires ValidLayout(lines, at)
  {
    lines[at.stimulus + 1..]
  }

  /** The final check on the timestamps. */
  function CheckTimes(c: Circuit): (r: Result<Circuit, ParseError>)
    ensures r.Ok? <==> StrictlyIncreasing(Times(c.stimulus))
    ensures r.Ok? ==> r.value == c
    ensures r.Err? ==> r.error == NonMonotonicTime
  {
    var times := Times(c.stimulus);
    TimesCheck(times);
    if times != SortedDistinct(times) then Err(NonMonotonicTime) else Ok(c)
  }

  /** Everything after the sections are found. */
  function Assemble(lines: seq<CleanLine>, at: Layout): Result<Circuit, ParseError>
    requires ValidLayout(lines, at)
  {
    var inputs := SectionNames(lines[at.inputs]);
    var outputs := SectionNames(lines[at.outputs]);
    var gates :- MapAll(GateLines(lines, at), ParseGateLine);
    var stimulus :- MapAll(StimulusLines(lines, at), StimulusParser(|inputs|));
    CheckTimes(Circuit(inputs, outputs, gates, stimulus))
  }

  /** `parse_netlsit`: the circuit the text describes, or the first error. */
  function Parse(text: string): Result<Circuit, ParseError> {
    ParseLines(Cleaned(SplitLines(text)))
  }

  /** The parse of the cleaned lines. */
  function ParseLines(lines: seq<CleanLine>): Result<Circuit, ParseError> {
    var at :- Sections(lines);
    Assemble(lines, at)
  }

  /** Cleaning one more line of a prefix. */
  lemma {:induction false} CleanedSnoc(raw: seq<string>, i: nat)
    requires i < |raw|
    ensures Cleaned(raw[..i + 1]) == Cleaned(raw[..i]) + Kept(raw[i])
  {
    assert raw[..i + 1][..i] == raw[..i];
  }

  /** The cleaning loop at the head of `parse_netlsit`, over the lines of
      `text.splitlines()`. */
  method CleanLines(raw: seq<string>) returns (lines: seq<CleanLine>)
    ensures lines == Cleaned(raw)
  {
    lines := [];
    for i := 0 to |raw|
      invariant lines == Cleaned(raw[..i])
    {
      CleanedSnoc(raw, i);
      var line := Strip(raw[i]);
      if line == [] || StartsWith(line, "#") {
        continue;
      }
      lines := lines + [line];
    }
    assert raw[..|raw|] == raw;
  }

  /** Assembly stops at the first failing gate line, then at the first
      failing stimulus line, and otherwise checks the times. */
  lemma {:induction false} AssembleSteps(lines: seq<CleanLine>, at: Layout)
    requires ValidLayout(lines, at)
    ensures
      var inputs := SectionNames(lines[at.inputs]);
      var gates := MapAll(GateLines(lines, at), ParseGateLine);
      var stimulus := MapAll(StimulusLines(lines, at), StimulusParser(|inputs|));
      Assemble(lines, at) ==
        if gates.Err? then Err(gates.error)
        else if stimulus.Err? then Err(stimulus.error)
        else CheckTimes(Circuit(inputs, SectionNames(lines[at.outputs]), gates.value, stimulus.value))
  {
  }

  /** `parse_netlsit`: the cleaning loop, then the rest of the body. */
  method ParseNetlist(text: string) returns (r: Result<Circuit, ParseError>)
    ensures r == Parse(text)
  {
    var lines := CleanLines(SplitLines(text));
    r := ParseCleanLines(lines);
  }

  /** The body of `parse_netlsit` after the cleaning loop: the four section
      searches, the signal lists, the gate and stimulus loops and the time
      check. */
  method ParseCleanLines(lines: seq<CleanLine>) returns (r: Result<Circuit, ParseError>)
    ensures r == ParseLines(lines)
  {
    var iOut :- LocateSection(lines, "OUTPUTS");
    var iGates :- LocateSection(lines, "GATES");
    var iIn :- LocateSection(lines, "INPUTS");
    var iStim :- LocateSection(lines, "STIMULUS");
    var at := Layout(iOut, iGates, iIn, iStim);
    assert Sections(lines) == Ok(at);
    assert ParseLines(lines) == Assemble(lines, at);
    AssembleSteps(lines, at);
    var inputs := SectionNames(lines[at.inputs]);
    var outputs := SectionNames(lines[at.outputs]);
    var gates :- ParseEach(GateLines(lines, at), ParseGateLine);
    var stimulus :- ParseEach(StimulusLines(lines, at), StimulusParser(|inputs|));
    var times := Times(stimulus);
    if times != SortedDistinct(times) {
      return Err(NonMonotonicTime);
    }
    return Ok(Circuit(inputs, outputs, gates, stimulus));
  }

  // ---- what a successful parse guarantees ----

  /** A successful assembly is made of its parts: the signal lists, the
      gates of the gate region, the steps of the stimulus region, and times
      that pass the check. */
  lemma {:induction false} AssembleParts(lines: seq<CleanLine>, at: Layout, c: Circuit)
    requires ValidLayout(lines, at) && Assemble(lines, at) == Ok(c)
    ensures c.inputs == SectionNames(lines[at.inputs])
    ensures c.outputs == SectionNames(lines[at.outputs])
    ensures MapAll(GateLines(lines, at), ParseGateLine) == Ok(c.gates)
    ensures MapAll(StimulusLines(lines, at), StimulusParser(|c.inputs|)) == Ok(c.stimulus)
    ensures CheckTimes(c) == Ok(c)
  {
    var inputs := SectionNames(lines[at.inputs]);
    var g := MapAll(GateLines(lines, at), ParseGateLine);
    var st := MapAll(StimulusLines(lines, at), StimulusParser(|inputs|));
    assert g.Ok? && st.Ok?;
    assert Assemble(lines, at) == CheckTimes(Circuit(inputs, SectionNames(lines[at.outputs]), g.value, st.value));
  }

  /** A parsed circuit has one value per input on every stimulus line and
      strictly increasing timestamps. */
  lemma {:induction false} ParseGuarantees(lines: seq<CleanLine>, c: Circuit)
    requires ParseLines(lines) == Ok(c)
    ensures forall k :: 0 <= k < |c.stimulus| ==> |c.stimulus[k].values| == |c.inputs|
    ensures StrictlyIncreasing(Times(c.stimulus))
  {
    var at := Sections(lines).value;
    AssembleParts(lines, at, c);
    TimesCheck(Times(c.stimulus));
  }

  /** Where each part of a parsed circuit comes from: the signal lists from
      the first `INPUTS:` and `OUTPUTS:` lines, one gate per line of the gate
      region and one step per line of the stimulus region, in order. */
  lemma {:induction false} ParseLayout(lines: seq<CleanLine>, c: Circuit)
    requires ParseLines(lines) == Ok(c)
    ensures Sections(lines).Ok?
    ensures var at := Sections(lines).value;
      && c.inputs == SectionNames(lines[at.inputs])
      && c.outputs == SectionNames(lines[at.outputs])
      && |c.gates| == |GateLines(lines, at)|
      && (forall k :: 0 <= k < |c.gates| ==> ParseGateLine(GateLines(lines, at)[k]) == Ok(c.gates[k]))
      && |c.stimulus| == |StimulusLines(lines, at)|
      && (forall k :: 0 <= k < |c.stimulus| ==>
            ParseStimulusLine(StimulusLines(lines, at)[k], |c.inputs|) == Ok(c.stimulus[k]))
  {
    var at := Sections(lines).value;
    AssembleParts(lines, at, c);
    var st := StimulusLines(lines, at);
    forall k | 0 <= k < |c.stimulus|
      ensures ParseStimulusLine(st[k], |c.inputs|) == Ok(c.stimulus[k])
    {
      assert StimulusParser(|c.inputs|)(st[k]) == Ok(c.stimulus[k]);
    }
  }

  /** The signal names of a parsed circuit are non-empty and contain no
      whitespace. */
  lemma {:induction false} ParsedNamesPlain(lines: seq<CleanLine>, c: Circuit)
    requires ParseLines(lines) == Ok(c)
    ensures forall k :: 0 <= k < |c.inputs| ==> c.inputs[k] != [] && NoSpace(c.inputs[k])
    ensures forall k :: 0 <= k < |c.outputs| ==> c.outputs[k] != [] && NoSpace(c.outputs[k])
  {
    ParseLayout(lines, c);
  }

  /** Each index `Sections` finds holds its section's header. */
  lemma {:induction false} SectionsStart(lines: seq<CleanLine>)
    requires Sections(lines).Ok?
    ensures var at := Sections(lines).value;
      && StartsWith(lines[at.outputs], "OUTPUTS:") && StartsWith(lines[at.gates], "GATES:")
      && StartsWith(lines[at.inputs], "INPUTS:") && StartsWith(lines[at.stimulus], "STIMULUS:")
  {
  }

  /** A line that does not open with a digit or a sign is not a stimulus
      line: its first token is not an integer. */
  lemma {:induction false} HeaderNotStimulus(line: CleanLine, width: nat)
    requires !IsDigit(line[0]) && line[0] != '-' && line[0] != '+'
    ensures ParseStimulusLine(line, width) == Err(NotAnInteger(SplitWs(line)[0]))
  {
    var tokens := SplitWs(line);
    var n := WordLength(line);
    assert tokens == [line[..n]] + SplitWs(line[n..]);
    assert tokens[0][0] == line[0];
    StimulusLineFirstBad(line, width, 0);
  }

  /** A section header at line `i` comes before `STIMULUS:` in a parse whose
      stimulus lines all parse: after it, its header would be read as a
      stimulus line and fail `int()`. */
  lemma {:induction false} HeaderBeforeStimulus(lines: seq<CleanLine>, at: Layout, width: nat, i: nat, name: string)
    requires ValidLayout(lines, at) && i < |lines|
    requires name != [] && 'A' <= name[0] <= 'Z' && name[0] != 'S'
    requires StartsWith(lines[i], name + ":") && StartsWith(lines[at.stimulus], "STIMULUS:")
    requires MapAll(StimulusLines(lines, at), StimulusParser(width)).Ok?
    ensures i < at.stimulus
  {
    assert lines[i][0] == (name + ":")[0] == name[0];
    assert lines[at.stimulus][0] == "STIMULUS:"[0];
    HeaderNotStimulus(lines[i], width);
    assert StimulusParser(width)(lines[i]).Err?;
    MapAllOkAvoids(lines, at.stimulus + 1, StimulusParser(width), lines[i]);
  }

  /** In a netlist that parses, `STIMULUS:` comes after the other three
      section lines. Were `STIMULUS:` first, the gate region would be an
      empty slice, but the later headers fall in the stimulus region, where
      none of them can parse as a stimulus line, so the parse fails (on that
      header, or on an earlier stimulus line that fails first). */
  lemma {:induction false} StimulusComesLast(lines: seq<CleanLine>)
    requires ParseLines(lines).Ok?
    ensures Sections(lines).Ok?
    ensures var at := Sections(lines).value;
      at.outputs < at.stimulus && at.gates < at.stimulus && at.inputs < at.stimulus
  {
    var c := ParseLines(lines).value;
    var at := Sections(lines).value;
    SectionsStart(lines);
    AssembleParts(lines, at, c);
    var width := |c.inputs|;
    HeaderBeforeStimulus(lines, at, width, at.outputs, "OUTPUTS");
    HeaderBeforeStimulus(lines, at, width, at.gates, "GATES");
    HeaderBeforeStimulus(lines, at, width, at.inputs, "INPUTS");
  }

  /** A missing section is reported by name, checking OUTPUTS, GATES, INPUTS
      and STIMULUS in that order. */
  lemma {:induction false} MissingSectionReported(lines: seq<CleanLine>)
    ensures Section(lines, "OUTPUTS").Err? ==> Sections(lines) == Err(MissingSection("OUTPUTS"))
    ensures (Section(lines, "OUTPUTS").Ok? && Section(lines, "GATES").Err?) ==>
      Sections(lines) == Err(MissingSection("GATES"))
    ensures (&& Section(lines, "OUTPUTS").Ok? && Section(lines, "GATES").Ok?
             && Section(lines, "INPUTS").Err?) ==>
      Sections(lines) == Err(MissingSection("INPUTS"))
    ensures (&& Section(lines, "OUTPUTS").Ok? && Section(lines, "GATES").Ok?
             && Section(lines, "INPUTS").Ok? && Section(lines, "STIMULUS").Err?) ==>
      Sections(lines) == Err(MissingSection("STIMULUS"))
    ensures Sections(lines).Ok? <==>
      && Section(lines, "OUTPUTS").Ok? && Section(lines, "GATES").Ok?
      && Section(lines, "INPUTS").Ok? && Section(lines, "STIMULUS").Ok?
  {
  }

  /** When a section is missing, that is the error the whole parse reports. */
  lemma {:induction false} SectionErrorReported(lines: seq<CleanLine>)
    ensures Sections(lines).Err? ==> ParseLines(lines) == Err(Sections(lines).error)
  {
  }
}
