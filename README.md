# digitalsim in Dafny

A model of `digitalsim.py`, a combinational logic simulator. It reads a
netlist text with four sections (`INPUTS:`, `OUTPUTS:`, `GATES:`,
`STIMULUS:`) and evaluates the AND, OR, NOT and XOR gates at every stimulus
step. It then writes the input and output waveforms as a WaveDrom JSON
document.

The model has seven modules, following the program's four functions:

- `Results`: `Result`/`Option`. `MapAll` is a fallible function applied
  along a list, stopping at the first error, as a Python loop that raises
  does. `ParseEach` is that loop written out.
- `Text`: the pieces of Python's `str` that the program uses, on ASCII text:
  - `strip()`, `split()`, `split(c)` and `splitlines()`;
  - `startswith`, `"sep".join`;
  - `int(...)` and `str(int)`.
- `Netlist`: `parse_netlsit` and its nested `locate_section`.
  - The cleaning loop is `CleanLines`. The four section searches, the two
    signal lists, the gate loop, the stimulus loop and the time check are
    `ParseCleanLines`. `ParseNetlist` runs one after the other.
  - Each method is proved equal to a function (`Cleaned`, `Section`,
    `ParseLines`, `Parse`), and the lemmas are stated about those functions.
  - Every `raise` of the parser is a `ParseError` value. The cleaned lines
    have the type `CleanLine`: stripped, non-empty and not a comment. So the
    re-checks in the gate loop and the stimulus loop cannot fire and have no
    counterpart.
- `Gates`: `eval_gate`. Signal values are unbounded Python integers. AND, OR
  and XOR are Python's two's-complement bitwise operators, defined bit by bit
  (`Bitwise`). NOT is `1 - x`. An unknown kind is an `UnknownGateKind` error.
  Too few operands (Python's `IndexError`) is a `MissingOperand` error.
- `Simulator`: `simulate`.
  - `dict(zip(...))` is `Seed`.
  - The inner `for` loop over the gates is `RunPass`, specified by `Pass`.
  - The `while changed_flag` loop is `SettleEnv`, specified by `Settle`.
  - The sampling loop is `Record`, specified by `Sample`.
  - The whole function is `Simulate`, specified by `Simulation`.
  - A settled environment is shown to be:
    - sound: every value not seeded is what a gate driving that node
      computes;
    - closed: no gate can still fire;
    - low on self-supporting cycles;
    - complete for feed-forward gate lists;
    - made of bits when the stimulus is made of bits.
- `Render`: a netlist writer, the inverse of `parse_netlsit`. The program
  has no writer; `Format` writes a circuit as a netlist text, and
  `ParseFormat` proves that parsing it gives back the circuit.
- `WaveDrom`: `to_wavedrom_json`. `ToWaveDrom` builds the document line by
  line and is proved equal to `Document`. Splitting the document at its line
  breaks gives back its lines whenever the names hold no line break, which is
  the case for every parsed netlist.

## Model

| member | source | states |
|---|---|---|
| Results.MapAll | ee24b071_A4/digitalsim.py:31-50 | on success one result per element, each the element's own result; on failure the error of some element with every earlier element succeeding |
| Results.MapAllErrPrefix | ee24b071_A4/digitalsim.py:41-50 | an error met on a prefix of the lines is the error of the whole loop |
| Results.ParseEach | ee24b071_A4/digitalsim.py:41-50 | the loop that appends each parsed element and raises at the first failure returns exactly `MapAll` of the list |
| Results.MapAllFirstErr | ee24b071_A4/digitalsim.py:41-50 | the error is that of the first failing element, as the loop raises there |
| Results.MapAllOkAvoids | ee24b071_A4/digitalsim.py:42-50 | when every element of a suffix succeeds, an element that fails occurs only before that suffix |
| Results.MapAllOk | ee24b071_A4/digitalsim.py:41-50 | when every element succeeds the loop returns the list of their results, in order |
| Text.Count | ee24b071_A4/digitalsim.py:34 | the number of occurrences is at most the length, and is zero exactly when the element is absent |
| Text.CountConcat | ee24b071_A4/digitalsim.py:34 | occurrences in a concatenation add up |
| Text.CountOnce | ee24b071_A4/digitalsim.py:97 | an element counted once in a list occurs at no other index |
| Text.LeadingSpaces | ee24b071_A4/digitalsim.py:11 | the leading run is all whitespace and is followed by a non-whitespace character or the end |
| Text.TrailingSpaces | ee24b071_A4/digitalsim.py:11 | the trailing run is all whitespace and is preceded by a non-whitespace character or the start |
| Text.WordLength | ee24b071_A4/digitalsim.py:27 | the initial word holds no whitespace and is followed by whitespace or the end |
| Text.Strip | ee24b071_A4/digitalsim.py:11 | `strip()` is the middle of the text between its leading whitespace and its trailing whitespace; it is empty exactly for all-whitespace text, and otherwise begins and ends with a non-whitespace character |
| Text.StripStripped | ee24b071_A4/digitalsim.py:11 | stripping a stripped text changes nothing |
| Text.StripWithout | ee24b071_A4/digitalsim.py:35-38 | stripping adds no character |
| Text.IndexOf | ee24b071_A4/digitalsim.py:34-37 | the least index holding the character, and the length exactly when it is absent |
| Text.SplitOn | ee24b071_A4/digitalsim.py:34-37 | `split(c)` gives one more piece than there are separators, no piece holds the separator, and the first piece is the text before the first separator |
| Text.JoinSplitOn | ee24b071_A4/digitalsim.py:34-37 | joining the pieces of `split(c)` with `c` gives back the text |
| Text.SplitOnJoin | ee24b071_A4/digitalsim.py:113 | splitting a join at its one-character separator gives back the pieces when none of them holds the separator |
| Text.SplitOnWithout | ee24b071_A4/digitalsim.py:34-37 | the pieces of `split(c)` hold no character the text does not |
| Text.SplitWs | ee24b071_A4/digitalsim.py:27-28 | `split()` gives non-empty pieces without whitespace, and gives nothing exactly for all-whitespace text |
| Text.SplitWsJoin | ee24b071_A4/digitalsim.py:27-28 | `split()` gives back non-empty whitespace-free words joined by single spaces |
| Text.SplitWsSkip | ee24b071_A4/digitalsim.py:27-28 | leading whitespace does not change the words `split()` finds |
| Text.SplitWsWord | ee24b071_A4/digitalsim.py:27-28 | a non-empty whitespace-free word followed by whitespace or the end is the first word, and the rest are the words of what follows |
| Text.SplitWsSpaced | ee24b071_A4/digitalsim.py:27-28 | `split()` of words laid out with any whitespace gaps (leading, trailing, runs, tabs; non-empty between words) gives back exactly those words in order |
| Text.SpacedSplitWs | ee24b071_A4/digitalsim.py:27-28 | conversely every text is its `split()` words laid out with such gaps, so `split()` drops only whitespace and keeps the words in order |
| Text.LineEnd | ee24b071_A4/digitalsim.py:10 | the least index of a line-break character, or the length |
| Text.SplitLines | ee24b071_A4/digitalsim.py:10 | `splitlines()` gives lines without line breaks, and gives nothing exactly for empty text |
| Text.SplitLinesOne | ee24b071_A4/digitalsim.py:10 | a non-empty text without a line break is one line |
| Text.SplitLinesCons | ee24b071_A4/digitalsim.py:10 | a break-free line followed by "\n" or "\r\n" is the first line, and the rest are the lines of what follows |
| Text.SplitLinesJoin | ee24b071_A4/digitalsim.py:10 | `splitlines()` undoes joining break-free lines with "\n" or with "\r\n" when the last line is not empty |
| Text.SplitLinesTerminated | ee24b071_A4/digitalsim.py:10 | a text whose every line, the last included, ends in "\n" or in "\r\n" splits into exactly those lines, empty ones included |
| Text.SplitLinesBreak | ee24b071_A4/digitalsim.py:10 | at the first line break (a `\r\n` pair counts as one) the text splits into the line before it, the break, and the lines of the rest |
| Text.BrokenSplitLines | ee24b071_A4/digitalsim.py:10 | every text is its `splitlines()` lines put back together with the line breaks it held, so `splitlines()` drops only the breaks and keeps every line in order |
| Text.ParseInt | ee24b071_A4/digitalsim.py:46-47 | `int(tok)` succeeds exactly on an optionally signed run of ASCII digits |
| Text.NatToString | ee24b071_A4/digitalsim.py:107 | `str(n)` of a natural number is a run of digits with no leading zero that reads back as `n`; it is one digit exactly below 10 |
| Text.IntToString | ee24b071_A4/digitalsim.py:107 | `str(x)` is an integer token of digits and minus signs. It starts with '-' exactly when `x` is negative, and has no leading zero after the sign. 0 and 1 print as "0" and "1" |
| Text.NatToStringCanonical | ee24b071_A4/digitalsim.py:107 | conversely every run of digits without a leading zero is `str(n)` of the number it reads as |
| Text.IntRoundTrip | ee24b071_A4/digitalsim.py:107 | `int(str(x)) == x` for every integer |
| Netlist.Cleaned | ee24b071_A4/digitalsim.py:9-14 | the cleaned lines have the `CleanLine` type: stripped, non-empty, not starting with `#` |
| Netlist.CleanedAppend | ee24b071_A4/digitalsim.py:9-14 | cleaning works line by line: it distributes over concatenation |
| Netlist.CleanedOne | ee24b071_A4/digitalsim.py:11-14 | a single line is kept, stripped, exactly when it is neither blank nor a comment once stripped |
| Netlist.CleanedKeeps | ee24b071_A4/digitalsim.py:11-14 | every raw line that the cleaning step keeps appears among the cleaned lines |
| Netlist.CleanedComesFrom | ee24b071_A4/digitalsim.py:11-14 | every cleaned line is the stripped form of some raw line, and is neither blank nor a comment |
| Netlist.CleanedClean | ee24b071_A4/digitalsim.py:9-14 | lines that are already stripped, non-empty and not comments pass the cleaning loop unchanged |
| Netlist.CleanLines | ee24b071_A4/digitalsim.py:9-14 | the cleaning loop over `splitlines()` computes `Cleaned` |
| Netlist.FindPrefix | ee24b071_A4/digitalsim.py:17-19 | the index found is the least index of a line with the prefix; none is found exactly when no line has it |
| Netlist.FindPrefixIs | ee24b071_A4/digitalsim.py:17-19 | the search stops at a line with the prefix when no earlier line has it |
| Netlist.Section | ee24b071_A4/digitalsim.py:16-20 | `locate_section(name)` gives the first line starting with `name:`, and fails with `MissingSection(name)` exactly when there is no such line |
| Netlist.LocateSection | ee24b071_A4/digitalsim.py:16-20 | the searching loop returns exactly `Section` |
| Netlist.SectionNames | ee24b071_A4/digitalsim.py:27-28 | the names after a section line's first colon are non-empty and hold no whitespace |
| Netlist.SectionNamesSpaced | ee24b071_A4/digitalsim.py:27-28 | a section line `NAME:` followed by names laid out with any whitespace reads back exactly those names, in order |
| Netlist.Slice | ee24b071_A4/digitalsim.py:31 | Python's slice `lines[lo:hi]` for in-range bounds: the `hi - lo` elements from `lo` on, in order, and nothing when `hi <= lo` |
| Netlist.ParseGateLine | ee24b071_A4/digitalsim.py:34-39 | a gate line that parses has exactly one `=` and at least one operand; every failure is `MalformedGateLine` naming the line |
| Netlist.GateLineAccepted | ee24b071_A4/digitalsim.py:34-37 | a gate line parses exactly when it holds a single `=` and a `(` after it; otherwise the error names the line |
| Netlist.GateLineParts | ee24b071_A4/digitalsim.py:34-39 | an accepted gate line gives three parts. The output is the stripped text before `=`. The kind is the stripped text between `=` and the first `(`. The operands are the stripped comma-separated pieces from that `(` up to the next parenthesis of either kind, or to the end of the line. |
| Netlist.GateFieldsClean | ee24b071_A4/digitalsim.py:34-38 | the output, kind and operands of a parsed gate are already stripped; none holds `=`, the kind holds no `(`, and no operand holds `(`, `)` or `,` |
| Netlist.ParenIndex | ee24b071_A4/digitalsim.py:37 | the least index of a parenthesis of either kind, or the length |
| Netlist.ParseToken | ee24b071_A4/digitalsim.py:46-47 | a token parses exactly when `int` accepts it; otherwise the error names the token |
| Netlist.ParseStimulusLine | ee24b071_A4/digitalsim.py:43-50 | a parsed step has one value per input, read from the line's whitespace-separated tokens after the timestamp. The mismatch error is raised exactly when every token is an integer but the count is not one per input. A token error names a token of the line |
| Netlist.StimulusLineAccepted | ee24b071_A4/digitalsim.py:43-50 | a stimulus line parses exactly when every token is an integer and there is one value per input |
| Netlist.StimulusLineFirstBad | ee24b071_A4/digitalsim.py:46-47 | a failing line reports `NotAnInteger` for its first token that is not an integer, the one `int()` raises on first |
| Netlist.Insert | ee24b071_A4/digitalsim.py:53 | inserting keeps a list strictly increasing and adds exactly the new element |
| Netlist.SortedDistinct | ee24b071_A4/digitalsim.py:53 | `sorted(set(ts))` is strictly increasing with the same elements as `ts` |
| Netlist.SortedUnique | ee24b071_A4/digitalsim.py:53 | two strictly increasing lists with the same elements are equal |
| Netlist.TimesCheck | ee24b071_A4/digitalsim.py:52-54 | the test `times != sorted(set(times))` fails exactly on lists that are not strictly increasing |
| Netlist.CheckTimes | ee24b071_A4/digitalsim.py:52-54 | the final check passes the circuit through unchanged exactly when its timestamps strictly increase, and otherwise fails with `NonMonotonicTime` |
| Netlist.Sections | ee24b071_A4/digitalsim.py:22-25 | the four section searches, when all succeed, give header lines in range, and the INPUTS and OUTPUTS lines hold a colon |
| Netlist.MissingSectionReported | ee24b071_A4/digitalsim.py:22-25 | sections are checked in the order OUTPUTS, GATES, INPUTS, STIMULUS; the first missing one is the error, and the search succeeds exactly when all four are present |
| Netlist.SectionErrorReported | ee24b071_A4/digitalsim.py:22-25 | a missing section is the error of the whole parse |
| Netlist.ParseNetlist | ee24b071_A4/digitalsim.py:8-61 | `parse_netlsit` as written returns exactly `Parse` of the text |
| Netlist.ParseCleanLines | ee24b071_A4/digitalsim.py:16-61 | the body after the cleaning loop returns exactly `ParseLines` of the cleaned lines |
| Netlist.AssembleParts | ee24b071_A4/digitalsim.py:27-61 | a successful parse has these parts: the signal lists from the section lines, the gates of the gate region, the steps of the stimulus region, and times that pass the check |
| Netlist.ParseGuarantees | ee24b071_A4/digitalsim.py:48-54 | every parsed stimulus step has exactly one value per input, and the timestamps are strictly increasing |
| Netlist.ParseLayout | ee24b071_A4/digitalsim.py:27-50 | the inputs and outputs come from the first INPUTS and OUTPUTS lines. There is one gate per line between GATES and STIMULUS and one step per line after STIMULUS, in order |
| Netlist.ParsedNamesPlain | ee24b071_A4/digitalsim.py:27-28 | parsed signal names are non-empty and hold no whitespace |
| Netlist.SectionsStart | ee24b071_A4/digitalsim.py:16-25 | each index the four searches find holds its own section header |
| Netlist.HeaderNotStimulus | ee24b071_A4/digitalsim.py:42-47 | a line that opens with neither a digit nor a sign fails as a stimulus line with `NotAnInteger` of its first word |
| Netlist.HeaderBeforeStimulus | ee24b071_A4/digitalsim.py:31-47 | a section header cannot lie at or after `STIMULUS:` in a parse whose stimulus lines all parse |
| Netlist.StimulusComesLast | ee24b071_A4/digitalsim.py:22-50 | in any netlist that parses, `STIMULUS:` comes after `OUTPUTS:`, `GATES:` and `INPUTS:`. Placed earlier, the later headers fall in the stimulus region, where a header cannot parse as a stimulus line, so the parse fails and the empty gate slice that `STIMULUS:` before `GATES:` would give is never returned |
| Gates.BitOfConstant | ee24b071_A4/digitalsim.py:65-71 | 0 has no bit set and -1 has every bit set |
| Gates.BitwiseBit | ee24b071_A4/digitalsim.py:65-71 | every bit of `a & b`, `a \| b`, `a ^ b` is the operation on the same bits of `a` and `b`, for integers of any sign and size |
| Gates.EvalGate | ee24b071_A4/digitalsim.py:63-73 | an unknown kind fails with that kind, and too few operands fails. Evaluation succeeds exactly for a known kind with at least its arity of operands (1 for NOT, 2 otherwise) |
| Gates.EvalGateOnBits | ee24b071_A4/digitalsim.py:63-71 | on bit operands AND, OR, XOR and NOT are their truth tables (product, inclusive or, sum mod 2, complement) and yield a bit |
| Gates.EvalGateBit | ee24b071_A4/digitalsim.py:63-71 | a gate that evaluates on bit operands yields a bit |
| Gates.EvalGateBitwise | ee24b071_A4/digitalsim.py:64-71 | AND, OR and XOR act bit by bit on their first two operands |
| Gates.NotArithmetic | ee24b071_A4/digitalsim.py:68-69 | NOT of any `x` (extra operands ignored) is `1 - x`, which is a bit exactly when `x` is; so NOT of 2 is -1 |
| Simulator.SeedUpTo | ee24b071_A4/digitalsim.py:85 | the first `n` pairs of the zip set exactly the names among them |
| Simulator.SeedUpToLast | ee24b071_A4/digitalsim.py:85 | a name holds the value paired with its last occurrence |
| Simulator.SeedValues | ee24b071_A4/digitalsim.py:85 | `dict(zip(inputs, values))` sets exactly the names paired with a value, and a name not repeated later holds its own value |
| Simulator.SeedCovers | ee24b071_A4/digitalsim.py:85 | with a value for every input, every input is seeded |
| Simulator.SeedWithin | ee24b071_A4/digitalsim.py:85 | only inputs are seeded |
| Simulator.Visit | ee24b071_A4/digitalsim.py:90-95 | one gate visit keeps every value and can add only the gate's own output; the flag ends raised exactly when it was raised already or that output was added; the new value is what the gate computes from its operands' values; it fails only when the gate could fire, with the gate's error; a gate that cannot fire changes nothing |
| Simulator.Pass | ee24b071_A4/digitalsim.py:89-95 | a pass keeps every value and sets only gate outputs. Its flag is raised exactly when it set a node. A pass that sets nothing leaves no gate able to fire |
| Simulator.PassErrPrefix | ee24b071_A4/digitalsim.py:90-95 | a gate error stops the pass with that error |
| Simulator.RunPass | ee24b071_A4/digitalsim.py:89-95 | the inner `for` loop returns exactly `Pass` |
| Simulator.FewerMissing | ee24b071_A4/digitalsim.py:88 | a pass that sets a node leaves fewer gate outputs without a value, so the `while` loop ends |
| Simulator.Settle | ee24b071_A4/digitalsim.py:86-95 | the settled environment keeps the seed and sets only gate outputs, and no gate can still fire |
| Simulator.SettleEnv | ee24b071_A4/digitalsim.py:86-95 | the `while changed_flag` loop returns exactly `Settle` |
| Simulator.JustifiedGrows | ee24b071_A4/digitalsim.py:94 | a value computed by a gate stays justified as further nodes are set |
| Simulator.VisitSound | ee24b071_A4/digitalsim.py:91-95 | firing a gate keeps the environment sound |
| Simulator.PassSound | ee24b071_A4/digitalsim.py:89-95 | a pass keeps the environment sound |
| Simulator.SettleSound | ee24b071_A4/digitalsim.py:88-95 | settling keeps the environment sound |
| Simulator.StepSound | ee24b071_A4/digitalsim.py:85-95 | in a settled step every seeded input keeps its value, and every other node holds what some gate driving it computes from the settled values |
| Simulator.PassAvoids | ee24b071_A4/digitalsim.py:93 | a pass sets no node of a self-supporting cycle that has no value |
| Simulator.SettleAvoids | ee24b071_A4/digitalsim.py:88-95 | settling sets no node of a self-supporting cycle that has no value |
| Simulator.LoopsReadLow | ee24b071_A4/digitalsim.py:93-98 | the nodes of a combinational cycle that no input breaks read 0 |
| Simulator.DefinedFrom | ee24b071_A4/digitalsim.py:91-95 | in a closed environment of a feed-forward gate list, each gate's output has a value |
| Simulator.SettledDefinesAll | ee24b071_A4/digitalsim.py:88-95 | when the known nodes have values and no gate can fire, every gate of a list that is feed-forward in its listed order has its output set |
| Simulator.FeedForwardDefined | ee24b071_A4/digitalsim.py:84-95 | with a value for every input, when some ordering of the same gates is feed-forward from the inputs, every gate output is set after settling however the netlist lists the gates, out-of-order ones included |
| Simulator.SoundAgreeAt | ee24b071_A4/digitalsim.py:91-95 | two sound environments that give every gate output a value agree on each output of a feed-forward gate list with one gate per node |
| Simulator.SettledAgree | ee24b071_A4/digitalsim.py:88-95 | two sound, closed environments over the same seed and a feed-forward gate list with one gate per node are equal |
| Simulator.SettleOrderFree | ee24b071_A4/digitalsim.py:86-95 | when some ordering of the gates is feed-forward and no two gates drive the same node, settling the same gates listed in any other order gives the same environment |
| Simulator.StepOrderFree | ee24b071_A4/digitalsim.py:84-95 | under the same conditions, for well-formed gates, a step's settled environment does not depend on the order the netlist lists the gates in |
| Simulator.WavesSameNodes | ee24b071_A4/digitalsim.py:81-98 | circuits with the same signals and the same nodes build the same waveform map from the same settled environments |
| Simulator.SimulationOrderFree | ee24b071_A4/digitalsim.py:75-100 | under the same conditions `simulate` returns the same waveforms whatever the order of the gate lines |
| Simulator.PassOk | ee24b071_A4/digitalsim.py:94 | a pass over gates of known kinds with enough operands cannot fail |
| Simulator.SettleOk | ee24b071_A4/digitalsim.py:88-95 | settling gates of known kinds with enough operands cannot fail |
| Simulator.SignalsAreNodes | ee24b071_A4/digitalsim.py:81-82 | every input and output has a waveform entry |
| Simulator.Repeat | ee24b071_A4/digitalsim.py:97-98 | `n` copies of a value |
| Simulator.Sample | ee24b071_A4/digitalsim.py:97-98 | sampling leaves the set of waveform keys unchanged |
| Simulator.SampleAppends | ee24b071_A4/digitalsim.py:97-98 | sampling appends a node's value, or 0 if it has none, once per time the node is listed, and nothing to an unlisted node |
| Simulator.Record | ee24b071_A4/digitalsim.py:97-98 | the sampling loop returns exactly `Sample` |
| Simulator.Column | ee24b071_A4/digitalsim.py:97-98 | a node listed `n` times gets `n` samples per step |
| Simulator.Waves | ee24b071_A4/digitalsim.py:81-82 | the waveform map has one key per node: inputs, gate outputs and outputs |
| Simulator.WavesColumn | ee24b071_A4/digitalsim.py:84-98 | each node's waveform holds its value in each step, once per listing, step after step |
| Simulator.Simulate | ee24b071_A4/digitalsim.py:75-100 | `simulate` as written returns exactly `Simulation` |
| Simulator.ColumnSample | ee24b071_A4/digitalsim.py:97-98 | a node listed once has one sample per step, and sample `k` is its value in step `k` |
| Simulator.SimulationShape | ee24b071_A4/digitalsim.py:81-98 | the map has a key per node. A node listed `n` times among inputs and outputs has `n` samples per step, so a purely internal node has an empty waveform |
| Simulator.SimulationFails | ee24b071_A4/digitalsim.py:84-95 | the simulation fails exactly when some step's settling fails, and then with the error of the first such step |
| Simulator.SimulationSamples | ee24b071_A4/digitalsim.py:84-98 | sample `k` of a signal listed once is its value, or 0, in the environment that step `k` settles to. That environment depends on step `k`'s input vector alone, not on other steps |
| Simulator.InputSamples | ee24b071_A4/digitalsim.py:85-98 | an input listed once samples its stimulus value in every step |
| Simulator.SimulationOk | ee24b071_A4/digitalsim.py:84-95 | when every gate has a known kind and enough operands the simulation cannot fail |
| Simulator.SeedBits | ee24b071_A4/digitalsim.py:85 | bit stimulus values seed only bits |
| Simulator.PassBits | ee24b071_A4/digitalsim.py:89-95 | a pass over an environment of bits keeps it made of bits |
| Simulator.SettleBits | ee24b071_A4/digitalsim.py:88-95 | settling an environment of bits keeps it made of bits |
| Simulator.StepBits | ee24b071_A4/digitalsim.py:85-98 | with bit stimulus values every node of a settled step reads 0 or 1 |
| Simulator.ColumnBits | ee24b071_A4/digitalsim.py:97-98 | a column of bit values holds only bits |
| Simulator.SimulationBits | ee24b071_A4/digitalsim.py:84-100 | with bit stimulus values every sample of every waveform is 0 or 1 |
| WaveDrom.WaveChars | ee24b071_A4/digitalsim.py:107 | a wave string holds only digits and minus signs |
| WaveDrom.BitWave | ee24b071_A4/digitalsim.py:107 | for bit samples the wave string has one character per sample, '0' or '1' as the sample |
| WaveDrom.WaveText | ee24b071_A4/digitalsim.py:107 | the join over `str` of the samples returns exactly `WaveString` |
| WaveDrom.EntriesSnoc | ee24b071_A4/digitalsim.py:106-109 | each iteration of the signal loop appends the line of the next signal, with a trailing comma exactly when it is not the last |
| WaveDrom.ReadsBack | ee24b071_A4/digitalsim.py:109 | quote-free text followed by a quote reads back from where it starts, up to that quote |
| WaveDrom.Entry | ee24b071_A4/digitalsim.py:109 | a signal line opens with `{ "name": "`; for a quote-free name, reading from there up to the next quote gives back the name, and reading after the `", "wave": "` that follows it up to the next quote gives back a quote-free wave string |
| WaveDrom.ToWaveDrom | ee24b071_A4/digitalsim.py:102-113 | `to_wavedrom_json` as written returns exactly `Document` |
| WaveDrom.DocumentLayout | ee24b071_A4/digitalsim.py:103-112 | the document has two opening lines, then the line of input or output `k` at line `k + 2`, then the two closing lines |
| WaveDrom.EntryEnds | ee24b071_A4/digitalsim.py:108-109 | a signal line ends with a comma exactly when it is not the last one, and otherwise with `}` |
| WaveDrom.EntryUnbroken | ee24b071_A4/digitalsim.py:109 | a signal line holds no line break when its name holds none |
| WaveDrom.LinesUnbroken | ee24b071_A4/digitalsim.py:103-112 | no line of the document holds a line break when no signal name holds one |
| WaveDrom.DocumentSplits | ee24b071_A4/digitalsim.py:113 | when no signal name holds a line break, splitting the document at "\n" gives back exactly its lines |
| WaveDrom.SimulationEncodable | ee24b071_A4/digitalsim.py:104-107 | the map `simulate` returns has a waveform for every input and output, so the encoder never misses a key |
| WaveDrom.NamesUnbroken | ee24b071_A4/digitalsim.py:27-28 | a name without whitespace holds no line break |
| WaveDrom.ParsedSignalsUnbroken | ee24b071_A4/digitalsim.py:27-28 | parsed signal names hold no line break |
| WaveDrom.ParsedDocumentSplits | ee24b071_A4/digitalsim.py:102-113 | for a parsed netlist whose simulation succeeds, the document splits into exactly its lines |
| WaveDrom.WaveOfBits | ee24b071_A4/digitalsim.py:107 | with bit stimulus values each signal's wave string is one '0' or '1' per sample, matching the sample |
| Render.OperandsRead | ee24b071_A4/digitalsim.py:37-38 | operands joined with `,` split back into those operands, unchanged by `strip()` |
| Render.GateTextParses | ee24b071_A4/digitalsim.py:34-39 | a written gate line `out=KIND(a,b)` is clean and parses back to the gate |
| Render.StepTextParses | ee24b071_A4/digitalsim.py:43-50 | a written stimulus line `t v1 v2 ...` is clean and parses back to the step, given one value per input |
| Render.HeaderTextNames | ee24b071_A4/digitalsim.py:27-28 | a written header `NAME: a b` starts with `NAME:` and the names after its first colon split back into the names |
| Render.SectionsAt | ee24b071_A4/digitalsim.py:16-25 | with the headers INPUTS, OUTPUTS, GATES first and STIMULUS after lines without a colon, the four searches find each header where it stands |
| Render.FormatCleans | ee24b071_A4/digitalsim.py:9-14 | splitting the written text into lines and cleaning them gives back exactly the written lines |
| Render.FormatParses | ee24b071_A4/digitalsim.py:22-61 | lines holding a circuit's headers, gate lines and stimulus lines in the written order parse to that circuit |
| Render.ParseFormat | ee24b071_A4/digitalsim.py:8-61 | `parse_netlsit` reads back every written circuit whose names the syntax can carry: parse(format(c)) == c |

## Left out

- The command line, file reading and writing, and the printed path (`main`, lines 115-135) are not modelled. `simulate` and `to_wavedrom_json` are modelled on the values `main` passes them.
- Text.ParseInt: accepts an optional sign followed by ASCII digits. Python's `int` also accepts underscores between digits and non-ASCII decimal digits; those are not modelled.
- Text.IsSpace and Text.IsLineBreak cover ASCII only. Unicode whitespace and Unicode line separators, which `strip`, `split` and `splitlines` also honour, are not modelled.
- Errors are values that carry the offending section name, line or token. The exact exception classes (`ValueError`, `IndexError`) and message texts are not modelled.
- Simulator.Sound: a value is "justified" by a gate that computes it from the final environment. This does not rule out a set of values that justify one another in a cycle. The order in which the gates fired is not recorded.
- Gate-order independence is proved (`SettleOrderFree`, `SimulationOrderFree`) for well-formed gates when no two gates drive the same node and some ordering of the gates is feed-forward from the inputs. It is not proved beyond that: with two gates driving one node the gate that fires first wins, so the source itself depends on the order; among failing gates, which error is reported can depend on the order; and gate lists with cycles are not covered.
- WaveDrom.ToWaveDrom: requires a waveform for every input and output, so the `KeyError` path is not modelled. `SimulationEncodable` shows that the map `simulate` produces always meets this.
- Names are put into the JSON text without escaping, as the source does. A name holding `"` or `\` yields invalid JSON, and the model reproduces that.
- Netlist.CleanedKeeps: stated for a raw line whose cleaning step `Kept` keeps it as `t`. `CleanedOne` describes when that step keeps a line.
- Render.Format: the program writes no netlists, so the text layout (`NAME: a b`, `out=KIND(a,b)`, `t v1 v2`, one space between tokens) is this model's own choice. The round trip is proved for circuits whose names hold no whitespace and, for gate fields, none of `:`, `=`, `(`, `)`, `,`, `#`, with at least one operand per gate, one value per input per step and strictly increasing times (`Formattable`). Other circuits are not covered.
