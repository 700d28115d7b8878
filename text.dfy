/** The pieces of Python's `str` behaviour the simulator relies on: `strip()`,
    `split()`, `split(sep)`, `splitlines()`, `startswith`, `join`, `int(...)`
    and `str(int)`, restricted to ASCII. */
module Text {
  import opened Results

  /** `str.isspace` on ASCII: tab, line feed, vertical tab, form feed,
      carriage return, the separators 0x1C-0x1F, and space. */
  predicate IsSpace(c: char) {
    c == ' ' || ('\t' <= c <= '\r') || (28 <= c as int <= 31)
  }

  /** The ASCII characters `str.splitlines` breaks at: 0x0A-0x0D and 0x1C-0x1E. */
  predicate IsLineBreak(c: char) {
    ('\n' <= c <= '\r') || (28 <= c as int <= 30)
  }

  predicate AllSpace(s: string) {
    forall k :: 0 <= k < |s| ==> IsSpace(s[k])
  }

  predicate NoSpace(s: string) {
    forall k :: 0 <= k < |s| ==> !IsSpace(s[k])
  }

  predicate NoLineBreak(s: string) {
    forall k :: 0 <= k < |s| ==> !IsLineBreak(s[k])
  }

  predicate StartsWith(s: string, prefix: string) {
    |prefix| <= |s| && s[..|prefix|] == prefix
  }

  /** Number of occurrences of `x` in `s`. */
  function Count<T(==)>(s: seq<T>, x: T): (n: nat)
    ensures n <= |s|
    ensures n == 0 <==> x !in s
    decreases |s|
  {
    if s == [] then 0
    else
      assert forall k :: 0 <= k < |s| - 1 ==> s[..|s| - 1][k] == s[k];
      Count(s[..|s| - 1], x) + (if s[|s| - 1] == x then 1 else 0)
  }

  lemma {:induction false} CountConcat<T>(a: seq<T>, b: seq<T>, x: T)
    ensures Count(a + b, x) == Count(a, x) + Count(b, x)
    decreases |b|
  {
    if b == [] {
      assert a + b == a;
    } else {
      var b' := b[..|b| - 1];
      assert (a + b)[..|a + b| - 1] == a + b';
      CountConcat(a, b', x);
    }
  }

  /** Length of the run of whitespace at the start of `s`. */
  function LeadingSpaces(s: string): (n: nat)
    ensures n <= |s|
    ensures forall k :: 0 <= k < n ==> IsSpace(s[k])
    ensures n < |s| ==> !IsSpace(s[n])
    decreases |s|
  {
    if s == [] || !IsSpace(s[0]) then 0
    else
      var n := 1 + LeadingSpaces(s[1..]);
      assert forall k :: 1 <= k < n ==> s[k] == s[1..][k - 1];
      n
  }

  /** Length of the run of whitespace at the end of `s`. */
  function TrailingSpaces(s: string): (n: nat)
    ensures n <= |s|
    ensures forall k :: |s| - n <= k < |s| ==> IsSpace(s[k])
    ensures n < |s| ==> !IsSpace(s[|s| - 1 - n])
    decreases |s|
  {
    if s == [] || !IsSpace(s[|s| - 1]) then 0
    else
      var init := s[..|s| - 1];
      var n := 1 + TrailingSpaces(init);
      assert forall k :: |s| - n <= k < |s| - 1 ==> s[k] == init[k];
      n
  }

  /** Length of the run of non-whitespace at the start of `s`. */
  function WordLength(s: string): (n: nat)
    ensures n <= |s|
    ensures forall k :: 0 <= k < n ==> !IsSpace(s[k])
    ensures n < |s| ==> IsSpace(s[n])
    decreases |s|
  {
    if s == [] || IsSpace(s[0]) then 0
    else
      var n := 1 + WordLength(s[1..]);
      assert forall k :: 1 <= k < n ==> s[k] == s[1..][k - 1];
      n
  }

  /** Python's `s.strip()`: `s` without its leading and trailing whitespace. */
  function Strip(s: string): (r: string)
    ensures LeadingSpaces(s) + |r| <= |s|
    ensures r == s[LeadingSpaces(s)..LeadingSpaces(s) + |r|]
    ensures forall k :: LeadingSpaces(s) + |r| <= k < |s| ==> IsSpace(s[k])
    ensures r == [] <==> AllSpace(s)
    ensures r != [] ==> !IsSpace(r[0]) && !IsSpace(r[|r| - 1])
  {
    var i := LeadingSpaces(s);
    var t := s[i..];
    var n := TrailingSpaces(t);
    var r := t[..|t| - n];
    assert i < |s| ==> t[0] == s[i];
    r
  }

  /** Stripping twice is stripping once. */
  lemma {:induction false} StripStripped(s: string)
    ensures Strip(Strip(s)) == Strip(s)
  {
    var r := Strip(s);
    if r != [] {
      var r' := Strip(r);
      assert LeadingSpaces(r) == 0;
      assert |r'| == |r|;
    }
  }

  /** Stripping adds no character. */
  lemma {:induction false} StripWithout(s: string, c: char)
    requires c !in s
    ensures c !in Strip(s)
  {
    var r := Strip(s);
    assert forall k :: 0 <= k < |r| ==> r[k] == s[LeadingSpaces(s) + k];
  }

  /** Least index of `c` in `s`, or `|s|` when `c` does not occur. */
  function IndexOf(s: string, c: char): (i: nat)
    ensures i <= |s|
    ensures i < |s| ==> s[i] == c
    ensures forall k :: 0 <= k < i ==> s[k] != c
    ensures i == |s| <==> c !in s
    decreases |s|
  {
    if s == [] || s[0] == c then 0 else 1 + IndexOf(s[1..], c)
  }

  /** Python's `sep.join(parts)`. */
  function Join(parts: seq<string>, sep: string): string
    decreases |parts|
  {
    if parts == [] then ""
    else if |parts| == 1 then parts[0]
    else parts[0] + sep + Join(parts[1..], sep)
  }

  /** Counting across one occurrence of `x` at index `i`. */
  lemma {:induction false} CountAround<T>(s: seq<T>, i: nat, x: T)
    requires i < |s| && s[i] == x
    ensures Count(s, x) == Count(s[..i], x) + 1 + Count(s[i + 1..], x)
  {
    assert s == s[..i] + [x] + s[i + 1..];
    CountConcat(s[..i] + [x], s[i + 1..], x);
    CountConcat(s[..i], [x], x);
    assert Count([x], x) == 1 by { assert [x][..0] == []; }
  }

  /** An element counted once occurs at no other index. */
  lemma {:induction false} CountOnce<T>(s: seq<T>, i: nat, x: T)
    requires i < |s| && s[i] == x && Count(s, x) == 1
    ensures forall j :: 0 <= j < |s| && j != i ==> s[j] != x
  {
    CountAround(s, i, x);
    forall j | 0 <= j < |s| && j != i
      ensures s[j] != x
    {
      if j < i {
        assert s[j] in s[..i];
      } else {
        assert s[j] in s[i + 1..];
      }
    }
  }

  /** Joining a piece in front of a non-empty list of pieces. */
  lemma {:induction false} JoinCons(p: string, rest: seq<string>, sep: string)
    requires rest != []
    ensures Join([p] + rest, sep) == p + sep + Join(rest, sep)
  {
    assert ([p] + rest)[1..] == rest;
  }

  /** A join opens with the first character of its first piece. */
  lemma {:induction false} JoinFirst(parts: seq<string>, sep: string)
    requires parts != [] && parts[0] != []
    ensures Join(parts, sep) != [] && Join(parts, sep)[0] == parts[0][0]
  {
  }

  /** A join ends with the last character of its last piece. */
  lemma {:induction false} JoinLast(parts: seq<string>, sep: string)
    requires parts != [] && parts[|parts| - 1] != []
    ensures var j, p := Join(parts, sep), parts[|parts| - 1]; j != [] && j[|j| - 1] == p[|p| - 1]
    decreases |parts|
  {
    if |parts| > 1 {
      JoinLast(parts[1..], sep);
    }
  }

  /** A character in no piece and not in the separator is not in the join. */
  lemma {:induction false} JoinWithout(parts: seq<string>, sep: string, c: char)
    requires c !in sep && forall k :: 0 <= k < |parts| ==> c !in parts[k]
    ensures c !in Join(parts, sep)
    decreases |parts|
  {
    if |parts| > 1 {
      assert forall k :: 0 <= k < |parts| - 1 ==> parts[1..][k] == parts[k + 1];
      JoinWithout(parts[1..], sep, c);
    }
  }

  /** Whitespace-free text holds no line break. */
  lemma {:induction false} SpaceFreeUnbroken(s: string)
    requires NoSpace(s)
    ensures NoLineBreak(s)
  {
  }

  lemma {:induction false} UnbrokenConcat(a: string, b: string)
    requires NoLineBreak(a) && NoLineBreak(b)
    ensures NoLineBreak(a + b)
  {
    assert forall k :: |a| <= k < |a + b| ==> (a + b)[k] == b[k - |a|];
  }

  /** Break-free pieces joined with a break-free separator are break-free. */
  lemma {:induction false} JoinUnbroken(parts: seq<string>, sep: string)
    requires NoLineBreak(sep) && forall k :: 0 <= k < |parts| ==> NoLineBreak(parts[k])
    ensures NoLineBreak(Join(parts, sep))
    decreases |parts|
  {
    if |parts| > 1 {
      assert forall k :: 0 <= k < |parts| - 1 ==> parts[1..][k] == parts[k + 1];
      JoinUnbroken(parts[1..], sep);
      UnbrokenConcat(parts[0], sep);
      UnbrokenConcat(parts[0] + sep, Join(parts[1..], sep));
    }
  }

  /** Text that neither begins nor ends with whitespace is already stripped. */
  lemma {:induction false} StripTrimmed(s: string)
    requires s != [] ==> !IsSpace(s[0]) && !IsSpace(s[|s| - 1])
    ensures Strip(s) == s
  {
    if s != [] {
      assert LeadingSpaces(s) == 0;
      assert |Strip(s)| == |s|;
    }
  }

  /** Python's `s.split(c)` for a one-character separator: the pieces between
      occurrences of `c`, empty pieces included. */
  function SplitOn(s: string, c: char): (r: seq<string>)
    ensures |r| == Count(s, c) + 1
    ensures forall k :: 0 <= k < |r| ==> c !in r[k]
    ensures r[0] == s[..IndexOf(s, c)]
    decreases |s|
  {
    var i := IndexOf(s, c);
    if i == |s| then [s]
    else
      var rest := SplitOn(s[i + 1..], c);
      assert c !in s[..i];
      CountAround(s, i, c);
      [s[..i]] + rest
  }

  /** Text with a single separator splits into the text before it and the
      text after it. */
  lemma {:induction false} SplitOnce(p: string, c: char, t: string)
    requires c !in p && c !in t
    ensures SplitOn(p + [c] + t, c) == [p, t]
  {
    SplitAt(p + [c] + t, p, c, t);
    assert t[..|t|] == t;
  }

  /** The pieces of a split hold no character the text does not. */
  lemma {:induction false} SplitOnWithout(s: string, c: char, d: char)
    requires d !in s
    ensures forall k :: 0 <= k < |SplitOn(s, c)| ==> d !in SplitOn(s, c)[k]
    decreases |s|
  {
    var i := IndexOf(s, c);
    if i < |s| {
      var p, t := s[..i], s[i + 1..];
      assert s == p + [c] + t;
      SplitAt(s, p, c, t);
      SplitOnWithout(t, c, d);
    }
  }

  /** `IndexOf` is the only index meeting its own postconditions. */
  lemma {:induction false} IndexOfIs(s: string, c: char, i: nat)
    requires i <= |s| && (i < |s| ==> s[i] == c) && forall k :: 0 <= k < i ==> s[k] != c
    ensures IndexOf(s, c) == i
  {
  }

  /** Splitting text that has a first separator right after `p`. */
  lemma {:induction false} SplitAt(s: string, p: string, c: char, tail: string)
    requires s == p + [c] + tail && c !in p
    ensures SplitOn(s, c) == [p] + SplitOn(tail, c)
  {
    assert forall k :: 0 <= k < |p| ==> s[k] == p[k];
    IndexOfIs(s, c, |p|);
    assert s[..|p|] == p;
    assert s[|p| + 1..] == tail;
  }

  /** Joining the pieces of a split with the separator gives back the text. */
  lemma {:induction false} JoinSplitOn(s: string, c: char)
    ensures Join(SplitOn(s, c), [c]) == s
    decreases |s|
  {
    var i := IndexOf(s, c);
    if i < |s| {
      var p, tail := s[..i], s[i + 1..];
      assert s == p + [c] + tail;
      SplitAt(s, p, c, tail);
      JoinSplitOn(tail, c);
      JoinCons(p, SplitOn(tail, c), [c]);
    }
  }

  /** Splitting undoes joining with the same separator, provided no piece
      contains it. */
  lemma {:induction false} SplitOnJoin(parts: seq<string>, c: char)
    requires |parts| >= 1
    requires forall k :: 0 <= k < |parts| ==> c !in parts[k]
    ensures SplitOn(Join(parts, [c]), c) == parts
    decreases |parts|
  {
    if |parts| > 1 {
      var p, rest := parts[0], parts[1..];
      assert parts == [p] + rest;
      JoinCons(p, rest, [c]);
      SplitAt(Join(parts, [c]), p, c, Join(rest, [c]));
      SplitOnJoin(rest, c);
    }
  }

  /** Python's `s.split(c, 1)[1]`: the text after the first `c`. */
  function AfterFirst(s: string, c: char): string
    requires c in s
  {
    s[IndexOf(s, c) + 1..]
  }

  /** Python's `s.split()`: the maximal runs of non-whitespace, in order. */
  function SplitWs(s: string): (r: seq<string>)
    ensures forall k :: 0 <= k < |r| ==> r[k] != [] && NoSpace(r[k])
    ensures r == [] <==> AllSpace(s)
    decreases |s|
  {
    if s == [] then []
    else if IsSpace(s[0]) then
      assert forall k :: 1 <= k < |s| ==> s[k] == s[1..][k - 1];
      SplitWs(s[1..])
    else
      var w := WordLength(s);
      [s[..w]] + SplitWs(s[w..])
  }

  /** `WordLength` is the only length meeting its own postconditions. */
  lemma {:induction false} WordLengthIs(s: string, n: nat)
    requires n <= |s| && (forall k :: 0 <= k < n ==> !IsSpace(s[k])) && (n < |s| ==> IsSpace(s[n]))
    ensures WordLength(s) == n
  {
  }

  /** Splitting on whitespace undoes joining non-empty words with single spaces. */
  lemma {:induction false} SplitWsJoin(words: seq<string>)
    requires forall k :: 0 <= k < |words| ==> words[k] != [] && NoSpace(words[k])
    ensures SplitWs(Join(words, " ")) == words
    decreases |words|
  {
    if words != [] {
      var w := words[0];
      var rest := if |words| == 1 then "" else " " + Join(words[1..], " ");
      var s := w + rest;
      assert Join(words, " ") == s;
      assert s[0] == w[0];
      assert forall k :: 0 <= k < |w| ==> s[k] == w[k];
      assert |rest| > 0 ==> s[|w|] == ' ';
      WordLengthIs(s, |w|);
      assert s[..|w|] == w && s[|w|..] == rest;
      if |words| == 1 {
        assert words == [w];
      } else {
        assert rest[1..] == Join(words[1..], " ");
        SplitWsJoin(words[1..]);
        assert words == [w] + words[1..];
      }
    }
  }

  /** Leading whitespace does not change the words. */
  lemma {:induction false} SplitWsSkip(p: string, s: string)
    requires AllSpace(p)
    ensures SplitWs(p + s) == SplitWs(s)
    decreases |p|
  {
    if p != [] {
      var t := p + s;
      assert IsSpace(t[0]) && t[1..] == p[1..] + s;
      assert forall k :: 0 <= k < |p| - 1 ==> p[1..][k] == p[k + 1];
      SplitWsSkip(p[1..], s);
      assert SplitWs(t) == SplitWs(t[1..]);
    } else {
      assert p + s == s;
    }
  }

  /** A word followed by whitespace or by the end of the text is the first
      word. */
  lemma {:induction false} SplitWsWord(w: string, s: string)
    requires w != [] && NoSpace(w) && (s == [] || IsSpace(s[0]))
    ensures SplitWs(w + s) == [w] + SplitWs(s)
  {
    var t := w + s;
    assert forall k :: 0 <= k < |w| ==> t[k] == w[k];
    assert |s| > 0 ==> t[|w|] == s[0];
    WordLengthIs(t, |w|);
    assert t[..|w|] == w && t[|w|..] == s;
  }

  /** Non-empty pieces without whitespace. */
  predicate Words(words: seq<string>) {
    forall k :: 0 <= k < |words| ==> words[k] != [] && NoSpace(words[k])
  }

  /** Whitespace around and between words: any run (possibly empty) before
      the first and after the last, a non-empty run between two words. */
  predicate Gaps(words: seq<string>, gaps: seq<string>) {
    && |gaps| == |words| + 1
    && (forall k :: 0 <= k < |gaps| ==> AllSpace(gaps[k]))
    && (forall k :: 0 < k < |words| ==> gaps[k] != [])
  }

  /** `gaps[0] + words[0] + gaps[1] + ... + words[n - 1] + gaps[n]`. */
  function Spaced(words: seq<string>, gaps: seq<string>): string
    requires |gaps| == |words| + 1
    decreases |words|
  {
    if words == [] then gaps[0] else gaps[0] + words[0] + Spaced(words[1..], gaps[1..])
  }

  /** Dropping the first gap and word keeps the layout well formed. */
  lemma {:induction false} GapsTail(words: seq<string>, gaps: seq<string>)
    requires Words(words) && Gaps(words, gaps) && words != []
    ensures Words(words[1..]) && Gaps(words[1..], gaps[1..])
  {
    assert forall k :: 0 <= k < |words| - 1 ==> words[1..][k] == words[k + 1];
    assert forall k :: 0 <= k < |gaps| - 1 ==> gaps[1..][k] == gaps[k + 1];
  }

  /** A layout that opens with a non-empty gap, or has no word, is empty or
      starts with whitespace. */
  lemma {:induction false} SpacedOpens(words: seq<string>, gaps: seq<string>)
    requires |gaps| == |words| + 1 && AllSpace(gaps[0]) && (words != [] ==> gaps[0] != [])
    ensures Spaced(words, gaps) == [] || IsSpace(Spaced(words, gaps)[0])
  {
    if words != [] {
      assert Spaced(words, gaps)[0] == gaps[0][0];
    }
  }

  /** `split()` finds exactly the words of a text laid out with whitespace
      gaps, whatever those gaps hold: leading or trailing whitespace, runs,
      tabs. */
  lemma {:induction false} SplitWsSpaced(words: seq<string>, gaps: seq<string>)
    requires Words(words) && Gaps(words, gaps)
    ensures SplitWs(Spaced(words, gaps)) == words
    decreases |words|
  {
    if words != [] {
      var rest := Spaced(words[1..], gaps[1..]);
      assert Spaced(words, gaps) == gaps[0] + (words[0] + rest);
      SplitWsSkip(gaps[0], words[0] + rest);
      GapsTail(words, gaps);
      SpacedOpens(words[1..], gaps[1..]);
      SplitWsWord(words[0], rest);
      SplitWsSpaced(words[1..], gaps[1..]);
      assert words == [words[0]] + words[1..];
    }
  }

  /** One more whitespace character in front of the first gap. */
  lemma {:induction false} SpacedPrefix(c: char, words: seq<string>, gaps: seq<string>)
    requires IsSpace(c) && Gaps(words, gaps)
    ensures Gaps(words, [[c] + gaps[0]] + gaps[1..])
    ensures Spaced(words, [[c] + gaps[0]] + gaps[1..]) == [c] + Spaced(words, gaps)
  {
    var gaps' := [[c] + gaps[0]] + gaps[1..];
    assert gaps'[1..] == gaps[1..];
    assert forall k :: 0 < k < |gaps'| ==> gaps'[k] == gaps[k];
  }

  /** A word in front of a layout whose text is empty or opens with
      whitespace: the gap in front of the old first word is not empty. */
  lemma {:induction false} SpacedCons(w: string, words: seq<string>, gaps: seq<string>, rest: string)
    requires w != [] && Words(words) && Gaps(words, gaps) && Spaced(words, gaps) == rest
    requires rest == [] || IsSpace(rest[0])
    ensures Gaps([w] + words, [""] + gaps)
    ensures Spaced([w] + words, [""] + gaps) == w + rest
  {
    if words != [] {
      assert rest == gaps[0] + words[0] + Spaced(words[1..], gaps[1..]);
      assert rest[|gaps[0]|] == words[0][0];
    }
    var words', gaps' := [w] + words, [""] + gaps;
    assert words'[1..] == words && gaps'[1..] == gaps;
    assert forall k :: 0 < k < |gaps'| ==> gaps'[k] == gaps[k - 1];
  }

  /** Conversely, every text is its own words laid out with whitespace gaps,
      so `split()` loses only whitespace. */
  lemma {:induction false} SpacedSplitWs(s: string)
    ensures exists gaps :: Gaps(SplitWs(s), gaps) && Spaced(SplitWs(s), gaps) == s
    decreases |s|
  {
    var words := SplitWs(s);
    if s == [] {
      assert Gaps(words, [""]) && Spaced(words, [""]) == s;
    } else if IsSpace(s[0]) {
      SpacedSplitWs(s[1..]);
      var gaps :| Gaps(SplitWs(s[1..]), gaps) && Spaced(SplitWs(s[1..]), gaps) == s[1..];
      assert words == SplitWs(s[1..]);
      SpacedPrefix(s[0], words, gaps);
      assert s == [s[0]] + s[1..];
      assert Gaps(words, [[s[0]] + gaps[0]] + gaps[1..]);
    } else {
      var n := WordLength(s);
      var w, rest := s[..n], s[n..];
      assert words == [w] + SplitWs(rest);
      SpacedSplitWs(rest);
      var more := SplitWs(rest);
      var gaps :| Gaps(more, gaps) && Spaced(more, gaps) == rest;
      SpacedCons(w, more, gaps, rest);
      assert s == w + rest;
    }
  }

  /** Least index of a line-break character in `s`, or `|s|`. */
  function LineEnd(s: string): (i: nat)
    ensures i <= |s|
    ensures i < |s| ==> IsLineBreak(s[i])
    ensures forall k :: 0 <= k < i ==> !IsLineBreak(s[k])
    decreases |s|
  {
    if s == [] || IsLineBreak(s[0]) then 0
    else
      var i := 1 + LineEnd(s[1..]);
      assert forall k :: 1 <= k < i ==> s[k] == s[1..][k - 1];
      i
  }

  /** `LineEnd` is the only index meeting its own postconditions. */
  lemma {:induction false} LineEndIs(s: string, i: nat)
    requires i <= |s| && (forall k :: 0 <= k < i ==> !IsLineBreak(s[k])) && (i < |s| ==> IsLineBreak(s[i]))
    ensures LineEnd(s) == i
  {
  }

  /** Python's `s.splitlines()` on ASCII text: "\r\n" is one break, and a
      break at the very end does not start another line. */
  function SplitLines(s: string): (r: seq<string>)
    ensures forall k :: 0 <= k < |r| ==> NoLineBreak(r[k])
    ensures r == [] <==> s == []
    decreases |s|
  {
    if s == [] then []
    else
      var i := LineEnd(s);
      if i == |s| then
        assert s[..i] == s;
        [s]
      else
        var j := if s[i] == '\r' && i + 1 < |s| && s[i + 1] == '\n' then i + 2 else i + 1;
        [s[..i]] + SplitLines(s[j..])
  }

  /** A non-empty text without a line break is one line. */
  lemma {:induction false} SplitLinesOne(l: string)
    requires l != [] && NoLineBreak(l)
    ensures SplitLines(l) == [l]
  {
    LineEndIs(l, |l|);
  }

  /** A break-free line followed by "\n" or "\r\n" is the first line. */
  lemma {:induction false} SplitLinesCons(l: string, sep: string, rest: string)
    requires NoLineBreak(l) && (sep == "\n" || sep == "\r\n")
    ensures SplitLines(l + sep + rest) == [l] + SplitLines(rest)
  {
    var s := l + sep + rest;
    assert forall k :: 0 <= k < |l| ==> s[k] == l[k];
    assert s[|l|] == sep[0];
    LineEndIs(s, |l|);
    assert s[..|l|] == l && s[|l| + |sep|..] == rest;
    if sep == "\r\n" {
      assert s[|l| + 1] == '\n';
    }
  }

  /** Splitting into lines undoes joining lines with "\n" or "\r\n" when the
      last line is not empty (a trailing empty line would read as a final
      line break). */
  lemma {:induction false} SplitLinesJoin(lines: seq<string>, sep: string)
    requires forall k :: 0 <= k < |lines| ==> NoLineBreak(lines[k])
    requires sep == "\n" || sep == "\r\n"
    requires lines != [] ==> lines[|lines| - 1] != []
    ensures SplitLines(Join(lines, sep)) == lines
    decreases |lines|
  {
    if |lines| == 1 {
      SplitLinesOne(lines[0]);
    } else if |lines| > 1 {
      var l, rest := lines[0], lines[1..];
      JoinCons(l, rest, sep);
      assert lines == [l] + rest;
      SplitLinesCons(l, sep, Join(rest, sep));
      SplitLinesJoin(rest, sep);
    }
  }

  /** A text whose every line, the last included, ends with "\n" or with
      "\r\n" splits into exactly those lines, empty ones included. */
  lemma {:induction false} SplitLinesTerminated(lines: seq<string>, sep: string)
    requires forall k :: 0 <= k < |lines| ==> NoLineBreak(lines[k])
    requires sep == "\n" || sep == "\r\n"
    requires lines != []
    ensures SplitLines(Join(lines, sep) + sep) == lines
    decreases |lines|
  {
    var l := lines[0];
    if |lines| == 1 {
      assert Join(lines, sep) + sep == l + sep + "";
      SplitLinesCons(l, sep, "");
    } else {
      var tail := Join(lines[1..], sep) + sep;
      JoinCons(l, lines[1..], sep);
      assert lines == [l] + lines[1..];
      assert Join(lines, sep) + sep == l + sep + tail;
      SplitLinesCons(l, sep, tail);
      SplitLinesTerminated(lines[1..], sep);
      assert lines == [l] + lines[1..];
    }
  }

  /** A line break as `splitlines()` reads it: one line-break character,
      or "\r\n". */
  predicate IsBreak(b: string) {
    (|b| == 1 && IsLineBreak(b[0])) || b == "\r\n"
  }

  /** The break after each line: a break after every line but the last,
      and a break or nothing after the last. */
  predicate Breaks(lines: seq<string>, breaks: seq<string>) {
    && |breaks| == |lines|
    && (forall k :: 0 <= k < |breaks| - 1 ==> IsBreak(breaks[k]))
    && (breaks != [] ==> breaks[|breaks| - 1] == [] || IsBreak(breaks[|breaks| - 1]))
  }

  /** `lines[0] + breaks[0] + lines[1] + breaks[1] + ...`. */
  function Broken(lines: seq<string>, breaks: seq<string>): string
    requires |breaks| == |lines|
    decreases |lines|
  {
    if lines == [] then [] else lines[0] + breaks[0] + Broken(lines[1..], breaks[1..])
  }

  /** The first line of a text with a line break, the break after it, and
      the rest. */
  lemma {:induction false} SplitLinesBreak(s: string, i: nat, j: nat)
    requires s != [] && i == LineEnd(s) && i < |s|
    requires j == if s[i] == '\r' && i + 1 < |s| && s[i + 1] == '\n' then i + 2 else i + 1
    ensures IsBreak(s[i..j])
    ensures s == s[..i] + s[i..j] + s[j..]
    ensures SplitLines(s) == [s[..i]] + SplitLines(s[j..])
  {
    if j == i + 2 {
      assert s[i..j] == [s[i], s[i + 1]];
    } else {
      assert s[i..j] == [s[i]];
    }
  }

  /** A line and its break in front of a layout of lines. */
  lemma {:induction false} BrokenCons(l: string, b: string, lines: seq<string>, breaks: seq<string>)
    requires IsBreak(b) && Breaks(lines, breaks)
    ensures Breaks([l] + lines, [b] + breaks)
    ensures Broken([l] + lines, [b] + breaks) == l + b + Broken(lines, breaks)
  {
    var lines', breaks' := [l] + lines, [b] + breaks;
    assert lines'[1..] == lines && breaks'[1..] == breaks;
    assert forall k :: 1 <= k < |breaks'| ==> breaks'[k] == breaks[k - 1];
  }

  /** A non-empty text without a line break is one line with no break. */
  lemma {:induction false} BrokenOne(s: string)
    requires s != [] && NoLineBreak(s)
    ensures Breaks(SplitLines(s), [""]) && Broken(SplitLines(s), [""]) == s
  {
    SplitLinesOne(s);
    assert Broken([s], [""]) == s + "" + [];
  }

  /** The break `splitlines()` drops after each line: nothing after a last
      line that ends the text. */
  function LineBreaks(s: string): (r: seq<string>)
    decreases |s|
  {
    if s == [] then []
    else
      var i := LineEnd(s);
      if i == |s| then [""]
      else
        var j := if s[i] == '\r' && i + 1 < |s| && s[i + 1] == '\n' then i + 2 else i + 1;
        [s[i..j]] + LineBreaks(s[j..])
  }

  /** Every text is its own lines, each followed by a line break, except
      that the last may have none; so `splitlines()` drops only the
      breaks, whichever line-break characters they are. */
  lemma {:induction false} BrokenSplitLines(s: string)
    ensures Breaks(SplitLines(s), LineBreaks(s)) && Broken(SplitLines(s), LineBreaks(s)) == s
    decreases |s|
  {
    if s == [] {
      assert SplitLines(s) == [];
    } else {
      var i := LineEnd(s);
      if i == |s| {
        BrokenOne(s);
      } else {
        var j := if s[i] == '\r' && i + 1 < |s| && s[i + 1] == '\n' then i + 2 else i + 1;
        var rest := s[j..];
        SplitLinesBreak(s, i, j);
        BrokenSplitLines(rest);
        BrokenCons(s[..i], s[i..j], SplitLines(rest), LineBreaks(rest));
      }
    }
  }

  // ---- integers ----

  predicate IsDigit(c: char) { '0' <= c <= '9' }

  predicate IsDigits(s: string) {
    s != [] && forall k :: 0 <= k < |s| ==> IsDigit(s[k])
  }

  /** The tokens Python's `int(...)` accepts here: an optional sign and ASCII digits. */
  predicate IsIntToken(s: string) {
    IsDigits(s) || (|s| >= 2 && (s[0] == '-' || s[0] == '+') && IsDigits(s[1..]))
  }

  function DigitValue(c: char): (d: nat)
    requires IsDigit(c)
    ensures d < 10
  {
    c as int - '0' as int
  }

  function DigitChar(d: nat): (c: char)
    requires d < 10
    ensures IsDigit(c) && DigitValue(c) == d
  {
    ('0' as int + d) as char
  }

  /** The value of a decimal numeral, most significant digit first. */
  function ParseNat(s: string): nat
    requires IsDigits(s)
    decreases |s|
  {
    if |s| == 1 then DigitValue(s[0])
    else 10 * ParseNat(s[..|s| - 1]) + DigitValue(s[|s| - 1])
  }

  /** Python's `int(tok)` on a whitespace-free token; `None` where Python
      raises `ValueError`. */
  function ParseInt(tok: string): (r: Option<int>)
    ensures r.Some? <==> IsIntToken(tok)
  {
    if IsDigits(tok) then Some(ParseNat(tok) as int)
    else if |tok| >= 2 && tok[0] == '-' && IsDigits(tok[1..]) then Some(-(ParseNat(tok[1..]) as int))
    else if |tok| >= 2 && tok[0] == '+' && IsDigits(tok[1..]) then Some(ParseNat(tok[1..]))
    else None
  }

  /** Decimal rendering of a natural number, without leading zeros. */
  function NatToString(n: nat): (s: string)
    ensures IsDigits(s)
    ensures ParseNat(s) == n
    ensures |s| == 1 <==> n < 10
    ensures |s| > 1 ==> s[0] != '0'
    decreases n
  {
    if n < 10 then [DigitChar(n)]
    else
      var s := NatToString(n / 10) + [DigitChar(n % 10)];
      assert s[..|s| - 1] == NatToString(n / 10);
      s
  }

  /** A numeral that does not open with 0 has a positive value. */
  lemma {:induction false} ParseNatPositive(s: string)
    requires IsDigits(s) && s[0] != '0'
    ensures ParseNat(s) > 0
    decreases |s|
  {
    if |s| > 1 {
      var init := s[..|s| - 1];
      assert init[0] == s[0];
      ParseNatPositive(init);
    }
  }

  /** The decimal form is the only numeral without a leading zero: any such
      numeral is the rendering of its own value. */
  lemma {:induction false} NatToStringCanonical(s: string)
    requires IsDigits(s) && (|s| > 1 ==> s[0] != '0')
    ensures NatToString(ParseNat(s)) == s
    decreases |s|
  {
    if |s| > 1 {
      var init, d := s[..|s| - 1], s[|s| - 1];
      assert init[0] == s[0];
      ParseNatPositive(init);
      NatToStringCanonical(init);
      var n := ParseNat(s);
      assert n / 10 == ParseNat(init) && n % 10 == DigitValue(d);
      assert NatToString(n) == init + [d];
      assert init + [d] == s;
    }
  }

  /** Python's `str(x)` for an integer. */
  function IntToString(x: int): (s: string)
    ensures IsIntToken(s)
    ensures forall k :: 0 <= k < |s| ==> IsDigit(s[k]) || s[k] == '-'
    ensures s[0] == '-' <==> x < 0
    ensures |s| > 1 && s[0] != '-' ==> s[0] != '0'
    ensures s[0] == '-' ==> |s| > 1 && s[1] != '0'
    ensures x == 0 ==> s == "0"
    ensures x == 1 ==> s == "1"
  {
    if x < 0 then "-" + NatToString(-x) else NatToString(x)
  }

  /** `int(str(x)) == x`. */
  lemma {:induction false} IntRoundTrip(x: int)
    ensures ParseInt(IntToString(x)) == Some(x)
  {
    var s := IntToString(x);
    if x < 0 {
      assert s[1..] == NatToString(-x);
      assert !IsDigits(s) by { assert !IsDigit(s[0]); }
    }
  }
}
