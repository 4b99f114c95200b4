/**
 * The handful of Python `str` operations the pipeline relies on, written
 * over Dafny strings (`seq<char>`, one char per Unicode scalar value).
 */
module Text {

  /** `str.isspace()`: the characters that `\s` in a `re` str pattern,
      `str.strip()` and `str.split()` treat as whitespace. */
  predicate IsSpace(c: char) {
    ('\t' <= c <= '\r') || ('\U{1c}' <= c <= '\U{1f}') || c == ' '
    || c == '\U{85}' || c == '\U{a0}' || c == '\U{1680}'
    || ('\U{2000}' <= c <= '\U{200a}') || c == '\U{2028}' || c == '\U{2029}'
    || c == '\U{202f}' || c == '\U{205f}' || c == '\U{3000}'
  }

  predicate AllSpace(s: string) {
    forall i :: 0 <= i < |s| ==> IsSpace(s[i])
  }

  /** `str.lstrip()` with no argument. */
  function LStrip(s: string): (r: string)
    ensures |r| <= |s|
  {
    if s != [] && IsSpace(s[0]) then LStrip(s[1..]) else s
  }

  /** `lstrip` cuts a prefix that is all whitespace, and as much of it as
      there is. */
  lemma {:induction false} LStripCuts(s: string)
    ensures LStrip(s) == s[|s| - |LStrip(s)|..]
    ensures AllSpace(s[..|s| - |LStrip(s)|])
    ensures LStrip(s) == [] || !IsSpace(LStrip(s)[0])
  {
    if s != [] && IsSpace(s[0]) {
      LStripCuts(s[1..]);
      var n := |s| - |LStrip(s)|;
      assert s[..n] == [s[0]] + s[1..][..n - 1];
    }
  }

  /** `str.rstrip()` with no argument. */
  function RStrip(s: string): (r: string)
    ensures |r| <= |s|
  {
    if s != [] && IsSpace(s[|s| - 1]) then RStrip(s[..|s| - 1]) else s
  }

  /** `rstrip` cuts a suffix that is all whitespace, and as much of it as
      there is. */
  lemma {:induction false} RStripCuts(s: string)
    ensures RStrip(s) == s[..|RStrip(s)|]
    ensures AllSpace(s[|RStrip(s)|..])
    ensures RStrip(s) == [] || !IsSpace(RStrip(s)[|RStrip(s)| - 1])
  {
    if s != [] && IsSpace(s[|s| - 1]) {
      var p := s[..|s| - 1];
      RStripCuts(p);
      var n := |RStrip(s)|;
      assert p[..n] == s[..n];
      assert s[n..] == p[n..] + [s[|s| - 1]];
    }
  }

  /** `str.strip()` with no argument. */
  function Strip(s: string): (r: string)
  {
    RStrip(LStrip(s))
  }

  /** What `str.strip()` keeps: a run of `s` with only whitespace cut from
      either side, and no whitespace left at either end. */
  lemma StripCutsOnlySpace(s: string)
    ensures exists i, j :: 0 <= i <= j <= |s| && Strip(s) == s[i..j]
                          && AllSpace(s[..i]) && AllSpace(s[j..])
    ensures Strip(s) == [] || (!IsSpace(Strip(s)[0]) && !IsSpace(Strip(s)[|Strip(s)| - 1]))
  {
    var l := LStrip(s);
    var r := RStrip(l);
    LStripCuts(s);
    RStripCuts(l);
    var i := |s| - |l|;
    var j := i + |r|;
    assert r == s[i..j];
    assert s[j..] == l[|r|..];
  }

  /** `str.rstrip(c)` for a single character `c`. */
  function RStripChar(s: string, c: char): (r: string)
    ensures |r| <= |s| && r == s[..|r|]
    ensures forall i :: |r| <= i < |s| ==> s[i] == c
    ensures r == [] || r[|r| - 1] != c
  {
    if s != [] && s[|s| - 1] == c then RStripChar(s[..|s| - 1], c) else s
  }

  /** The line boundaries of `str.splitlines()`. */
  predicate IsLineBreak(c: char) {
    c == '\n' || c == '\r' || c == '\U{0b}' || c == '\U{0c}'
    || c == '\U{1c}' || c == '\U{1d}' || c == '\U{1e}' || c == '\U{85}'
    || c == '\U{2028}' || c == '\U{2029}'
  }

  /** The length of the first line of `s`, up to its first line boundary. */
  function LineLength(s: string): (n: nat)
    ensures n <= |s|
    ensures forall i :: 0 <= i < n ==> !IsLineBreak(s[i])
    ensures n < |s| ==> IsLineBreak(s[n])
  {
    if s == [] || IsLineBreak(s[0]) then 0 else 1 + LineLength(s[1..])
  }

  /** The length of the boundary that ends the first line of `s`, when
      that line is `n` long: `\r\n` counts as one boundary of length 2,
      and a line that runs to the end of `s` has none. */
  function BreakLength(s: string, n: nat): (b: nat)
    requires n <= |s|
    ensures n + b <= |s|
  {
    if n + 1 < |s| && s[n] == '\r' && s[n + 1] == '\n' then 2
    else if n < |s| then 1 else 0
  }

  /** `str.splitlines()` without `keepends`: `\r\n` is one boundary, and a
      boundary at the very end does not open an empty last line. */
  function SplitLines(s: string): (lines: seq<string>)
    ensures forall k :: 0 <= k < |lines| ==> forall i :: 0 <= i < |lines[k]| ==> !IsLineBreak(lines[k][i])
    decreases |s|
  {
    if s == [] then []
    else
      var n := LineLength(s);
      [s[..n]] + SplitLines(s[n + BreakLength(s, n)..])
  }

  /** The boundary after each line of `SplitLines(s)`, empty after a last
      line that runs to the end of `s`. */
  function LineEnds(s: string): (ends: seq<string>)
    decreases |s|
  {
    if s == [] then []
    else
      var n := LineLength(s);
      var b := BreakLength(s, n);
      [s[n..n + b]] + LineEnds(s[n + b..])
  }

  /** A line boundary of `str.splitlines()`: one boundary character, or `\r\n`. */
  predicate IsBoundary(e: string) {
    (|e| == 1 && IsLineBreak(e[0])) || e == "\r\n"
  }

  predicate NoBreak(l: string) {
    forall i :: 0 <= i < |l| ==> !IsLineBreak(l[i])
  }

  /** The lines put back together, each followed by its boundary. */
  function Rejoin(lines: seq<string>, ends: seq<string>): string
    requires |ends| == |lines|
  {
    if lines == [] then [] else lines[0] + ends[0] + Rejoin(lines[1..], ends[1..])
  }

  /** `s` is the text of `lines`, each followed by its boundary in `ends`:
      no line holds a boundary, only the last line may lack one, and then
      only when it is not empty; a lone `\r` is never followed by `\n`,
      since `\r\n` is a single boundary. */
  ghost predicate SplitsInto(s: string, lines: seq<string>, ends: seq<string>) {
    && |ends| == |lines|
    && Rejoin(lines, ends) == s
    && (forall k :: 0 <= k < |lines| ==> NoBreak(lines[k]))
    && (forall k :: 0 <= k < |lines| ==> IsBoundary(ends[k]) || (k == |lines| - 1 && ends[k] == [] && lines[k] != []))
    && (forall k :: 0 <= k < |lines| - 1 ==> ends[k] == "\r" && lines[k + 1] == [] ==> ends[k + 1] != "\n")
  }

  /** `splitlines` splits `s` into its lines and boundaries. */
  lemma {:induction false} SplitLinesSplits(s: string)
    ensures SplitsInto(s, SplitLines(s), LineEnds(s))
    decreases |s|
  {
    if s != [] {
      var n := LineLength(s);
      var b := BreakLength(s, n);
      var rest := s[n + b..];
      SplitLinesSplits(rest);
      var lines', ends' := SplitLines(rest), LineEnds(rest);
      SplitLinesStep(s);
      if rest != [] {
        LineEndsHead(rest);
      }
      SplitsIntoCons(s, s[..n], s[n..n + b], rest, lines', ends');
    }
  }

  /** The pieces `splitlines` cuts from the front of `s`. */
  lemma {:induction false} SplitLinesStep(s: string)
    requires s != []
    ensures var n := LineLength(s);
            var b := BreakLength(s, n);
            && s == s[..n] + s[n..n + b] + s[n + b..] && NoBreak(s[..n])
            && (IsBoundary(s[n..n + b]) || (s[n..n + b] == [] && s[..n] != [] && s[n + b..] == []))
            && (s[n..n + b] == "\r" && n + b < |s| ==> s[n + b] != '\n')
  {
    var n := LineLength(s);
    assert n == 0 ==> n < |s|;
  }

  /** An empty first line ended by `\n` starts with `\n`. */
  lemma {:induction false} LineEndsHead(s: string)
    requires s != []
    ensures SplitLines(s) != [] && LineEnds(s) != []
    ensures SplitLines(s)[0] == [] && LineEnds(s)[0] == "\n" ==> s[0] == '\n'
  {
  }

  /** A line and its boundary in front of a split. */
  lemma {:induction false} SplitsIntoCons(s: string, l: string, e: string, rest: string,
                                          lines: seq<string>, ends: seq<string>)
    requires SplitsInto(rest, lines, ends) && s == l + e + rest && NoBreak(l)
    requires IsBoundary(e) || (e == [] && l != [] && lines == [])
    requires e == "\r" && lines != [] && lines[0] == [] ==> ends[0] != "\n"
    ensures SplitsInto(s, [l] + lines, [e] + ends)
  {
    var lines', ends' := [l] + lines, [e] + ends;
    assert lines'[1..] == lines && ends'[1..] == ends;
    forall k | 0 <= k < |lines'| ensures NoBreak(lines'[k]) {
      if k > 0 { assert lines'[k] == lines[k - 1]; }
    }
    forall k | 0 <= k < |lines'|
      ensures IsBoundary(ends'[k]) || (k == |lines'| - 1 && ends'[k] == [] && lines'[k] != [])
    {
      if k > 0 { assert ends'[k] == ends[k - 1] && lines'[k] == lines[k - 1]; }
    }
    forall k | 0 <= k < |lines'| - 1
      ensures ends'[k] == "\r" && lines'[k + 1] == [] ==> ends'[k + 1] != "\n"
    {
      if k > 0 { assert ends'[k] == ends[k - 1] && lines'[k + 1] == lines[k] && ends'[k + 1] == ends[k]; }
    }
  }

  /** And that split is the only one: `SplitsInto` determines the lines. */
  lemma {:induction false} SplitsIntoUnique(s: string, lines: seq<string>, ends: seq<string>)
    requires SplitsInto(s, lines, ends)
    ensures lines == SplitLines(s) && ends == LineEnds(s)
    decreases |lines|
  {
    if lines != [] {
      var tail := Rejoin(lines[1..], ends[1..]);
      FirstLine(s, lines, ends);
      SplitsIntoTail(s, lines, ends);
      SplitsIntoUnique(tail, lines[1..], ends[1..]);
      assert lines == [lines[0]] + lines[1..] && ends == [ends[0]] + ends[1..];
    }
  }

  /** The first line and boundary of a split are the ones `splitlines` finds. */
  lemma {:induction false} FirstLine(s: string, lines: seq<string>, ends: seq<string>)
    requires SplitsInto(s, lines, ends) && lines != []
    ensures var n := |lines[0]|;
            && LineLength(s) == n && n + BreakLength(s, n) <= |s|
            && s[..n] == lines[0] && s[n..n + BreakLength(s, n)] == ends[0]
            && s[n + BreakLength(s, n)..] == Rejoin(lines[1..], ends[1..])
  {
    var tail := Rejoin(lines[1..], ends[1..]);
    assert s == lines[0] + ends[0] + tail;
    var n := |lines[0]|;
    assert s[..n] == lines[0];
    assert IsBoundary(ends[0]) || ends[0] == [];
    assert ends[0] == [] ==> |lines| == 1 && tail == [];
    LineLengthAt(s, n);
    BreakLengthIs(s, lines, ends);
    assert s[n + |ends[0]|..] == tail;
  }

  /** The first line ends where the text first holds a boundary. */
  lemma {:induction false} LineLengthAt(s: string, n: nat)
    requires n <= |s| && NoBreak(s[..n]) && (n < |s| ==> IsLineBreak(s[n]))
    ensures LineLength(s) == n
  {
    var m := LineLength(s);
    assert m == n;
  }

  /** The boundary after the first line of a split is the one `BreakLength` measures. */
  lemma {:induction false} BreakLengthIs(s: string, lines: seq<string>, ends: seq<string>)
    requires SplitsInto(s, lines, ends) && lines != []
    ensures |lines[0]| + |ends[0]| <= |s|
    ensures BreakLength(s, |lines[0]|) == |ends[0]|
    ensures s[|lines[0]|..|lines[0]| + |ends[0]|] == ends[0]
  {
    var tail := Rejoin(lines[1..], ends[1..]);
    assert s == lines[0] + ends[0] + tail;
    var n := |lines[0]|;
    if ends[0] == "\r" {
      if |lines| > 1 {
        assert tail == lines[1] + ends[1] + Rejoin(lines[2..], ends[2..]);
        if lines[1] == [] {
          assert ends[1] != "\n" && IsBoundary(ends[1]);
          assert tail[0] == ends[1][0];
        } else {
          assert tail[0] == lines[1][0];
          assert NoBreak(lines[1]);
        }
        assert tail[0] != '\n';
      } else {
        assert tail == [];
      }
      assert n + 1 == |s| || s[n + 1] == tail[0];
    }
    assert s[n..n + |ends[0]|] == ends[0];
  }

  /** The lines after the first split what follows the first boundary. */
  lemma {:induction false} SplitsIntoTail(s: string, lines: seq<string>, ends: seq<string>)
    requires SplitsInto(s, lines, ends) && lines != []
    ensures SplitsInto(Rejoin(lines[1..], ends[1..]), lines[1..], ends[1..])
  {
    var lines', ends' := lines[1..], ends[1..];
    forall k | 0 <= k < |lines'| ensures NoBreak(lines'[k]) {
      assert lines'[k] == lines[k + 1];
    }
    forall k | 0 <= k < |lines'|
      ensures IsBoundary(ends'[k]) || (k == |lines'| - 1 && ends'[k] == [] && lines'[k] != [])
    {
      assert ends'[k] == ends[k + 1] && lines'[k] == lines[k + 1];
    }
    forall k | 0 <= k < |lines'| - 1
      ensures ends'[k] == "\r" && lines'[k + 1] == [] ==> ends'[k + 1] != "\n"
    {
      assert ends'[k] == ends[k + 1] && lines'[k + 1] == lines[k + 2] && ends'[k + 1] == ends[k + 2];
    }
  }

  /** ASCII lower-casing, as `str.lower()` acts on the characters of a URL scheme. */
  function ToLowerAscii(c: char): char {
    if 'A' <= c <= 'Z' then (c as int - 'A' as int + 'a' as int) as char else c
  }

  function LowerAscii(s: string): (r: string)
    ensures |r| == |s| && forall i :: 0 <= i < |s| ==> r[i] == ToLowerAscii(s[i])
  {
    if s == [] then [] else [ToLowerAscii(s[0])] + LowerAscii(s[1..])
  }

  /** `s.find(c)`: the index of the first `c`, or `|s|` when there is none
      (Python answers -1 there; `|s|` keeps the index a `nat`). */
  function Find(s: string, c: char): (i: nat)
    ensures i <= |s|
    ensures c !in s[..i]
    ensures i < |s| ==> s[i] == c
  {
    if s == [] then 0 else if s[0] == c then 0 else 1 + Find(s[1..], c)
  }

  lemma FindAbsent(s: string, c: char)
    ensures Find(s, c) == |s| <==> c !in s
  {
    if Find(s, c) < |s| {
      assert s[Find(s, c)] == c;
    } else {
      assert s[..Find(s, c)] == s;
    }
  }

  /** The index of the last `c` in `s`, or `|s|` when there is none. */
  function RFind(s: string, c: char): (i: nat)
    ensures i <= |s|
    ensures i < |s| ==> s[i] == c && c !in s[i + 1..]
    ensures i == |s| ==> c !in s
  {
    if s == [] then 0
    else if s[|s| - 1] == c then |s| - 1
    else
      var j := RFind(s[..|s| - 1], c);
      assert s[..|s| - 1] + [s[|s| - 1]] == s;
      if j == |s| - 1 then |s| else j
  }

  /** `sep.join(parts)`. */
  function Join(parts: seq<string>, sep: string): (r: string)
    ensures parts == [] ==> r == []
    ensures |parts| == 1 ==> r == parts[0]
  {
    if parts == [] then []
    else if |parts| == 1 then parts[0]
    else parts[0] + sep + Join(parts[1..], sep)
  }

  /** `str(n)` for an `int`: decimal digits, with a leading `-` when negative. */
  function IntToString(n: int): (r: string)
    ensures r != []
  {
    if n < 0 then "-" + NatToString(-n) else NatToString(n)
  }

  function NatToString(n: nat): (r: string)
    ensures r != [] && forall i :: 0 <= i < |r| ==> '0' <= r[i] <= '9'
    decreases n
  {
    var digit := ['0' + (n % 10) as char];
    if n < 10 then digit else NatToString(n / 10) + digit
  }
}
