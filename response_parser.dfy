/**
 * `extract_top_entries_from_summary` of src/response_parser.py: find the
 * `Top Source Links:` heading in the overall summary, cut out the section
 * after it, take the first http(s) URL of each of its lines, normalise it,
 * and keep the known entries it names, in text order, without duplicates,
 * up to `max_count`.
 */
module ResponseParser {
  import opened Text
  import opened Url
  import opened Feed
  import opened Sequences

  /** The heading the extractor searches for, in lower case; the search
      ignores ASCII case. */
  const Heading: string := "top source links:"

  predicate HeadingAt(s: string, i: nat) {
    i + |Heading| <= |s| && forall k :: 0 <= k < |Heading| ==> ToLowerAscii(s[i + k]) == Heading[k]
  }

  /** The leftmost occurrence of the heading at or after `from`. */
  function FindHeading(s: string, from: nat): (r: Option<nat>)
    requires from <= |s|
    ensures r.None? ==> forall i :: from <= i <= |s| ==> !HeadingAt(s, i)
    ensures r.Some? ==> from <= r.value <= |s| && HeadingAt(s, r.value)
                        && forall i :: from <= i < r.value ==> !HeadingAt(s, i)
    decreases |s| - from
  {
    if HeadingAt(s, from) then Some(from)
    else if from == |s| then None
    else FindHeading(s, from + 1)
  }

  /** The end of the run of whitespace that starts at `j` (`\s*`, greedy). */
  function SkipSpace(s: string, j: nat): (k: nat)
    requires j <= |s|
    ensures j <= k <= |s|
    ensures forall i :: j <= i < k ==> IsSpace(s[i])
    ensures k < |s| ==> !IsSpace(s[k])
    decreases |s| - j
  {
    if j < |s| && IsSpace(s[j]) then SkipSpace(s, j + 1) else j
  }

  predicate BlankLineAt(s: string, k: nat) {
    k + 2 <= |s| && s[k] == '\n' && s[k + 1] == '\n'
  }

  /** Where the lazy `(.*?)` stops: the first `\n\n` at or after `j`, or the end. */
  function SectionEnd(s: string, j: nat): (k: nat)
    requires j <= |s|
    ensures j <= k <= |s|
    ensures forall i :: j <= i < k ==> !BlankLineAt(s, i)
    ensures k < |s| ==> BlankLineAt(s, k)
    decreases |s| - j
  {
    if j == |s| || BlankLineAt(s, j) then j else SectionEnd(s, j + 1)
  }

  /** Group 1 of `Top Source Links:\s*(.*?)(?:\n\n|\Z)` searched with
      IGNORECASE and DOTALL, or None when the heading does not occur. */
  function Section(summary: string): (r: Option<string>)
    ensures r.None? <==> forall i :: 0 <= i <= |summary| ==> !HeadingAt(summary, i)
    ensures r.Some? ==> exists i, j :: 0 <= i <= j <= |summary| && HeadingAt(summary, i) && r.value <= summary[j..]
  {
    match FindHeading(summary, 0)
    case None => None
    case Some(i) =>
      var j := SkipSpace(summary, i + |Heading|);
      var k := SectionEnd(summary, j);
      assert summary[j..k] <= summary[j..];
      Some(summary[j..k])
  }

  /** The section is the text between the whitespace after the leftmost
      heading and the first `\n\n` after it (or the end of the text): the
      leftmost match, greedy `\s*` and lazy `(.*?)`. */
  lemma {:induction false} SectionIsGroup(summary: string, i: nat, j: nat, k: nat)
    requires HeadingAt(summary, i) && forall p :: 0 <= p < i ==> !HeadingAt(summary, p)
    requires i + |Heading| <= j <= k <= |summary|
    requires forall p :: i + |Heading| <= p < j ==> IsSpace(summary[p])
    requires j < |summary| ==> !IsSpace(summary[j])
    requires forall p :: j <= p < k ==> !BlankLineAt(summary, p)
    requires k < |summary| ==> BlankLineAt(summary, k)
    ensures Section(summary) == Some(summary[j..k])
  {
    var h := FindHeading(summary, 0);
    assert h.Some? && h.value == i;
    var j' := SkipSpace(summary, i + |Heading|);
    assert j' == j;
    var k' := SectionEnd(summary, j);
    assert k' == k;
  }

  /** `[l.strip() for l in lines if l.strip()]`. */
  function NonBlankStripped(lines: seq<string>): (r: seq<string>)
    ensures |r| <= |lines|
    ensures forall k :: 0 <= k < |r| ==> r[k] != []
    ensures forall k :: 0 <= k < |r| ==> exists l :: l in lines && r[k] == Strip(l)
    ensures forall l :: l in lines && Strip(l) != [] ==> Strip(l) in r
  {
    if lines == [] then []
    else
      var l := Strip(lines[0]);
      (if l != [] then [l] else []) + NonBlankStripped(lines[1..])
  }

  /** The comprehension keeps the order of the lines. */
  lemma {:induction false} NonBlankStrippedConcat(a: seq<string>, b: seq<string>)
    ensures NonBlankStripped(a + b) == NonBlankStripped(a) + NonBlankStripped(b)
  {
    if a == [] {
      assert a + b == b;
    } else {
      assert (a + b)[0] == a[0] && (a + b)[1..] == a[1..] + b;
      NonBlankStrippedConcat(a[1..], b);
      var l := Strip(a[0]);
      var h := if l != [] then [l] else [];
      assert h + (NonBlankStripped(a[1..]) + NonBlankStripped(b)) == (h + NonBlankStripped(a[1..])) + NonBlankStripped(b);
    }
  }

  /** The candidate lines of the section: `section.strip().splitlines()`,
      each line stripped, blank lines dropped. */
  function SectionLines(section: string): seq<string> {
    NonBlankStripped(SplitLines(Strip(section)))
  }

  /** En dash and em dash. */
  predicate IsDash(c: char) {
    c == '\U{2013}' || c == '\U{2014}'
  }

  /** `re.sub(r"\s*[–—]\s*", " - ", line)`: each dash, with the whitespace
      around it, becomes ` - `; matches are found left to right. */
  function NormalizeDashes(s: string): (r: string)
    ensures forall i :: 0 <= i < |r| ==> !IsDash(r[i])
    ensures (forall i :: 0 <= i < |s| ==> !IsDash(s[i])) ==> r == s
    decreases |s|
  {
    if s == [] then []
    else
      var w := SkipSpace(s, 0);
      if w < |s| && IsDash(s[w]) then
        var after := SkipSpace(s, w + 1);
        " - " + NormalizeDashes(s[after..])
      else [s[0]] + NormalizeDashes(s[1..])
  }

  /** The leftmost dash, with the whitespace on either side of it, becomes
      ` - `; the text before it is kept, the text after it is rewritten in
      turn. */
  lemma {:induction false} NormalizeFirstDash(x: string, d: char, y: string)
    requires IsDash(d) && forall i :: 0 <= i < |x| ==> !IsDash(x[i])
    ensures NormalizeDashes(x + [d] + y) == RStrip(x) + " - " + NormalizeDashes(LStrip(y))
    decreases |x|
  {
    if AllSpace(x) {
      DashAfterSpace(x, d, y);
    } else {
      KeepFirst(x, d, y);
      var tail := x[1..];
      assert forall i :: 0 <= i < |tail| ==> !IsDash(tail[i]) by {
        forall i | 0 <= i < |tail| ensures !IsDash(tail[i]) {
          assert tail[i] == x[i + 1];
        }
      }
      NormalizeFirstDash(tail, d, y);
      RStripCons(x);
      var rest := NormalizeDashes(LStrip(y));
      var sep := " - ";
      AppendAssoc([x[0]], RStrip(tail) + sep, rest);
      AppendAssoc([x[0]], RStrip(tail), sep);
    }
  }

  /** A dash after nothing but whitespace: the whole run becomes ` - `. */
  lemma {:induction false} DashAfterSpace(x: string, d: char, y: string)
    requires IsDash(d) && AllSpace(x)
    ensures NormalizeDashes(x + [d] + y) == RStrip(x) + " - " + NormalizeDashes(LStrip(y))
  {
    var s := x + [d] + y;
    SkipSpaceAt(s, 0, |x|);
    var w := SkipSpace(s, 0);
    assert s[w] == d;
    RStripAllSpace(x);
    SkipSpaceIsLStrip(s, w + 1);
    assert s[w + 1..] == y;
  }

  /** With something other than whitespace before the first dash, the first
      character is copied. */
  lemma {:induction false} KeepFirst(x: string, d: char, y: string)
    requires IsDash(d) && (forall i :: 0 <= i < |x| ==> !IsDash(x[i])) && !AllSpace(x)
    ensures x != [] && NormalizeDashes(x + [d] + y) == [x[0]] + NormalizeDashes(x[1..] + [d] + y)
    ensures !IsSpace(x[0]) || !AllSpace(x[1..])
  {
    assert (x + [d] + y)[1..] == x[1..] + [d] + y;
    var s := x + [d] + y;
    LStripCuts(x);
    var p := |x| - |LStrip(x)|;
    assert x[..p] != x;
    assert p < |x|;
    assert x[p] == LStrip(x)[0];
    assert forall q :: 0 <= q < p ==> IsSpace(s[q]) by {
      forall q | 0 <= q < p ensures IsSpace(s[q]) {
        assert s[q] == x[..p][q];
      }
    }
    SkipSpaceAt(s, 0, p);
    if IsSpace(x[0]) {
      assert x[1..][p - 1] == x[p];
    }
  }

  /** `\s*` from `j` stops at `k` when all before `k` is whitespace and `k` is not. */
  lemma {:induction false} SkipSpaceAt(s: string, j: nat, k: nat)
    requires j <= k <= |s| && (forall p :: j <= p < k ==> IsSpace(s[p])) && (k < |s| ==> !IsSpace(s[k]))
    ensures SkipSpace(s, j) == k
    decreases k - j
  {
    if j < k {
      SkipSpaceAt(s, j + 1, k);
    }
  }

  /** `\s*` from `j` reaches where `lstrip` of the rest begins. */
  lemma {:induction false} SkipSpaceIsLStrip(s: string, j: nat)
    requires j <= |s|
    ensures s[SkipSpace(s, j)..] == LStrip(s[j..])
    decreases |s| - j
  {
    if j < |s| && IsSpace(s[j]) {
      assert s[j..][1..] == s[j + 1..];
      SkipSpaceIsLStrip(s, j + 1);
    }
  }

  lemma {:induction false} RStripAllSpace(x: string)
    requires AllSpace(x)
    ensures RStrip(x) == []
    decreases |x|
  {
    if x != [] {
      RStripAllSpace(x[..|x| - 1]);
    }
  }

  /** `rstrip` keeps the first character when something after it is not space. */
  lemma {:induction false} RStripCons(x: string)
    requires x != [] && (!IsSpace(x[0]) || !AllSpace(x[1..]))
    ensures RStrip(x) == [x[0]] + RStrip(x[1..])
    decreases |x|
  {
    var t := x[1..];
    if IsSpace(x[|x| - 1]) {
      var p := x[..|x| - 1];
      assert |x| >= 2;
      assert t[..|t| - 1] == p[1..];
      if IsSpace(x[0]) {
        var q :| 0 <= q < |t| && !IsSpace(t[q]);
        assert p[1..][q] == t[q];
      }
      RStripCons(p);
    } else {
      assert t != [] ==> t[|t| - 1] == x[|x| - 1];
      assert [x[0]] + t == x;
    }
  }


  /** The characters of `[^\s)]`. */
  predicate IsUrlChar(c: char) {
    !IsSpace(c) && c != ')'
  }

  predicate HasAt(s: string, i: nat, p: string) {
    i + |p| <= |s| && forall k :: 0 <= k < |p| ==> s[i + k] == p[k]
  }

  /** The length of the `https?://` that the URL pattern matches at `i`
      when at least one URL character follows it, or 0 when it does not
      match at `i`. */
  function UrlPrefixAt(s: string, i: nat): (n: nat)
    ensures n == 0 || n == 7 || n == 8
    ensures n > 0 ==> i + n < |s| && IsUrlChar(s[i + n])
  {
    if HasAt(s, i, "https://") && i + 8 < |s| && IsUrlChar(s[i + 8]) then 8
    else if HasAt(s, i, "http://") && i + 7 < |s| && IsUrlChar(s[i + 7]) then 7
    else 0
  }

  /** The end of the greedy run of URL characters from `j`. */
  function UrlRunEnd(s: string, j: nat): (k: nat)
    requires j <= |s|
    ensures j <= k <= |s|
    ensures forall i :: j <= i < k ==> IsUrlChar(s[i])
    ensures k < |s| ==> !IsUrlChar(s[k])
    decreases |s| - j
  {
    if j < |s| && IsUrlChar(s[j]) then UrlRunEnd(s, j + 1) else j
  }

  /** The leftmost start, at or after `from`, of a match of `https?://[^\s)]+`. */
  function FindUrlStart(s: string, from: nat): (r: Option<nat>)
    requires from <= |s|
    ensures r.None? ==> forall i :: from <= i <= |s| ==> UrlPrefixAt(s, i) == 0
    ensures r.Some? ==> from <= r.value < |s| && UrlPrefixAt(s, r.value) > 0
                        && forall i :: from <= i < r.value ==> UrlPrefixAt(s, i) == 0
    decreases |s| - from
  {
    if UrlPrefixAt(s, from) > 0 then Some(from)
    else if from == |s| then None
    else FindUrlStart(s, from + 1)
  }

  /** `re.search(r"https?://[^\s)]+", line)`: the first match, as a string:
      `http://` or `https://` followed by a non-empty run of URL characters,
      cut out of the line; None exactly when no position starts a match. */
  function FindUrl(line: string): (r: Option<string>)
    ensures r.None? <==> forall i :: 0 <= i <= |line| ==> UrlPrefixAt(line, i) == 0
    ensures r.Some? ==> (HasAt(r.value, 0, "http://") || HasAt(r.value, 0, "https://"))
                        && |r.value| > 7
                        && forall i :: 0 <= i < |r.value| ==> IsUrlChar(r.value[i])
  {
    match FindUrlStart(line, 0)
    case None => None
    case Some(i) =>
      var n := UrlPrefixAt(line, i);
      var e := UrlRunEnd(line, i + n);
      UrlMatchShape(line, i, n, e);
      Some(line[i..e])
  }

  /** The text a match covers: the scheme prefix, then URL characters only. */
  lemma {:induction false} UrlMatchShape(line: string, i: nat, n: nat, e: nat)
    requires n == UrlPrefixAt(line, i) && n > 0 && i + n < e <= |line|
    requires forall k :: i + n <= k < e ==> IsUrlChar(line[k])
    ensures var u := line[i..e];
            (HasAt(u, 0, "http://") || HasAt(u, 0, "https://")) && |u| > 7
            && forall k :: 0 <= k < |u| ==> IsUrlChar(u[k])
  {
    if n == 8 {
      PrefixShape(line, i, e, "https://");
    } else {
      PrefixShape(line, i, e, "http://");
    }
  }

  lemma {:induction false} PrefixShape(line: string, i: nat, e: nat, p: string)
    requires HasAt(line, i, p) && i + |p| <= e <= |line|
    requires forall k :: 0 <= k < |p| ==> IsUrlChar(p[k])
    requires forall k :: i + |p| <= k < e ==> IsUrlChar(line[k])
    ensures HasAt(line[i..e], 0, p)
    ensures forall k :: 0 <= k < e - i ==> IsUrlChar(line[i..e][k])
  {
    var u := line[i..e];
    forall k | 0 <= k < |u| ensures IsUrlChar(u[k]) {
      assert u[k] == line[i + k];
      if k < |p| {
        assert line[i + k] == p[k];
      }
    }
    forall k | 0 <= k < |p| ensures u[k] == p[k] {
      assert u[k] == line[i + k];
    }
  }

  /** The normalised URL the loop looks up for one line, if the line has a URL. */
  function LineKey(line: string): Option<string> {
    match FindUrl(NormalizeDashes(line))
    case None => None
    case Some(u) => Some(NormalizeUrl(u))
  }

  /** The keys of the lines that carry one, in line order; with `LineKey`
      these are the normalised URLs the loop looks up. The per-line key is
      a parameter so that the reasoning about the loop does not unfold URL
      normalisation. */
  function UrlKeys(lines: seq<string>, lineKey: string -> Option<string>): (keys: seq<string>)
    ensures |keys| <= |lines|
  {
    if lines == [] then []
    else
      var prefix := UrlKeys(lines[..|lines| - 1], lineKey);
      match lineKey(lines[|lines| - 1])
      case None => prefix
      case Some(k) => prefix + [k]
  }

  function LinkKey(e: Entry): string {
    NormalizeUrl(e.link)
  }

  /** `{key(e): e for e in entries}`; the extractor's dictionary is
      `EntryMap(entries, LinkKey)`, every entry filed under its normalised
      link. */
  function EntryMap(entries: seq<Entry>, key: Entry -> string): map<string, Entry>
  {
    if entries == [] then map[]
    else
      var last := entries[|entries| - 1];
      var m0 := EntryMap(entries[..|entries| - 1], key);
      m0[key(last) := last]
  }

  /** Every entry is filed under its key. */
  lemma {:induction false} EntryMapHas(entries: seq<Entry>, key: Entry -> string, i: nat)
    requires i < |entries|
    ensures key(entries[i]) in EntryMap(entries, key)
  {
    if i < |entries| - 1 {
      EntryMapHas(entries[..|entries| - 1], key, i);
    }
  }

  /** Every filed entry is one of the entries, under its own key. */
  lemma {:induction false} EntryMapValue(entries: seq<Entry>, key: Entry -> string, k: string)
    requires k in EntryMap(entries, key)
    ensures EntryMap(entries, key)[k] in entries && key(EntryMap(entries, key)[k]) == k
  {
    var p := entries[..|entries| - 1];
    var last := entries[|entries| - 1];
    if k != key(last) {
      EntryMapValue(p, key, k);
      assert EntryMap(p, key)[k] in p;
    }
  }

  /** Of several entries with the same key the dictionary keeps the last one. */
  lemma {:induction false} EntryMapLastWins(entries: seq<Entry>, key: Entry -> string, i: nat)
    requires i < |entries|
    requires forall j :: i < j < |entries| ==> key(entries[j]) != key(entries[i])
    ensures key(entries[i]) in EntryMap(entries, key) && EntryMap(entries, key)[key(entries[i])] == entries[i]
  {
    if i < |entries| - 1 {
      var p := entries[..|entries| - 1];
      EntryMapLastWins(p, key, i);
    }
  }

  /** The entries the keys name, in key order, skipping unknown keys. */
  function Hits(keys: seq<string>, m: map<string, Entry>): (r: seq<Entry>)
    ensures |r| <= |keys|
  {
    if keys == [] then []
    else
      var prefix := Hits(keys[..|keys| - 1], m);
      var k := keys[|keys| - 1];
      if k in m then prefix + [m[k]] else prefix
  }

  /** An entry is among the hits exactly when some key names it. */
  lemma {:induction false} HitsMember(keys: seq<string>, m: map<string, Entry>, e: Entry)
    ensures e in Hits(keys, m) <==> exists k :: k in keys && k in m && m[k] == e
  {
    if keys != [] {
      var p := keys[..|keys| - 1];
      var k := keys[|keys| - 1];
      HitsMember(p, m, e);
      assert keys == p + [k];
      if e in Hits(keys, m) {
        if e !in Hits(p, m) {
          assert k in m && m[k] == e;
        } else {
          var k' :| k' in p && k' in m && m[k'] == e;
          assert k' in keys;
        }
      }
      if exists k' :: k' in keys && k' in m && m[k'] == e {
        var k' :| k' in keys && k' in m && m[k'] == e;
        if k' != k {
          assert k' in p;
        }
      }
    }
  }

  /** What the loop returns for the given candidate keys: the distinct
      entries they name, in order of first mention, cut at `max_count`.
      The cap is checked after each URL line, so when `max_count <= 0` the
      loop stops after the first URL line, keeping its entry if it has one. */
  function Capped(keys: seq<string>, m: map<string, Entry>, maxCount: int): seq<Entry> {
    if maxCount <= 0 then
      if keys != [] && keys[0] in m then [m[keys[0]]] else []
    else Take(Dedup(Hits(keys, m)), maxCount)
  }

  /** The result of `extract_top_entries_from_summary(summary, entries, max_count)`. */
  function TopEntries(summary: string, entries: seq<Entry>, maxCount: int): seq<Entry> {
    match Section(summary)
    case None => []
    case Some(section) => Capped(UrlKeys(SectionLines(section), LineKey), EntryMap(entries, LinkKey), maxCount)
  }

  lemma {:induction false} UrlKeysSnocSome(lines: seq<string>, lineKey: string -> Option<string>, i: nat)
    requires i < |lines| && lineKey(lines[i]).Some?
    ensures UrlKeys(lines[..i + 1], lineKey) == UrlKeys(lines[..i], lineKey) + [lineKey(lines[i]).value]
  {
    UrlKeysSnoc(lines, lineKey, i);
  }

  lemma {:induction false} UrlKeysSnoc(lines: seq<string>, lineKey: string -> Option<string>, i: nat)
    requires i < |lines|
    ensures UrlKeys(lines[..i + 1], lineKey) == match lineKey(lines[i])
                                       case None => UrlKeys(lines[..i], lineKey)
                                       case Some(k) => UrlKeys(lines[..i], lineKey) + [k]
  {
    assert lines[..i + 1][..i] == lines[..i];
  }

  lemma {:induction false} UrlKeysPrefix(lines: seq<string>, lineKey: string -> Option<string>, n: nat)
    requires n <= |lines|
    ensures UrlKeys(lines[..n], lineKey) <= UrlKeys(lines, lineKey)
  {
    if n < |lines| {
      var p := lines[..|lines| - 1];
      UrlKeysPrefix(p, lineKey, n);
      assert p[..n] == lines[..n];
    } else {
      assert lines[..n] == lines;
    }
  }

  lemma HitsSnoc(keys: seq<string>, k: string, m: map<string, Entry>)
    ensures Hits(keys + [k], m) == if k in m then Hits(keys, m) + [m[k]] else Hits(keys, m)
  {
    assert (keys + [k])[..|keys|] == keys;
  }

  lemma {:induction false} HitsPrefix(keys: seq<string>, n: nat, m: map<string, Entry>)
    requires n <= |keys|
    ensures Hits(keys[..n], m) <= Hits(keys, m)
  {
    if n < |keys| {
      var p := keys[..|keys| - 1];
      HitsPrefix(p, n, m);
      assert p[..n] == keys[..n];
    } else {
      assert keys[..n] == keys;
    }
  }

  /** Where the loop stops early: the distinct hits of the first `n` keys
      already fill the cap (or, with a cap of zero or less, one key was read). */
  lemma CappedAtStop(keys: seq<string>, n: nat, m: map<string, Entry>, maxCount: int)
    requires 0 < n <= |keys|
    requires (maxCount >= 1 && |Dedup(Hits(keys[..n], m))| == maxCount) || (maxCount <= 0 && n == 1)
    ensures Capped(keys, m, maxCount) == Dedup(Hits(keys[..n], m))
  {
    if maxCount <= 0 {
      assert keys[..1] == [keys[0]];
      assert keys[..1][..0] == [];
    } else {
      HitsPrefix(keys, n, m);
      var hits := Hits(keys, m);
      var h := |Hits(keys[..n], m)|;
      assert hits[..h] == Hits(keys[..n], m);
      DedupPrefix(hits, h);
    }
  }

  /** Where the loop runs out of lines: every key was read and the cap was
      never reached. */
  lemma CappedAtEnd(keys: seq<string>, m: map<string, Entry>, maxCount: int)
    requires keys == [] || |Dedup(Hits(keys, m))| < maxCount
    ensures Capped(keys, m, maxCount) == Dedup(Hits(keys, m))
  {
  }

  /** One turn of the loop: a line without a URL changes nothing, a line
      whose URL names an entry not yet held appends it. */
  lemma {:induction false} CollectStep(lines: seq<string>, lineKey: string -> Option<string>, i: nat, m: map<string, Entry>, top: seq<Entry>)
    requires i < |lines|
    requires top == Dedup(Hits(UrlKeys(lines[..i], lineKey), m))
    ensures Dedup(Hits(UrlKeys(lines[..i + 1], lineKey), m)) == StepTop(top, lineKey(lines[i]), m)
  {
    UrlKeysSnoc(lines, lineKey, i);
    var before := UrlKeys(lines[..i], lineKey);
    var hits := Hits(before, m);
    match lineKey(lines[i])
    case None =>
    case Some(url) =>
      HitsSnoc(before, url, m);
      if url in m {
        DedupMember(hits, m[url]);
        DedupSnoc(hits, m[url]);
      }
  }

  /** The loop of `extract_top_entries_from_summary` over the section's
      lines: append each newly named entry, stop once `max_count` entries
      are held. */
  method CollectTop(lines: seq<string>, lineKey: string -> Option<string>, entryMap: map<string, Entry>, maxCount: int)
    returns (top: seq<Entry>)
    ensures top == Capped(UrlKeys(lines, lineKey), entryMap, maxCount)
  {
    top := [];
    var i := 0;
    while i < |lines|
      invariant Collecting(lines, lineKey, entryMap, maxCount, i, top)
      decreases |lines| - i
    {
      ghost var top0 := top;
      var found := lineKey(lines[i]);
      if found.Some? {
        var url := found.value;
        if url in entryMap && entryMap[url] !in top {
          top := top + [entryMap[url]];
        }
        if |top| >= maxCount {
          CollectStop(lines, lineKey, i, entryMap, maxCount, top0, top);
          return;
        }
      }
      CollectGo(lines, lineKey, i, entryMap, maxCount, top0, top);
      i := i + 1;
    }
    CollectEnd(lines, lineKey, i, entryMap, maxCount, top);
  }

  /** The loop of `CollectTop` has scanned `lines[..i]` without reaching
      the cap, and holds the distinct hits seen so far. */
  ghost predicate Collecting(lines: seq<string>, lineKey: string -> Option<string>, m: map<string, Entry>, maxCount: int,
                             i: nat, top: seq<Entry>)
  {
    && i <= |lines|
    && top == Dedup(Hits(UrlKeys(lines[..i], lineKey), m))
    && (UrlKeys(lines[..i], lineKey) == [] || |top| < maxCount)
  }

  /** The entry a line adds to `top`, if any. */
  ghost function StepTop(top: seq<Entry>, key: Option<string>, m: map<string, Entry>): seq<Entry>
  {
    match key
    case None => top
    case Some(url) => if url in m && m[url] !in top then top + [m[url]] else top
  }

  /** A turn of the loop that stays under the cap keeps `Collecting`. */
  lemma {:induction false} CollectGo(lines: seq<string>, lineKey: string -> Option<string>, i: nat, m: map<string, Entry>,
                                     maxCount: int, top0: seq<Entry>, top: seq<Entry>)
    requires i < |lines| && Collecting(lines, lineKey, m, maxCount, i, top0)
    requires top == StepTop(top0, lineKey(lines[i]), m)
    requires lineKey(lines[i]).None? || |top| < maxCount
    ensures Collecting(lines, lineKey, m, maxCount, i + 1, top)
  {
    CollectStep(lines, lineKey, i, m, top0);
    UrlKeysSnoc(lines, lineKey, i);
  }

  /** A turn of the loop that reaches the cap has the whole capped selection. */
  lemma {:induction false} CollectStop(lines: seq<string>, lineKey: string -> Option<string>, i: nat, m: map<string, Entry>,
                                       maxCount: int, top0: seq<Entry>, top: seq<Entry>)
    requires i < |lines| && Collecting(lines, lineKey, m, maxCount, i, top0)
    requires lineKey(lines[i]).Some? && top == StepTop(top0, lineKey(lines[i]), m)
    requires |top| >= maxCount
    ensures top == Capped(UrlKeys(lines, lineKey), m, maxCount)
  {
    CollectStep(lines, lineKey, i, m, top0);
    UrlKeysSnocSome(lines, lineKey, i);
    UrlKeysPrefix(lines, lineKey, i + 1);
    StopCapped(UrlKeys(lines, lineKey), UrlKeys(lines[..i], lineKey), lineKey(lines[i]).value, m, maxCount, top0, top);
  }

  /** Stopping at key `k`, right after the keys `before`, selects the whole
      capped selection of `keys`. */
  lemma {:induction false} StopCapped(keys: seq<string>, before: seq<string>, k: string, m: map<string, Entry>, maxCount: int,
                                      top0: seq<Entry>, top: seq<Entry>)
    requires before + [k] <= keys
    requires top0 == Dedup(Hits(before, m)) && (before == [] || |top0| < maxCount)
    requires top == Dedup(Hits(before + [k], m))
    requires top == StepTop(top0, Some(k), m) && |top| >= maxCount
    ensures top == Capped(keys, m, maxCount)
  {
    StopCount(before, k, m, maxCount, top0, top);
    var n := |before + [k]|;
    assert keys[..n] == before + [k];
    CappedAtStop(keys, n, m, maxCount);
  }

  /** The turn that reaches the cap: exactly `maxCount` entries when the cap
      is positive, the very first key otherwise. */
  lemma {:induction false} StopCount(before: seq<string>, k: string, m: map<string, Entry>, maxCount: int,
                                     top0: seq<Entry>, top: seq<Entry>)
    requires top0 == Dedup(Hits(before, m)) && (before == [] || |top0| < maxCount)
    requires top == StepTop(top0, Some(k), m) && |top| >= maxCount
    ensures (maxCount >= 1 && |top| == maxCount) || (maxCount <= 0 && |before + [k]| == 1)
  {
    if before == [] {
      assert Hits(before, m) == [];
      assert top0 == [];
    }
  }

  /** A loop that scanned every line has the whole capped selection. */
  lemma {:induction false} CollectEnd(lines: seq<string>, lineKey: string -> Option<string>, i: nat, m: map<string, Entry>,
                                      maxCount: int, top: seq<Entry>)
    requires Collecting(lines, lineKey, m, maxCount, i, top) && i >= |lines|
    ensures top == Capped(UrlKeys(lines, lineKey), m, maxCount)
  {
    assert lines[..i] == lines;
    CappedAtEnd(UrlKeys(lines, lineKey), m, maxCount);
  }

  /** `extract_top_entries_from_summary(summary, entries, max_count)`. */
  method ExtractTopEntries(summary: string, entries: seq<Entry>, maxCount: int) returns (top: seq<Entry>)
    ensures top == TopEntries(summary, entries, maxCount)
  {
    var section := Section(summary);
    if section.None? {
      return [];
    }
    var entryMap := EntryMap(entries, LinkKey);
    var lines := SectionLines(section.value);
    top := CollectTop(lines, LineKey, entryMap, maxCount);
  }

  /** The capped selection holds no entry twice. */
  lemma CappedDistinct(keys: seq<string>, m: map<string, Entry>, maxCount: int)
    ensures forall i, j :: 0 <= i < j < |Capped(keys, m, maxCount)| ==> Capped(keys, m, maxCount)[i] != Capped(keys, m, maxCount)[j]
  {
    DedupDistinct(Hits(keys, m));
  }

  /** At most `maxCount` entries when the cap is positive, at most one otherwise. */
  lemma CappedBound(keys: seq<string>, m: map<string, Entry>, maxCount: int)
    ensures maxCount >= 1 ==> |Capped(keys, m, maxCount)| <= maxCount
    ensures maxCount <= 0 ==> |Capped(keys, m, maxCount)| <= 1
  {
  }

  /** Every selected entry is the entry of one of the keys. */
  lemma CappedSound(keys: seq<string>, m: map<string, Entry>, maxCount: int, e: Entry)
    requires e in Capped(keys, m, maxCount)
    ensures exists k :: k in keys && k in m && m[k] == e
  {
    if maxCount >= 1 {
      DedupMember(Hits(keys, m), e);
      HitsMember(keys, m, e);
    }
  }

  /** With room for all of them, every entry some key names is selected. */
  lemma CappedComplete(keys: seq<string>, m: map<string, Entry>, maxCount: int, k: string)
    requires maxCount >= |keys| && k in keys && k in m
    ensures m[k] in Capped(keys, m, maxCount)
  {
    HitsMember(keys, m, m[k]);
    DedupMember(Hits(keys, m), m[k]);
  }

  /** The selection lists entries in the order of their first mention. */
  lemma CappedOrder(keys: seq<string>, m: map<string, Entry>, maxCount: int, i: nat, j: nat)
    requires maxCount >= 1 && i < j < |Capped(keys, m, maxCount)|
    ensures Capped(keys, m, maxCount)[i] in Hits(keys, m) && Capped(keys, m, maxCount)[j] in Hits(keys, m)
    ensures FirstIndex(Hits(keys, m), Capped(keys, m, maxCount)[i]) < FirstIndex(Hits(keys, m), Capped(keys, m, maxCount)[j])
  {
    DedupOrder(Hits(keys, m), i, j);
  }

  /** A summary without the heading yields no entries; it is not an error. */
  lemma NoHeadingNoEntries(summary: string, entries: seq<Entry>, maxCount: int)
    requires forall i :: 0 <= i <= |summary| ==> !HeadingAt(summary, i)
    ensures TopEntries(summary, entries, maxCount) == []
  {
  }

  /** Every extracted entry is one of the known entries, and its normalised
      link is a normalised URL read from the section. */
  lemma TopEntriesSound(summary: string, entries: seq<Entry>, maxCount: int, e: Entry)
    requires e in TopEntries(summary, entries, maxCount)
    ensures e in entries
    ensures Section(summary).Some? && LinkKey(e) in UrlKeys(SectionLines(Section(summary).value), LineKey)
  {
    var keys := UrlKeys(SectionLines(Section(summary).value), LineKey);
    var m := EntryMap(entries, LinkKey);
    CappedSound(keys, m, maxCount, e);
    var k :| k in keys && k in m && m[k] == e;
    EntryMapValue(entries, LinkKey, k);
  }

  /** With a cap at least the number of URL lines, every known entry whose
      normalised link is read from the section is extracted. */
  lemma TopEntriesComplete(summary: string, entries: seq<Entry>, maxCount: int, i: nat)
    requires Section(summary).Some? && i < |entries|
    requires LinkKey(entries[i]) in UrlKeys(SectionLines(Section(summary).value), LineKey)
    requires maxCount >= |UrlKeys(SectionLines(Section(summary).value), LineKey)|
    ensures LinkKey(entries[i]) in EntryMap(entries, LinkKey)
            && EntryMap(entries, LinkKey)[LinkKey(entries[i])] in TopEntries(summary, entries, maxCount)
  {
    var keys := UrlKeys(SectionLines(Section(summary).value), LineKey);
    EntryMapHas(entries, LinkKey, i);
    CappedComplete(keys, EntryMap(entries, LinkKey), maxCount, LinkKey(entries[i]));
  }

  /** The extracted list has no duplicates and respects the cap (one entry
      at most when `max_count <= 0`, as the cap is checked after the append). */
  lemma TopEntriesDistinctAndBounded(summary: string, entries: seq<Entry>, maxCount: int)
    ensures forall i, j :: 0 <= i < j < |TopEntries(summary, entries, maxCount)| ==>
              TopEntries(summary, entries, maxCount)[i] != TopEntries(summary, entries, maxCount)[j]
    ensures |TopEntries(summary, entries, maxCount)| <= if maxCount >= 1 then maxCount else 1
  {
    match Section(summary)
    case None =>
    case Some(section) =>
      var keys := UrlKeys(SectionLines(section), LineKey);
      CappedDistinct(keys, EntryMap(entries, LinkKey), maxCount);
      CappedBound(keys, EntryMap(entries, LinkKey), maxCount);
  }
}
