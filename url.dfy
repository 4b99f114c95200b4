/**
 * `normalize_url` of src/response_parser.py and the two library functions it
 * is built from, `urllib.parse.urlparse` and `urlunparse` (as in CPython
 * 3.11). A URL is split into the generic components of section 3 of
 * RFC 3986 (scheme, authority, path, query, fragment) plus Python's
 * `;params`, the part of the last path segment after its first `;`.
 */
module Url {
  import opened Text

  datatype UrlParts = UrlParts(scheme: string, netloc: string, path: string,
                               params: string, query: string, fragment: string)

  predicate IsAsciiLetter(c: char) {
    'a' <= c <= 'z' || 'A' <= c <= 'Z'
  }

  /** `urllib.parse.scheme_chars`. */
  predicate IsSchemeChar(c: char) {
    IsAsciiLetter(c) || '0' <= c <= '9' || c == '+' || c == '-' || c == '.'
  }

  /** `urllib.parse.uses_params`: the schemes whose last path segment may carry `;params`. */
  const UsesParams: set<string> :=
    {"", "ftp", "hdl", "prospero", "http", "imap", "https", "shttp", "rtsp",
     "rtsps", "rtspu", "sip", "sips", "mms", "sftp", "tel"}

  /** `urllib.parse.uses_netloc`: the schemes `urlunsplit` prints with `//`. */
  const UsesNetloc: set<string> :=
    {"", "ftp", "http", "gopher", "nntp", "telnet", "imap", "wais", "file",
     "mms", "https", "shttp", "snews", "prospero", "rtsp", "rtsps", "rtspu",
     "rsync", "svn", "svn+ssh", "sftp", "nfs", "git", "git+ssh", "ws", "wss"}

  /** `url.lstrip(_WHATWG_C0_CONTROL_OR_SPACE)`: every leading character up to U+0020 goes. */
  function LStripControl(s: string): (r: string)
    ensures |r| <= |s| && r == s[|s| - |r|..]
    ensures forall k :: 0 <= k < |s| - |r| ==> s[k] <= ' '
    ensures r == [] || r[0] > ' '
  {
    if s != [] && s[0] <= ' ' then LStripControl(s[1..]) else s
  }

  predicate IsUnsafe(c: char) {
    c == '\t' || c == '\r' || c == '\n'
  }

  /** The removal of `_UNSAFE_URL_BYTES_TO_REMOVE` (tab, CR, LF) anywhere in the URL. */
  function RemoveUnsafe(s: string): (r: string)
    ensures forall i :: 0 <= i < |r| ==> !IsUnsafe(r[i])
  {
    if s == [] then []
    else if IsUnsafe(s[0]) then RemoveUnsafe(s[1..])
    else [s[0]] + RemoveUnsafe(s[1..])
  }

  /** The removal works character by character: the kept characters stay
      in their order. */
  lemma {:induction false} RemoveUnsafeConcat(a: string, b: string)
    ensures RemoveUnsafe(a + b) == RemoveUnsafe(a) + RemoveUnsafe(b)
  {
    if a == [] {
      assert a + b == b;
    } else {
      assert (a + b)[0] == a[0];
      assert (a + b)[1..] == a[1..] + b;
      RemoveUnsafeConcat(a[1..], b);
      if !IsUnsafe(a[0]) {
        assert [a[0]] + (RemoveUnsafe(a[1..]) + RemoveUnsafe(b)) == ([a[0]] + RemoveUnsafe(a[1..])) + RemoveUnsafe(b);
      }
    }
  }

  /** Every character other than tab, CR and LF is kept, as often as it occurs. */
  lemma {:induction false} RemoveUnsafeKeeps(s: string, c: char)
    requires !IsUnsafe(c)
    ensures multiset(RemoveUnsafe(s))[c] == multiset(s)[c]
  {
    if s != [] {
      RemoveUnsafeKeeps(s[1..], c);
      assert s == [s[0]] + s[1..];
      assert multiset(s) == multiset([s[0]]) + multiset(s[1..]);
    }
  }

  predicate IsNetlocEnd(c: char) {
    c == '/' || c == '?' || c == '#'
  }

  /** The first index of `/`, `?` or `#` in `s`, or `|s|`. */
  function FindNetlocEnd(s: string): (i: nat)
    ensures i <= |s|
    ensures forall k :: 0 <= k < i ==> !IsNetlocEnd(s[k])
    ensures i < |s| ==> IsNetlocEnd(s[i])
  {
    if s == [] || IsNetlocEnd(s[0]) then 0 else 1 + FindNetlocEnd(s[1..])
  }

  /** The scheme step of `urlsplit`: a non-empty run of scheme characters
      that starts with an ASCII letter and ends at the first `:` is the
      scheme, lower-cased; otherwise there is no scheme. */
  function SplitScheme(s: string): (r: (string, string))
  {
    var i := Find(s, ':');
    if 0 < i < |s| && IsAsciiLetter(s[0]) && (forall k :: 0 <= k < i ==> IsSchemeChar(s[k]))
    then (LowerAscii(s[..i]), s[i + 1..])
    else ([], s)
  }

  /** `s.split(c, 1)` when `c in s`, and `(s, "")` otherwise. */
  function SplitOnce(s: string, c: char): (r: (string, string))
    ensures c !in r.0
    ensures c in s ==> s == r.0 + [c] + r.1
    ensures c !in s ==> r == (s, [])
  {
    var i := Find(s, c);
    FindAbsent(s, c);
    if i < |s| then
      assert s == s[..i] + [c] + s[i + 1..];
      (s[..i], s[i + 1..])
    else (s, [])
  }

  /** `_splitparams`: the params start after the first `;` that follows the
      last `/` (or after the first `;` when there is no `/`). */
  function SplitParams(url: string): (r: (string, string))
  {
    if '/' in url then
      var j := RFind(url, '/');
      var i := Find(url[j..], ';');
      if j + i < |url| then (url[..j + i], url[j + i + 1..]) else (url, [])
    else
      var i := Find(url, ';');
      if i < |url| then (url[..i], url[i + 1..]) else (url, [])
  }

  /** `urllib.parse.urlparse(url)`: the URL is cleaned, then split. */
  function Parse(url: string): (u: UrlParts)
  {
    SplitUrl(RemoveUnsafe(LStripControl(url)))
  }

  /** The splitting of `urlsplit` and `urlparse` on a cleaned URL: the
      scheme first, then the rest. */
  function SplitUrl(s: string): (u: UrlParts)
  {
    var (scheme, rest) := SplitScheme(s);
    SplitAfterScheme(scheme, rest)
  }

  /** `_splitnetloc` when the rest starts with `//`: the netloc runs up to the
      first `/`, `?` or `#`; otherwise there is no netloc. */
  function SplitNetloc(rest: string): (r: (string, string))
  {
    if |rest| >= 2 && rest[..2] == "//" then
      var d := FindNetlocEnd(rest[2..]);
      (rest[2..2 + d], rest[2 + d..])
    else ([], rest)
  }

  /** After the scheme: the netloc, then the fragment at the first `#`, the
      query at the first `?`, and the params of the path. */
  function SplitAfterScheme(scheme: string, rest: string): (u: UrlParts)
  {
    var (netloc, rest1) := SplitNetloc(rest);
    var (rest2, fragment) := SplitOnce(rest1, '#');
    var (path0, query) := SplitOnce(rest2, '?');
    var (path, params) := if scheme in UsesParams && ';' in path0 then SplitParams(path0) else (path0, []);
    UrlParts(scheme, netloc, path, params, query, fragment)
  }

  /** `urllib.parse.urlunparse(u)`, with the `urlunsplit` of CPython 3.11. */
  function Unparse(u: UrlParts): string
  {
    var url0 := if u.params != [] then u.path + ";" + u.params else u.path;
    var url1 :=
      if u.netloc != [] || (u.scheme != [] && u.scheme in UsesNetloc && !(|url0| >= 2 && url0[..2] == "//"))
      then "//" + u.netloc + (if url0 != [] && url0[0] != '/' then "/" + url0 else url0)
      else url0;
    var url2 := if u.scheme != [] then u.scheme + ":" + url1 else url1;
    var url3 := if u.query != [] then url2 + "?" + u.query else url2;
    if u.fragment != [] then url3 + "#" + u.fragment else url3
  }

  /** `parsed._replace(query="", path=parsed.path.rstrip("/"))`: the query is
      dropped and every trailing `/` of the path is cut; nothing else changes. */
  function Normalize(u: UrlParts): (r: UrlParts)
    ensures r == u.(path := r.path, query := [])
    ensures |r.path| <= |u.path| && r.path == u.path[..|r.path|]
    ensures forall i :: |r.path| <= i < |u.path| ==> u.path[i] == '/'
    ensures r.path == [] || r.path[|r.path| - 1] != '/'
  {
    u.(query := [], path := RStripChar(u.path, '/'))
  }

  /** `normalize_url(url)` (src/response_parser.py). */
  function NormalizeUrl(url: string): string
  {
    Unparse(Normalize(Parse(url)))
  }

  /** On components, normalising twice is normalising once. */
  lemma NormalizeIdempotent(u: UrlParts)
    ensures Normalize(Normalize(u)) == Normalize(u)
  {
    var n := Normalize(u);
    assert RStripChar(n.path, '/') == n.path;
  }

  lemma RemoveUnsafeNoop(s: string)
    requires forall i :: 0 <= i < |s| ==> !IsUnsafe(s[i])
    ensures RemoveUnsafe(s) == s
  {
    if s != [] {
      RemoveUnsafeNoop(s[1..]);
    }
  }

  /** How `urlparse` reads a relative reference: a path without `:`, `?`,
      `#`, tab, CR or LF that does not start with a control character or
      with `//` is all path, split at `;` for params. */
  lemma ParsePlainPath(s: string)
    requires s != [] && s[0] > ' ' && s[0] != ':'
    requires forall i :: 0 <= i < |s| ==> !IsUnsafe(s[i]) && s[i] != ':' && s[i] != '?' && s[i] != '#'
    requires !(|s| >= 2 && s[0] == '/' && s[1] == '/')

    ensures Parse(s) == (if ';' in s then var (p, q) := SplitParams(s); UrlParts([], [], p, q, [], [])
                         else UrlParts([], [], s, [], [], []))
  {
    RemoveUnsafeNoop(s);
    assert LStripControl(s) == s;
    FindAbsent(s, ':');
    assert SplitScheme(s) == ([], s);
    assert '#' !in s && '?' !in s;
  }

  lemma ParseSlashSemiXSlash()
    ensures Parse("/;x/") == UrlParts([], [], "/;x/", [], [], [])
  {
    ParsePlainPath("/;x/");
    SplitParamsSlashSemiXSlash();
  }

  lemma SplitParamsSlashSemiXSlash()
    ensures SplitParams("/;x/") == ("/;x/", [])
  {
    var b := "/;x/";
    assert RFind(b, '/') == 3;
    assert b[3..] == "/";
    assert Find(b[3..], ';') == 1;
  }

  lemma ParseSlashSemiX()
    ensures Parse("/;x") == UrlParts([], [], "/", "x", [], [])
  {
    ParsePlainPath("/;x");
    SplitParamsSlashSemiX();
  }

  lemma SplitParamsSlashSemiX()
    ensures SplitParams("/;x") == ("/", "x")
  {
    var b := "/;x";
    assert RFind(b, '/') == 0 by { assert RFind(b[..2], '/') == 0; }
    assert b[0..] == b;
    assert Find(b, ';') == 1;
    assert b[..1] == "/" && b[2..] == "x";
  }

  lemma NormalizeSlashSemiXSlash()
    ensures NormalizeUrl("/;x/") == "/;x"
  {
    NormalizeParsedSlashSemiXSlash();
    UnparseSlashSemiX();
  }

  lemma NormalizeParsedSlashSemiXSlash()
    ensures Normalize(Parse("/;x/")) == UrlParts([], [], "/;x", [], [], [])
  {
    ParseSlashSemiXSlash();
    NormalizePathSemiXSlash(Parse("/;x/"));
  }

  lemma NormalizePathSemiXSlash(u: UrlParts)
    requires u == UrlParts([], [], "/;x/", [], [], [])
    ensures Normalize(u) == UrlParts([], [], "/;x", [], [], [])
  {
    var r := Normalize(u);
    assert |r.path| == 3 by {
      assert |r.path| <= 4;
      assert u.path[3] == '/' && u.path[2] != '/';
    }
    assert r.path == "/;x";
  }

  lemma UnparseSlashSemiX()
    ensures Unparse(UrlParts([], [], "/;x", [], [], [])) == "/;x"
  {
  }

  lemma NormalizeSlashSemiX()
    ensures NormalizeUrl("/;x") == ";x"
  {
    NormalizeParsedSlashSemiX();
    UnparseSemiX();
  }

  lemma NormalizeParsedSlashSemiX()
    ensures Normalize(Parse("/;x")) == UrlParts([], [], [], "x", [], [])
  {
    ParseSlashSemiX();
    NormalizePathSlash(Parse("/;x"));
  }

  lemma NormalizePathSlash(u: UrlParts)
    requires u == UrlParts([], [], "/", "x", [], [])
    ensures Normalize(u) == UrlParts([], [], [], "x", [], [])
  {
    assert RStripChar("/", '/') == [];
  }

  lemma UnparseSemiX()
    ensures Unparse(UrlParts([], [], [], "x", [], [])) == ";x"
  {
  }

  /** `s.split(c, 1)` on a string whose first `c` follows `a`. */
  lemma SplitOnceAt(a: string, c: char, b: string)
    requires c !in a
    ensures SplitOnce(a + [c] + b, c) == (a, b)
  {
    var s := a + [c] + b;
    assert s[..|a|] == a;
    FindAt(s, c, |a|);
    assert s[|a| + 1..] == b;
  }

  /** The first `c` is at `n` when `s[n]` is `c` and none comes before it. */
  lemma {:induction false} FindAt(s: string, c: char, n: nat)
    requires n < |s| && s[n] == c && c !in s[..n]
    ensures Find(s, c) == n
  {
    if n > 0 {
      assert s[0] == s[..n][0];
      assert s[1..][..n - 1] == s[..n][1..];
      FindAt(s[1..], c, n - 1);
    }
  }

  /** The schemes the extractor's URL pattern admits. */
  predicate IsWebScheme(scheme: string) {
    scheme == "http" || scheme == "https"
  }

  /** A netloc as `_splitnetloc` delimits it: non-empty, with no `/`, `?`,
      `#`, tab, CR or LF. */
  predicate IsPlainNetloc(netloc: string) {
    netloc != [] && forall i :: 0 <= i < |netloc| ==> !IsNetlocEnd(netloc[i]) && !IsUnsafe(netloc[i])
  }

  /** An absolute path that `urlparse` keeps whole: empty or starting with
      `/`, with no `?`, `#`, `;`, tab, CR or LF. */
  predicate IsPlainPath(path: string) {
    (path == [] || path[0] == '/')
    && forall i :: 0 <= i < |path| ==> path[i] != '?' && path[i] != '#' && path[i] != ';' && !IsUnsafe(path[i])
  }

  /** A query `urlparse` keeps whole: no `#`, tab, CR or LF. */
  predicate IsPlainQuery(query: string) {
    forall i :: 0 <= i < |query| ==> query[i] != '#' && !IsUnsafe(query[i])
  }

  lemma SplitSchemeWeb(scheme: string, rest: string)
    requires IsWebScheme(scheme)
    ensures SplitScheme(scheme + ":" + rest) == (scheme, rest)
  {
    var s := scheme + ":" + rest;
    assert ':' !in scheme;
    assert Find(s, ':') == |scheme| by {
      assert s[|scheme|] == ':';
      assert s[..|scheme|] == scheme;
    }
    assert s[..|scheme|] == scheme && s[|scheme| + 1..] == rest;
    assert LowerAscii(scheme) == scheme;
  }

  lemma FindNetlocEndAt(netloc: string, tail: string)
    requires forall i :: 0 <= i < |netloc| ==> !IsNetlocEnd(netloc[i])
    requires tail == [] || IsNetlocEnd(tail[0])
    ensures FindNetlocEnd(netloc + tail) == |netloc|
  {
    var s := netloc + tail;
    assert forall k :: 0 <= k < |netloc| ==> s[k] == netloc[k];
    assert tail != [] ==> s[|netloc|] == tail[0];
  }

  lemma SplitNetlocAt(netloc: string, tail: string)
    requires forall i :: 0 <= i < |netloc| ==> !IsNetlocEnd(netloc[i])
    requires tail == [] || IsNetlocEnd(tail[0])
    ensures SplitNetloc("//" + netloc + tail) == (netloc, tail)
  {
    var rest := "//" + netloc + tail;
    assert rest[..2] == "//" && rest[2..] == netloc + tail;
    FindNetlocEndAt(netloc, tail);
    assert rest[2..2 + |netloc|] == netloc && rest[2 + |netloc|..] == tail;
  }

  /** A URL with no leading control character and no tab, CR or LF is left
      as it is by the cleaning step of `urlsplit`. */
  lemma CleanNoop(url: string)
    requires url != [] && url[0] > ' '
    requires forall i :: 0 <= i < |url| ==> !IsUnsafe(url[i])
    ensures RemoveUnsafe(LStripControl(url)) == url
  {
    RemoveUnsafeNoop(url);
  }

  /** `urlparse` of `scheme://netloc` followed by a tail that has no `#` and
      starts at the end of the netloc: the tail splits at its first `?`
      into path and query. */
  lemma ParseWeb(scheme: string, netloc: string, tail: string, path: string, query: string)
    requires IsWebScheme(scheme) && IsPlainNetloc(netloc)
    requires tail == [] || tail[0] == '/' || tail[0] == '?'
    requires forall i :: 0 <= i < |tail| ==> tail[i] != '#' && !IsUnsafe(tail[i])
    requires SplitOnce(tail, '?') == (path, query) && ';' !in path
    ensures Parse(scheme + "://" + netloc + tail) == UrlParts(scheme, netloc, path, [], query, [])
  {
    var rest := "//" + netloc + tail;
    var url := scheme + "://" + netloc + tail;
    WebHead(scheme);
    CleanNoop3(scheme + "://", netloc, tail);
    ParseClean(url);
    WebUrlShape(scheme, netloc, tail);
    SplitUrlWeb(scheme, rest);
    SplitAfterWeb(scheme, netloc, tail, path, query);
  }

  lemma WebUrlShape(scheme: string, netloc: string, tail: string)
    ensures scheme + "://" + netloc + tail == scheme + ":" + ("//" + netloc + tail)
  {
  }

  lemma ParseClean(url: string)
    requires RemoveUnsafe(LStripControl(url)) == url
    ensures Parse(url) == SplitUrl(url)
  {
  }

  lemma SplitUrlWeb(scheme: string, rest: string)
    requires IsWebScheme(scheme)
    ensures SplitUrl(scheme + ":" + rest) == SplitAfterScheme(scheme, rest)
  {
    SplitSchemeWeb(scheme, rest);
  }

  lemma WebHead(scheme: string)
    requires IsWebScheme(scheme)
    ensures var head := scheme + "://";
            head[0] > ' ' && forall i :: 0 <= i < |head| ==> !IsUnsafe(head[i])
  {
  }

  /** The cleaning step leaves three unsafe-free pieces as they are when the
      first does not start with a control character. */
  lemma CleanNoop3(head: string, netloc: string, tail: string)
    requires head != [] && head[0] > ' '
    requires forall i :: 0 <= i < |head| ==> !IsUnsafe(head[i])
    requires forall i :: 0 <= i < |netloc| ==> !IsUnsafe(netloc[i])
    requires forall i :: 0 <= i < |tail| ==> !IsUnsafe(tail[i])
    ensures RemoveUnsafe(LStripControl(head + netloc + tail)) == head + netloc + tail
  {
    var url := head + netloc + tail;
    assert url[0] == head[0];
    assert LStripControl(url) == url;
    RemoveUnsafeConcat(head + netloc, tail);
    RemoveUnsafeConcat(head, netloc);
    RemoveUnsafeNoop(head);
    RemoveUnsafeNoop(netloc);
    RemoveUnsafeNoop(tail);
  }

  lemma SplitAfterWeb(scheme: string, netloc: string, tail: string, path: string, query: string)
    requires IsWebScheme(scheme) && IsPlainNetloc(netloc)
    requires tail == [] || tail[0] == '/' || tail[0] == '?'
    requires forall i :: 0 <= i < |tail| ==> tail[i] != '#'
    requires SplitOnce(tail, '?') == (path, query) && ';' !in path
    ensures SplitAfterScheme(scheme, "//" + netloc + tail) == UrlParts(scheme, netloc, path, [], query, [])
  {
    SplitNetlocAt(netloc, tail);
    FindAbsent(tail, '#');
    assert SplitOnce(tail, '#') == (tail, []);
    assert scheme in UsesParams;
  }

  /** `urlparse("scheme://netloc" + path + "?" + query)`. */
  lemma ParseAbsoluteQuery(scheme: string, netloc: string, path: string, query: string)
    requires IsWebScheme(scheme) && IsPlainNetloc(netloc) && IsPlainPath(path) && IsPlainQuery(query)
    ensures Parse(scheme + "://" + netloc + path + "?" + query) == UrlParts(scheme, netloc, path, [], query, [])
  {
    var tail := path + "?" + query;
    assert scheme + "://" + netloc + path + "?" + query == scheme + "://" + netloc + tail;
    assert '?' !in path && ';' !in path;
    SplitOnceAt(path, '?', query);
    assert forall i :: 0 <= i < |tail| ==> tail[i] != '#' && !IsUnsafe(tail[i]) by {
      forall i | 0 <= i < |tail|
        ensures tail[i] != '#' && !IsUnsafe(tail[i])
      {
        if i < |path| { assert tail[i] == path[i]; }
        else if i > |path| { assert tail[i] == query[i - |path| - 1]; }
      }
    }
    ParseWeb(scheme, netloc, tail, path, query);
  }

  /** `urlparse("scheme://netloc" + path)`. */
  lemma ParseAbsolute(scheme: string, netloc: string, path: string)
    requires IsWebScheme(scheme) && IsPlainNetloc(netloc) && IsPlainPath(path)
    ensures Parse(scheme + "://" + netloc + path) == UrlParts(scheme, netloc, path, [], [], [])
  {
    FindAbsent(path, '?');
    assert '?' !in path && ';' !in path;
    ParseWeb(scheme, netloc, path, path, []);
  }

  /** `urlunparse` of a web URL with neither params, query nor fragment
      rebuilds `scheme://netloc` followed by the path. */
  lemma UnparseAbsolute(scheme: string, netloc: string, path: string)
    requires IsWebScheme(scheme) && netloc != [] && (path == [] || path[0] == '/')
    ensures Unparse(UrlParts(scheme, netloc, path, [], [], [])) == scheme + "://" + netloc + path
  {
    var url1 := "//" + netloc + path;
    assert scheme + ":" + url1 == scheme + "://" + netloc + path;
  }

  /** `normalize_url` of an absolute web URL with a query: the query goes and
      every trailing `/` of the path is cut. */
  lemma NormalizeUrlAbsoluteQuery(scheme: string, netloc: string, path: string, query: string)
    requires IsWebScheme(scheme) && IsPlainNetloc(netloc) && IsPlainPath(path) && IsPlainQuery(query)
    ensures NormalizeUrl(scheme + "://" + netloc + path + "?" + query)
            == scheme + "://" + netloc + RStripChar(path, '/')
  {
    ParseAbsoluteQuery(scheme, netloc, path, query);
    var p := RStripChar(path, '/');
    assert Normalize(UrlParts(scheme, netloc, path, [], query, [])) == UrlParts(scheme, netloc, p, [], [], []);
    UnparseAbsolute(scheme, netloc, p);
  }

  /** `normalize_url` of an absolute web URL without a query: every trailing
      `/` of the path is cut. */
  lemma NormalizeUrlAbsolute(scheme: string, netloc: string, path: string)
    requires IsWebScheme(scheme) && IsPlainNetloc(netloc) && IsPlainPath(path)
    ensures NormalizeUrl(scheme + "://" + netloc + path) == scheme + "://" + netloc + RStripChar(path, '/')
  {
    ParseAbsolute(scheme, netloc, path);
    var p := RStripChar(path, '/');
    assert Normalize(UrlParts(scheme, netloc, path, [], [], [])) == UrlParts(scheme, netloc, p, [], [], []);
    UnparseAbsolute(scheme, netloc, p);
  }

  /** The matching `normalize_url` exists for: a web URL with a query
      shares its key with the same URL without it. */
  lemma NormalizeUrlDropsQuery(scheme: string, netloc: string, path: string, query: string)
    requires IsWebScheme(scheme) && IsPlainNetloc(netloc) && IsPlainPath(path) && IsPlainQuery(query)
    ensures NormalizeUrl(scheme + "://" + netloc + path + "?" + query) == NormalizeUrl(scheme + "://" + netloc + path)
  {
    NormalizeUrlAbsoluteQuery(scheme, netloc, path, query);
    NormalizeUrlAbsolute(scheme, netloc, path);
  }

  /** ... and a web URL with trailing slashes shares its key with the same
      URL without them. */
  lemma NormalizeUrlDropsSlashes(scheme: string, netloc: string, path: string, slashes: nat)
    requires IsWebScheme(scheme) && IsPlainNetloc(netloc) && IsPlainPath(path) && path != []
    ensures NormalizeUrl(scheme + "://" + netloc + path + Slashes(slashes)) == NormalizeUrl(scheme + "://" + netloc + path)
  {
    var longer := path + Slashes(slashes);
    PlainPathSlashes(path, slashes);
    assert scheme + "://" + netloc + path + Slashes(slashes) == scheme + "://" + netloc + longer;
    NormalizeUrlAbsolute(scheme, netloc, longer);
    RStripSlashes(path, slashes);
    NormalizeUrlAbsolute(scheme, netloc, path);
  }

  lemma PlainPathSlashes(path: string, slashes: nat)
    requires IsPlainPath(path) && path != []
    ensures IsPlainPath(path + Slashes(slashes))
  {
    var longer := path + Slashes(slashes);
    forall i | 0 <= i < |longer|
      ensures longer[i] != '?' && longer[i] != '#' && longer[i] != ';' && !IsUnsafe(longer[i])
    {
      if i < |path| { assert longer[i] == path[i]; } else { assert longer[i] == Slashes(slashes)[i - |path|]; }
    }
  }

  /** A worked key: a link with a trailing `/` and a query, and the bare
      link, both normalise to `http://x.com/a`. */
  lemma NormalizeUrlExample()
    ensures NormalizeUrl("http://x.com/a/?q=1") == "http://x.com/a"
    ensures NormalizeUrl("http://x.com/a") == "http://x.com/a"
  {
    ExampleParts();
    NormalizeUrlAbsoluteQuery("http", "x.com", "/a/", "q=1");
    NormalizeUrlAbsolute("http", "x.com", "/a");
  }

  lemma ExampleParts()
    ensures IsWebScheme("http") && IsPlainNetloc("x.com") && IsPlainQuery("q=1")
    ensures IsPlainPath("/a/") && IsPlainPath("/a")
    ensures "http://x.com/a/?q=1" == "http" + "://" + "x.com" + "/a/" + "?" + "q=1"
    ensures "http://x.com/a" == "http" + "://" + "x.com" + "/a"
    ensures RStripChar("/a/", '/') == "/a" && RStripChar("/a", '/') == "/a"
  {
    assert "/a/"[..2] == "/a";
  }

  /** `n` slashes. */
  function Slashes(n: nat): (r: string)
    ensures |r| == n && forall i :: 0 <= i < n ==> r[i] == '/'
  {
    if n == 0 then [] else Slashes(n - 1) + "/"
  }

  lemma {:induction false} RStripSlashes(path: string, n: nat)
    ensures RStripChar(path + Slashes(n), '/') == RStripChar(path, '/')
  {
    if n > 0 {
      var s := path + Slashes(n);
      assert s[..|s| - 1] == path + Slashes(n - 1);
      RStripSlashes(path, n - 1);
    } else {
      assert path + Slashes(n) == path;
    }
  }

  /** On absolute web URLs `normalize_url` is idempotent: its result is again
      such a URL, with no query and no trailing `/`. */
  lemma NormalizeUrlAbsoluteIdempotent(scheme: string, netloc: string, path: string, query: string)
    requires IsWebScheme(scheme) && IsPlainNetloc(netloc) && IsPlainPath(path) && IsPlainQuery(query)
    ensures NormalizeUrl(NormalizeUrl(scheme + "://" + netloc + path + "?" + query))
            == NormalizeUrl(scheme + "://" + netloc + path + "?" + query)
    ensures NormalizeUrl(NormalizeUrl(scheme + "://" + netloc + path)) == NormalizeUrl(scheme + "://" + netloc + path)
  {
    NormalizeUrlAbsoluteQuery(scheme, netloc, path, query);
    NormalizeUrlAbsolute(scheme, netloc, path);
    var p := RStripChar(path, '/');
    assert IsPlainPath(p) by {
      forall i | 0 <= i < |p|
        ensures p[i] != '?' && p[i] != '#' && p[i] != ';' && !IsUnsafe(p[i])
      {
        assert p[i] == path[i];
      }
    }
    NormalizeUrlAbsolute(scheme, netloc, p);
    assert RStripChar(p, '/') == p;
  }

  /** On strings it is not: the first pass cuts `/;x/` to `/;x`, which a
      second parse reads as the path `/` with params `x`; the second pass
      then cuts that `/` too. */
  lemma NormalizeUrlNotIdempotent()
    ensures NormalizeUrl("/;x/") == "/;x"
    ensures NormalizeUrl(NormalizeUrl("/;x/")) == ";x"
  {
    NormalizeSlashSemiXSlash();
    NormalizeSlashSemiX();
  }
}
