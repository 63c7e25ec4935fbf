/**
 * The part of the URL Standard's basic URL parser (WHATWG URL Standard,
 * section 4.4 "URL parsing") that decides `new URL(input).pathname` for an
 * input parsed without a base URL: `None` is a parse failure (the
 * constructor throws), `Some(p)` the pathname. The pathname never holds the
 * query or the fragment.
 */
module Url {
  import opened Wrappers
  import opened Strings

  /** A C0 control or space (U+0000 to U+0020), trimmed from both ends of the input. */
  predicate IsC0ControlOrSpace(c: char) {
    c <= ' '
  }

  /** An ASCII tab or newline, removed from anywhere in the input. */
  predicate IsTabOrNewline(c: char) {
    c == '\t' || c == '\n' || c == '\r'
  }

  function TrimStart(s: string): (r: string)
    ensures |r| <= |s| && r == s[|s| - |r|..]
    ensures r == [] || !IsC0ControlOrSpace(r[0])
  {
    if |s| > 0 && IsC0ControlOrSpace(s[0]) then TrimStart(s[1..]) else s
  }

  function TrimEnd(s: string): (r: string)
    ensures |r| <= |s| && r == s[..|r|]
    ensures r == [] || !IsC0ControlOrSpace(r[|r| - 1])
  {
    if |s| > 0 && IsC0ControlOrSpace(s[|s| - 1]) then TrimEnd(s[..|s| - 1]) else s
  }

  function RemoveTabsAndNewlines(s: string): (r: string)
    ensures |r| <= |s|
    ensures forall i :: 0 <= i < |r| ==> !IsTabOrNewline(r[i])
  {
    if s == [] then []
    else (if IsTabOrNewline(s[0]) then [] else [s[0]]) + RemoveTabsAndNewlines(s[1..])
  }

  /** The input as the parser reads it. */
  function Clean(url: string): string {
    RemoveTabsAndNewlines(TrimEnd(TrimStart(url)))
  }

  /** The index of the first character of `s` in `stops`, or `|s|` when there is none. */
  function FirstIndexOf(s: string, stops: set<char>): (k: nat)
    ensures k <= |s|
    ensures forall i :: 0 <= i < k ==> s[i] !in stops
    ensures k < |s| ==> s[k] in stops
  {
    if s == [] || s[0] in stops then 0 else 1 + FirstIndexOf(s[1..], stops)
  }

  /** Everything before the query (`?`) and the fragment (`#`). */
  function Head(s: string): (h: string)
    ensures '?' !in h && '#' !in h
    ensures |h| <= |s| && h == s[..|h|]
    ensures |h| < |s| ==> s[|h|] == '?' || s[|h|] == '#'
  {
    s[..FirstIndexOf(s, {'?', '#'})]
  }

  predicate IsAsciiAlpha(c: char) {
    'a' <= c <= 'z' || 'A' <= c <= 'Z'
  }

  predicate IsSchemeChar(c: char) {
    IsAsciiAlpha(c) || '0' <= c <= '9' || c == '+' || c == '-' || c == '.'
  }

  function SchemeRunLength(s: string): (k: nat)
    ensures k <= |s|
    ensures forall i :: 0 <= i < k ==> IsSchemeChar(s[i])
    ensures k < |s| ==> !IsSchemeChar(s[k])
  {
    if s == [] || !IsSchemeChar(s[0]) then 0 else 1 + SchemeRunLength(s[1..])
  }

  /**
   * The lower-cased scheme and what follows its colon. Without a base URL an
   * input that does not start with a scheme fails to parse.
   */
  function SplitScheme(h: string): (r: Option<(string, string)>)
    ensures r.Some? ==> |r.value.1| < |h| && r.value.1 == h[|h| - |r.value.1|..]
  {
    var k := SchemeRunLength(h);
    if 0 < k < |h| && IsAsciiAlpha(h[0]) && h[k] == ':' then Some((ToLower(h[..k]), h[k + 1..]))
    else None
  }

  const SpecialSchemes: set<string> := {"ftp", "file", "http", "https", "ws", "wss"}

  /** In a special URL a backslash separates path segments like a slash. */
  function BackslashesToSlashes(s: string): (r: string)
    ensures |r| == |s|
    ensures forall i :: 0 <= i < |s| ==> r[i] == if s[i] == '\\' then '/' else s[i]
    ensures ('?' in r <==> '?' in s) && ('#' in r <==> '#' in s)
  {
    if s == [] then [] else [if s[0] == '\\' then '/' else s[0]] + BackslashesToSlashes(s[1..])
  }

  function LeadingSlashes(s: string): (k: nat)
    ensures k <= |s|
    ensures forall i :: 0 <= i < k ==> s[i] == '/'
    ensures k < |s| ==> s[k] != '/'
  {
    if s == [] || s[0] != '/' then 0 else 1 + LeadingSlashes(s[1..])
  }

  /** A special URL's path is never empty: it is at least `/`. */
  function NonEmptyPath(p: string): string {
    if p == "" then "/" else p
  }

  /** The pathname of a `file:` URL, given what follows `file:` (slashes already normalised). */
  function FilePathname(rest: string): string {
    if StartsWith(rest, "//") then
      var authority := rest[2..];
      NonEmptyPath(authority[FirstIndexOf(authority, {'/'})..])
    else if StartsWith(rest, "/") then rest
    else "/" + rest
  }

  /**
   * The pathname of an input that has been cleaned and cut before its query.
   * A special URL other than `file:` skips any run of slashes after the
   * colon and needs a non-empty host; a non-special URL either has an
   * authority after `//` or an opaque path.
   */
  function ParseHead(h: string): Option<string> {
    match SplitScheme(h)
    case None => None
    case Some((scheme, rest)) =>
      if scheme == "file" then Some(FilePathname(BackslashesToSlashes(rest)))
      else if scheme in SpecialSchemes then
        var slashed := BackslashesToSlashes(rest);
        var authority := slashed[LeadingSlashes(slashed)..];
        var hostEnd := FirstIndexOf(authority, {'/'});
        if hostEnd == 0 then None else Some(NonEmptyPath(authority[hostEnd..]))
      else if StartsWith(rest, "//") then
        var authority := rest[2..];
        Some(authority[FirstIndexOf(authority, {'/'})..])
      else Some(rest)
  }

  /** `new URL(url).pathname`, or `None` when the constructor throws. */
  function ParsePathname(url: string): (r: Option<string>)
    ensures r.Some? ==> '?' !in r.value && '#' !in r.value
  {
    var h := Head(Clean(url));
    var r := ParseHead(h);
    assert r.Some? ==> '?' !in r.value && '#' !in r.value by {
      if r.Some? {
        PathnameWithin(h);
      }
    }
    r
  }

  /** The pathname is built from characters of the head, and a `/`. */
  lemma PathnameWithin(h: string)
    requires '?' !in h && '#' !in h
    ensures ParseHead(h).Some? ==> '?' !in ParseHead(h).value && '#' !in ParseHead(h).value
  {
    match SplitScheme(h)
    case None =>
    case Some((scheme, rest)) =>
      assert '?' !in rest && '#' !in rest;
      var slashed := BackslashesToSlashes(rest);
      if scheme == "file" {
        if StartsWith(slashed, "//") {
          var authority := slashed[2..];
          assert '?' !in authority && '#' !in authority;
          var path := authority[FirstIndexOf(authority, {'/'})..];
          assert '?' !in path && '#' !in path;
        }
      } else if scheme in SpecialSchemes {
        var authority := slashed[LeadingSlashes(slashed)..];
        assert '?' !in authority && '#' !in authority;
        var path := authority[FirstIndexOf(authority, {'/'})..];
        assert '?' !in path && '#' !in path;
      } else if StartsWith(rest, "//") {
        var authority := rest[2..];
        assert '?' !in authority && '#' !in authority;
        var path := authority[FirstIndexOf(authority, {'/'})..];
        assert '?' !in path && '#' !in path;
      }
  }

  /** No character of `s` is a C0 control or a space. */
  predicate Unspaced(s: string) {
    forall i :: 0 <= i < |s| ==> !IsC0ControlOrSpace(s[i])
  }

  lemma {:induction false} TrimEndAppend(a: string, b: string)
    requires |a| > 0 && !IsC0ControlOrSpace(a[|a| - 1])
    ensures TrimEnd(a + b) == a + TrimEnd(b)
    decreases |b|
  {
    if |b| > 0 && IsC0ControlOrSpace(b[|b| - 1]) {
      assert (a + b)[..|a + b| - 1] == a + b[..|b| - 1];
      TrimEndAppend(a, b[..|b| - 1]);
    } else if |b| == 0 {
      assert a + b == a;
    }
  }

  lemma {:induction false} RemoveAppend(a: string, b: string)
    ensures RemoveTabsAndNewlines(a + b) == RemoveTabsAndNewlines(a) + RemoveTabsAndNewlines(b)
    decreases |a|
  {
    if a == [] {
      assert a + b == b;
    } else {
      assert (a + b)[1..] == a[1..] + b;
      RemoveAppend(a[1..], b);
    }
  }

  lemma {:induction false} RemoveUnspaced(a: string)
    requires Unspaced(a)
    ensures RemoveTabsAndNewlines(a) == a
    decreases |a|
  {
    if a != [] {
      RemoveUnspaced(a[1..]);
    }
  }

  /** An input without spaces or controls at either end or inside reads as written. */
  lemma CleanUnspaced(u: string)
    requires Unspaced(u)
    ensures Clean(u) == u
  {
    RemoveUnspaced(u);
  }

  /** An input with no spaces, controls, query or fragment is parsed as written. */
  lemma PlainInput(u: string)
    requires Unspaced(u) && '?' !in u && '#' !in u
    ensures ParsePathname(u) == ParseHead(u)
  {
    CleanUnspaced(u);
    HeadStops(u, '?', "");
  }

  lemma HeadStops(u: string, c: char, rest: string)
    requires '?' !in u && '#' !in u
    requires c == '?' || c == '#'
    ensures Head(u + [c] + rest) == u && Head(u) == u
  {
    var s := u + [c] + rest;
    assert s[|u|] == c;
    assert s[..|u|] == u;
  }

  /** C0 controls and spaces are trimmed from the start only up to the first other character. */
  lemma {:induction false} TrimStartAppend(a: string, b: string)
    requires |a| > 0 && !IsC0ControlOrSpace(a[|a| - 1])
    ensures TrimStart(a + b) == TrimStart(a) + b
    decreases |a|
  {
    if IsC0ControlOrSpace(a[0]) {
      assert (a + b)[1..] == a[1..] + b;
      TrimStartAppend(a[1..], b);
    }
  }

  /** A string whose last character is not trimmed loses nothing at its end. */
  predicate EndsUntrimmed(u: string) {
    |u| > 0 ==> !IsC0ControlOrSpace(u[|u| - 1])
  }

  /**
   * Appending a query or a fragment to a URL that has neither, and that does
   * not end in a space or a control character, leaves its pathname, and
   * whether it parses at all, unchanged. Spaces and controls elsewhere are
   * trimmed or removed alike with or without the suffix.
   */
  lemma QueryIrrelevant(u: string, c: char, q: string)
    requires EndsUntrimmed(u) && '?' !in u && '#' !in u
    requires c == '?' || c == '#'
    ensures ParsePathname(u + [c] + q) == ParsePathname(u)
  {
    var tail := CleanBeforeQuery(u, c, q);
    CleanKeepsOut(u, '?');
    CleanKeepsOut(u, '#');
    HeadStops(Clean(u), c, tail);
  }

  /** Cleaning a URL followed by a query cleans the two parts apart. */
  lemma CleanBeforeQuery(u: string, c: char, q: string) returns (tail: string)
    requires EndsUntrimmed(u)
    requires c == '?' || c == '#'
    ensures Clean(u + [c] + q) == Clean(u) + [c] + tail
  {
    var v := TrimStart(u);
    var x := TrimEnd(TrimStart(u + [c] + q));
    assert x == v + [c] + TrimEnd(q) && TrimEnd(v) == v by {
      TrimBeforeQuery(u, c, q);
    }
    tail := RemoveTabsAndNewlines(TrimEnd(q));
    assert RemoveTabsAndNewlines(x) == RemoveTabsAndNewlines(v) + [c] + tail by {
      RemoveAround(v, c, TrimEnd(q));
    }
  }

  lemma RemoveAround(v: string, c: char, w: string)
    requires !IsTabOrNewline(c)
    ensures RemoveTabsAndNewlines(v + [c] + w) == RemoveTabsAndNewlines(v) + [c] + RemoveTabsAndNewlines(w)
  {
    RemoveAppend(v + [c], w);
    RemoveAppend(v, [c]);
  }

  /** Cleaning only drops characters, so a cleaned URL without a query or fragment still has neither. */
  lemma CleanKeepsOut(u: string, x: char)
    requires x !in u
    ensures x !in Clean(u)
  {
    TrimStartKeepsOut(u, x);
    var t := TrimEnd(TrimStart(u));
    forall i | 0 <= i < |t| ensures t[i] != x {
      assert t[i] == TrimStart(u)[i];
    }
    RemoveKeepsOut(t, x);
  }

  /** Trimming a URL followed by a query trims the start of the URL and the end of the query. */
  lemma TrimBeforeQuery(u: string, c: char, q: string)
    requires EndsUntrimmed(u)
    requires c == '?' || c == '#'
    ensures TrimEnd(TrimStart(u + [c] + q)) == TrimStart(u) + [c] + TrimEnd(q)
    ensures TrimEnd(TrimStart(u)) == TrimStart(u)
  {
    var v := TrimStart(u);
    assert TrimStart(u + [c]) == v + [c] by {
      if |u| > 0 {
        TrimStartAppend(u, [c]);
      }
    }
    assert TrimStart(u + [c] + q) == v + [c] + q by {
      TrimStartAppend(u + [c], q);
    }
    assert TrimEnd(v + [c] + q) == v + [c] + TrimEnd(q) by {
      TrimEndAppend(v + [c], q);
    }
    assert TrimEnd(v) == v by {
      if |v| > 0 {
        assert v[|v| - 1] == u[|u| - 1];
      }
    }
  }

  lemma TrimStartKeepsOut(u: string, x: char)
    requires x !in u
    ensures x !in TrimStart(u)
  {
    var v := TrimStart(u);
    forall i | 0 <= i < |v| ensures v[i] != x {
      assert v[i] == u[|u| - |v| + i];
    }
  }

  lemma {:induction false} RemoveKeepsOut(s: string, c: char)
    requires c !in s
    ensures c !in RemoveTabsAndNewlines(s)
    decreases |s|
  {
    if s != [] {
      RemoveKeepsOut(s[1..], c);
    }
  }

  /** An input without a colon has no scheme, so it does not parse on its own. */
  lemma NoColonNoScheme(url: string)
    requires ':' !in url
    ensures ParsePathname(url) == None
  {
    var h := Head(Clean(url));
    assert ':' !in h by {
      CleanKeepsOut(url, ':');
      forall i | 0 <= i < |h| ensures h[i] != ':' {
        assert h[i] == Clean(url)[i];
      }
    }
    var k := SchemeRunLength(h);
    if k < |h| {
      assert h[k] != ':';
    }
  }

  lemma LowerCaseUnchanged(s: string)
    requires forall i :: 0 <= i < |s| ==> !IsAsciiUpper(s[i])
    ensures ToLower(s) == s
  {
  }

  lemma SchemeRun(scheme: string, rest: string)
    requires forall i :: 0 <= i < |scheme| ==> IsSchemeChar(scheme[i])
    requires |rest| > 0 && !IsSchemeChar(rest[0])
    ensures SchemeRunLength(scheme + rest) == |scheme|
  {
    var s := scheme + rest;
    assert s[|scheme|] == rest[0];
  }

  lemma FirstSlash(host: string, path: string)
    requires '/' !in host && (path == "" || path[0] == '/')
    ensures FirstIndexOf(host + path, {'/'}) == |host|
  {
    var s := host + path;
    if path != "" {
      assert s[|host|] == path[0];
    }
  }

  /** Each special scheme is a run of lower-case ASCII letters. */
  lemma SpecialSchemeLetters(scheme: string)
    requires scheme in SpecialSchemes
    ensures |scheme| > 0 && IsAsciiAlpha(scheme[0])
    ensures forall i :: 0 <= i < |scheme| ==> 'a' <= scheme[i] <= 'z'
  {
  }

  /** A well-formed scheme is split off at its colon. */
  lemma SplitSchemeOf(scheme: string, rest: string)
    requires |scheme| > 0 && IsAsciiAlpha(scheme[0])
    requires forall i :: 0 <= i < |scheme| ==> 'a' <= scheme[i] <= 'z'
    ensures SplitScheme(scheme + ":" + rest) == Some((scheme, rest))
  {
    var h := scheme + ":" + rest;
    SchemeRun(scheme, ":" + rest);
    assert h == scheme + (":" + rest);
    assert h[..|scheme|] == scheme && h[|scheme|] == ':' && h[|scheme| + 1..] == rest;
    LowerCaseUnchanged(scheme);
  }

  /** After `//`, a host without slashes ends at the path's first slash. */
  lemma AuthorityThenPath(host: string, path: string)
    requires |host| > 0 && '/' !in host && '\\' !in host
    requires (path == "" || path[0] == '/') && '\\' !in path
    ensures BackslashesToSlashes("//" + host + path) == "//" + host + path
    ensures ("//" + host + path)[LeadingSlashes("//" + host + path)..] == host + path
    ensures (host + path)[FirstIndexOf(host + path, {'/'})..] == path
  {
    var rest := "//" + host + path;
    assert LeadingSlashes(rest) == 2 by {
      assert rest[2] == host[0];
    }
    assert rest[2..] == host + path;
    FirstSlash(host, path);
    assert (host + path)[|host|..] == path;
  }

  lemma SpecialHeadPathname(scheme: string, host: string, path: string)
    requires scheme in SpecialSchemes && scheme != "file"
    requires |host| > 0 && '/' !in host && '\\' !in host
    requires (path == "" || path[0] == '/') && '\\' !in path
    ensures ParseHead(scheme + "://" + host + path) == Some(NonEmptyPath(path))
  {
    var rest := "//" + host + path;
    SpecialSchemeLetters(scheme);
    assert scheme + "://" + host + path == scheme + ":" + rest;
    SplitSchemeOf(scheme, rest);
    AuthorityThenPath(host, path);
  }

  /**
   * The pathname of `scheme://host/path` for a special scheme other than
   * `file:` is the path, and `/` when the path is empty.
   */
  lemma SpecialUrlPathname(scheme: string, host: string, path: string)
    requires scheme in SpecialSchemes && scheme != "file"
    requires |host| > 0 && '/' !in host && '\\' !in host && '?' !in host && '#' !in host
    requires (path == "" || path[0] == '/') && '\\' !in path && '?' !in path && '#' !in path
    requires Unspaced(scheme + "://" + host + path)
    ensures ParsePathname(scheme + "://" + host + path) == Some(NonEmptyPath(path))
  {
    SpecialHeadPathname(scheme, host, path);
    SpecialSchemeLetters(scheme);
    PlainInput(scheme + "://" + host + path);
  }
}
