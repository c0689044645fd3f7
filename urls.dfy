/** URL splitting and joining as CPython's `urllib.parse.urlparse` and
    `ParseResult.geturl` (`urlunparse`) do them: leading C0 controls and spaces
    and every tab, CR and LF are dropped first (as the WHATWG URL Standard
    asks), then the scheme/authority/path/query/fragment split of section 3
    of RFC 3986, plus the `;params` part. */
module Urls {
  import opened Strings

  datatype Parts = Parts(
    scheme: string,
    netloc: string,
    path: string,
    params: string,
    query: string,
    fragment: string)

  predicate IsSchemeChar(ch: char) {
    IsAsciiLetter(ch) || IsDigit(ch) || ch == '+' || ch == '-' || ch == '.'
  }

  /** `urllib.parse.uses_netloc` */
  const UsesNetloc: set<string> := {"", "ftp", "http", "gopher", "nntp", "telnet", "imap", "wais",
    "file", "mms", "https", "shttp", "snews", "prospero", "rtsp", "rtsps", "rtspu", "rsync",
    "svn", "svn+ssh", "sftp", "nfs", "git", "git+ssh", "ws", "wss"}

  /** `urllib.parse.uses_params` */
  const UsesParams: set<string> := {"", "ftp", "hdl", "prospero", "http", "imap", "https",
    "shttp", "rtsp", "rtsps", "rtspu", "sip", "sips", "mms", "sftp", "tel"}

  const NetlocEnd: set<char> := {'/', '?', '#'}

  /** `_WHATWG_C0_CONTROL_OR_SPACE`: what `urlsplit` strips from the front
      of a URL. */
  const C0ControlOrSpace: set<char> := set c: char | c <= ' '

  /** Text holding none of `_UNSAFE_URL_BYTES_TO_REMOVE`: tab, CR and LF. */
  predicate Safe(s: string) {
    '\t' !in s && '\r' !in s && '\n' !in s
  }

  /** Every tab, CR and LF deleted, the other characters kept in order. */
  function RemoveUnsafe(s: string): (r: string)
    ensures Safe(r) && |r| <= |s|
    ensures Safe(s) ==> r == s
    ensures forall ch :: ch != '\t' && ch != '\r' && ch != '\n' ==> (ch in r <==> ch in s)
  {
    if |s| == 0 then ""
    else (if s[0] in {'\t', '\r', '\n'} then "" else [s[0]]) + RemoveUnsafe(s[1..])
  }

  /** Deleting characters piece by piece is deleting them from the whole. */
  lemma {:induction false} RemoveUnsafeConcat(a: string, b: string)
    ensures RemoveUnsafe(a + b) == RemoveUnsafe(a) + RemoveUnsafe(b)
    decreases |a|
  {
    if |a| > 0 {
      assert (a + b)[1..] == a[1..] + b;
      RemoveUnsafeConcat(a[1..], b);
    } else {
      assert a + b == b;
    }
  }

  /** The text `urlsplit` goes on to split: `url.lstrip()` of the C0
      controls and space, then without tab, CR and LF. */
  function Clean(url: string): (c: string)
    ensures Safe(c)
    ensures c == "" || c[0] !in C0ControlOrSpace
  {
    var stripped := LStrip(url, C0ControlOrSpace);
    LeadingInRun(url, C0ControlOrSpace);
    assert stripped != "" ==> RemoveUnsafe(stripped) == [stripped[0]] + RemoveUnsafe(stripped[1..]);
    RemoveUnsafe(stripped)
  }

  /** Cleaning is idempotent, and text that starts with no C0 control or
      space and holds no tab, CR or LF is already clean. */
  lemma CleanKeeps(s: string)
    requires Safe(s) && (s == "" || s[0] !in C0ControlOrSpace)
    ensures Clean(s) == s
  {
    assert LeadingIn(s, C0ControlOrSpace) == 0;
  }

  /** `urlsplit` drops the same characters whether they are in the URL or
      put in again: cleaning twice is cleaning once. */
  lemma CleanIdempotent(s: string)
    ensures Clean(Clean(s)) == Clean(s)
  {
    CleanKeeps(Clean(s));
  }

  /** The scheme (lower-cased) and the rest: a scheme is taken only when the
      text before the first ':' starts with a letter and is made of scheme
      characters. */
  function SplitScheme(url: string): (r: (string, string))
    ensures r.0 == "" || ValidScheme(r.0)
  {
    var i := Find(url, ':');
    if 0 < i < |url| && IsAsciiLetter(url[0]) && (forall k :: 0 <= k < i ==> IsSchemeChar(url[k]))
    then (Lower(url[..i]), url[i + 1..])
    else ("", url)
  }

  /** `_splitnetloc(url, 2)` after a leading "//": the authority runs to the
      first '/', '?' or '#'. */
  function SplitNetloc(rest: string): (string, string) {
    var d := FindAny(rest, NetlocEnd);
    (rest[..d], rest[d..])
  }

  /** `_splitparams`: the params start at the first ';' of the last segment. */
  function SplitParams(path: string): (string, string)
    requires ';' in path
  {
    if '/' in path then
      var last := RFind(path, '/');
      var i := last + Find(path[last..], ';');
      if i == |path| then (path, "") else (path[..i], path[i + 1..])
    else
      var i := Find(path, ';');
      (path[..i], path[i + 1..])
  }

  /** The authority, when the rest starts with "//", and what follows it. */
  function SplitAuthority(afterScheme: string): (r: (string, string))
    ensures '/' !in r.0 && '?' !in r.0 && '#' !in r.0
  {
    if StartsWith(afterScheme, "//") then SplitNetloc(afterScheme[2..]) else ("", afterScheme)
  }

  /** `s.split(c, 1)` when `c` occurs, else `s` and "". */
  function CutAt(s: string, c: char): (r: (string, string))
    ensures c !in r.0
    ensures forall ch :: ch !in s ==> ch !in r.0 && ch !in r.1
  {
    if c in s then
      var i := Find(s, c);
      (s[..i], s[i + 1..])
    else (s, "")
  }

  /** The fragment after the first '#', the query after the first '?' before
      it, and the params of what remains. */
  function SplitTail(scheme: string, netloc: string, rest: string): (p: Parts)
    ensures p.scheme == scheme && p.netloc == netloc
    ensures '#' !in p.path && '?' !in p.path && '#' !in p.query
  {
    var (beforeFragment, fragment) := CutAt(rest, '#');
    var (fullPath, query) := CutAt(beforeFragment, '?');
    var (path, params) :=
      if scheme in UsesParams && ';' in fullPath then SplitParams(fullPath) else (fullPath, "");
    assert forall k :: 0 <= k < |path| ==> path[k] in fullPath;
    Parts(scheme, netloc, path, params, query, fragment)
  }

  /** `urlparse(url)` */
  function Parse(url: string): (p: Parts)
    ensures '/' !in p.netloc && '?' !in p.netloc && '#' !in p.netloc
    ensures '#' !in p.path && '?' !in p.path && '#' !in p.query
    ensures SafeParts(p)
  {
    SplitCleanSafe(Clean(url));
    SplitClean(Clean(url))
  }

  /** No part holds a tab, a CR or a LF. */
  predicate SafeParts(p: Parts) {
    Safe(p.scheme) && Safe(p.netloc) && Safe(p.path) && Safe(p.params) && Safe(p.query) && Safe(p.fragment)
  }

  /** The split `urlsplit` and `urlparse` make of the cleaned URL. */
  function SplitClean(url: string): (p: Parts)
    ensures '/' !in p.netloc && '?' !in p.netloc && '#' !in p.netloc
    ensures '#' !in p.path && '?' !in p.path && '#' !in p.query
  {
    var (scheme, afterScheme) := SplitScheme(url);
    var (netloc, afterNetloc) := SplitAuthority(afterScheme);
    SplitTail(scheme, netloc, afterNetloc)
  }

  /** Splitting text without tab, CR and LF gives parts without them. */
  lemma SplitCleanSafe(url: string)
    requires Safe(url)
    ensures SafeParts(SplitClean(url))
  {
    var i := Find(url, ':');
    var afterScheme := SplitScheme(url).1;
    if afterScheme != url {
      SafeSlice(url, i + 1, |url|);
      assert afterScheme == url[i + 1..|url|];
    }
    assert Safe(SplitScheme(url).0);
    if StartsWith(afterScheme, "//") {
      var rest := afterScheme[2..];
      SafeSlice(afterScheme, 2, |afterScheme|);
      assert rest == afterScheme[2..|afterScheme|];
      var d := FindAny(rest, NetlocEnd);
      SafeSlice(rest, 0, d);
      SafeSlice(rest, d, |rest|);
      assert rest[..d] == rest[0..d] && rest[d..] == rest[d..|rest|];
    }
    var afterNetloc := SplitAuthority(afterScheme).1;
    assert Safe(afterNetloc);
    var (beforeFragment, fragment) := CutAt(afterNetloc, '#');
    var (fullPath, query) := CutAt(beforeFragment, '?');
    if SplitScheme(url).0 in UsesParams && ';' in fullPath {
      SplitParamsSafe(fullPath);
    }
  }

  lemma SplitParamsSafe(path: string)
    requires ';' in path && Safe(path)
    ensures Safe(SplitParams(path).0) && Safe(SplitParams(path).1)
  {
    if '/' in path {
      var last := RFind(path, '/');
      SafeSlice(path, last, |path|);
      assert path[last..] == path[last..|path|];
      var i := last + Find(path[last..], ';');
      if i < |path| {
        SafeSlice(path, 0, i);
        SafeSlice(path, i + 1, |path|);
        assert path[..i] == path[0..i] && path[i + 1..] == path[i + 1..|path|];
      }
    } else {
      var i := Find(path, ';');
      SafeSlice(path, 0, i);
      SafeSlice(path, i + 1, |path|);
      assert path[..i] == path[0..i] && path[i + 1..] == path[i + 1..|path|];
    }
  }

  /** The characters of a slice are characters of the whole. */
  lemma SliceIn(s: string, i: nat, j: nat, ch: char)
    requires i <= j <= |s| && ch in s[i..j]
    ensures ch in s
  {
    var k :| 0 <= k < j - i && s[i..j][k] == ch;
    assert s[i + k] == ch;
  }

  /** A slice of text without tab, CR and LF has none either. */
  lemma SafeSlice(s: string, i: nat, j: nat)
    requires Safe(s) && i <= j <= |s|
    ensures Safe(s[i..j])
  {
    if '\t' in s[i..j] { SliceIn(s, i, j, '\t'); }
    if '\r' in s[i..j] { SliceIn(s, i, j, '\r'); }
    if '\n' in s[i..j] { SliceIn(s, i, j, '\n'); }
  }

  predicate UsesAuthority(scheme: string) {
    scheme in UsesNetloc
  }

  /** `urlunparse(parts)`, which is what `geturl()` returns. */
  function Unparse(p: Parts): string {
    var path := if p.params != "" then p.path + ";" + p.params else p.path;
    var withNetloc :=
      if p.netloc != "" || (p.scheme != "" && UsesAuthority(p.scheme) && !StartsWith(path, "//")) then
        "//" + p.netloc + (if path != "" && path[0] != '/' then "/" + path else path)
      else path;
    var withScheme := if p.scheme != "" then p.scheme + ":" + withNetloc else withNetloc;
    var withQuery := if p.query != "" then withScheme + "?" + p.query else withScheme;
    if p.fragment != "" then withQuery + "#" + p.fragment else withQuery
  }

  /** A scheme that `Parse` reads back unchanged. */
  predicate ValidScheme(s: string) {
    |s| > 0 && IsAsciiLetter(s[0]) && forall k :: 0 <= k < |s| ==> IsSchemeChar(s[k]) && !('A' <= s[k] <= 'Z')
  }

  /** A host that `Parse` reads back unchanged. */
  predicate ValidNetloc(n: string) {
    n != "" && '/' !in n && '?' !in n && '#' !in n && Safe(n)
  }

  /** Two hosts written one after the other make a host. */
  lemma ValidNetlocConcat(a: string, b: string)
    requires ValidNetloc(a) && (b == "" || ValidNetloc(b))
    ensures ValidNetloc(a + b)
  {
    forall k | 0 <= k < |a + b|
      ensures (a + b)[k] !in NetlocEnd
    {
      if k < |a| {
        assert (a + b)[k] == a[k];
      } else {
        assert (a + b)[k] == b[k - |a|];
      }
    }
  }

  lemma LowerValidScheme(s: string)
    requires ValidScheme(s)
    ensures Lower(s) == s
  {
  }

  /** `Find` returns the first index holding the character. */
  lemma {:induction false} FindIsFirst(s: string, c: char, i: nat)
    requires i < |s| && s[i] == c
    requires forall k :: 0 <= k < i ==> s[k] != c
    ensures Find(s, c) == i
  {
    if i > 0 {
      FindIsFirst(s[1..], c, i - 1);
    }
  }

  /** `FindAny` returns the first index holding one of the characters, or the end. */
  lemma {:induction false} FindAnyIsFirst(s: string, cs: set<char>, i: nat)
    requires i <= |s| && (i < |s| ==> s[i] in cs)
    requires forall k :: 0 <= k < i ==> s[k] !in cs
    ensures FindAny(s, cs) == i
  {
    if i > 0 {
      FindAnyIsFirst(s[1..], cs, i - 1);
    }
  }

  /** A valid scheme followed by ':' is split off as the scheme. */
  lemma SplitSchemeValid(scheme: string, rest: string)
    requires ValidScheme(scheme)
    ensures SplitScheme(scheme + ":" + rest) == (scheme, rest)
  {
    var url := scheme + ":" + rest;
    var i := |scheme|;
    forall k | 0 <= k < i ensures url[k] == scheme[k] && url[k] != ':' {}
    FindIsFirst(url, ':', i);
    assert url[..i] == scheme;
    LowerValidScheme(scheme);
  }

  /** "//" host, then nothing or a '/', '?' or '#', splits into host and the rest. */
  lemma SplitAuthorityValid(netloc: string, tail: string)
    requires ValidNetloc(netloc)
    requires tail == "" || tail[0] in NetlocEnd
    ensures SplitAuthority("//" + netloc + tail) == (netloc, tail)
  {
    var s := "//" + netloc + tail;
    assert StartsWith(s, "//");
    assert s[2..] == netloc + tail;
    FindAnyIsFirst(netloc + tail, NetlocEnd, |netloc|);
    assert (netloc + tail)[..|netloc|] == netloc;
  }

  /** A URL written as scheme "://" host, followed by nothing or by text that
      starts with '/', '?' or '#', parses back to that scheme and host. */
  lemma ParseAuthority(scheme: string, netloc: string, tail: string)
    requires ValidScheme(scheme) && ValidNetloc(netloc)
    requires tail == "" || tail[0] in NetlocEnd
    ensures Parse(scheme + "://" + netloc + tail).scheme == scheme
    ensures Parse(scheme + "://" + netloc + tail).netloc == netloc
  {
    CleanHostUrl(scheme, netloc, tail);
    ParseHostTail(scheme, netloc, tail);
  }

  /** Cleaning scheme "://" host, then anything, only touches what follows
      the host; text that starts with '/', '?' or '#' still does. */
  lemma CleanHostUrl(scheme: string, netloc: string, tail: string)
    requires ValidScheme(scheme) && ValidNetloc(netloc)
    ensures Clean(scheme + "://" + netloc + tail) == scheme + "://" + netloc + RemoveUnsafe(tail)
    ensures tail != "" && tail[0] in NetlocEnd ==> RemoveUnsafe(tail) != "" && RemoveUnsafe(tail)[0] == tail[0]
  {
    var host := scheme + "://" + netloc;
    assert host[0] == scheme[0];
    assert Safe(host);
    CleanJoin(host, tail);
    if tail != "" && tail[0] in NetlocEnd {
      RemoveUnsafeKeepsFirst(tail);
    }
  }

  /** Text that starts with no C0 control or space loses only its tabs, CRs
      and LFs. */
  lemma CleanUnstripped(url: string)
    requires url != "" && url[0] !in C0ControlOrSpace
    ensures Clean(url) == RemoveUnsafe(url)
  {
    assert LeadingIn(url, C0ControlOrSpace) == 0;
  }

  /** Clean text followed by more cleans to itself and the rest cleaned. */
  lemma CleanJoin(host: string, tail: string)
    requires host != "" && host[0] !in C0ControlOrSpace && Safe(host)
    ensures Clean(host + tail) == host + RemoveUnsafe(tail)
  {
    assert (host + tail)[0] == host[0];
    CleanUnstripped(host + tail);
    RemoveUnsafeConcat(host, tail);
  }

  /** A first character other than tab, CR or LF is kept. */
  lemma RemoveUnsafeKeepsFirst(t: string)
    requires t != "" && t[0] != '\t' && t[0] != '\r' && t[0] != '\n'
    ensures RemoveUnsafe(t) != "" && RemoveUnsafe(t)[0] == t[0]
  {
  }

  /** The parts `Parse` gives back unchanged from `Unparse`. */
  predicate WellFormed(p: Parts) {
    && ValidScheme(p.scheme)
    && ValidNetloc(p.netloc)
    && (p.path == "" || p.path[0] == '/')
    && '?' !in p.path && '#' !in p.path && ';' !in p.path
    && p.params == ""
    && '#' !in p.query
    && Safe(p.path) && Safe(p.query) && Safe(p.fragment)
  }

  /** Text without `c`, then optionally `c` and more, cuts back into its two pieces. */
  lemma CutAtJoined(a: string, c: char, b: string)
    requires c !in a
    ensures CutAt(a + (if b != "" then [c] + b else ""), c) == (a, b)
  {
    if b != "" {
      var s := a + [c] + b;
      assert a + ([c] + b) == s;
      FindIsFirst(s, c, |a|);
      assert s[..|a|] == a && s[|a| + 1..] == b;
    } else {
      assert a + "" == a;
    }
  }

  /** The path, query and fragment written out split back into themselves. */
  lemma SplitTailValid(p: Parts)
    requires WellFormed(p)
    ensures SplitTail(p.scheme, p.netloc, p.path + (if p.query != "" then "?" + p.query else "")
                                                + (if p.fragment != "" then "#" + p.fragment else "")) == p
  {
    var before := p.path + (if p.query != "" then "?" + p.query else "");
    assert '#' !in before;
    CutAtJoined(before, '#', p.fragment);
    CutAtJoined(p.path, '?', p.query);
  }

  /** What `Unparse` writes after the host: the path (with a '/' put in front
      when needed), then the query and the fragment. */
  function AfterAuthority(p: Parts): (t: string)
    ensures t == "" || t[0] in NetlocEnd
  {
    var path := if p.params != "" then p.path + ";" + p.params else p.path;
    var pathPart := if path != "" && path[0] != '/' then "/" + path else path;
    pathPart + (if p.query != "" then "?" + p.query else "") + (if p.fragment != "" then "#" + p.fragment else "")
  }

  /** With a scheme and a host, `Unparse` writes scheme "://" host, then the rest. */
  lemma UnparseWithHost(p: Parts)
    requires p.scheme != "" && p.netloc != ""
    ensures Unparse(p) == p.scheme + "://" + p.netloc + AfterAuthority(p)
  {
    var path := if p.params != "" then p.path + ";" + p.params else p.path;
    var pathPart := if path != "" && path[0] != '/' then "/" + path else path;
    var q := if p.query != "" then "?" + p.query else "";
    var f := if p.fragment != "" then "#" + p.fragment else "";
    var withScheme := p.scheme + ":" + ("//" + p.netloc + pathPart);
    var withQuery := if p.query != "" then withScheme + "?" + p.query else withScheme;
    assert withQuery == withScheme + q;
    var whole := if p.fragment != "" then withQuery + "#" + p.fragment else withQuery;
    assert whole == withQuery + f;
    assert Unparse(p) == whole;
    HostConcat(p.scheme, p.netloc, pathPart, q, f);
  }

  lemma HostConcat(scheme: string, netloc: string, a: string, b: string, c: string)
    ensures scheme + ":" + ("//" + netloc + a) + b + c == scheme + "://" + netloc + (a + b + c)
  {
    assert scheme + ":" + ("//" + netloc + a) == scheme + "://" + netloc + a;
  }

  /** Joining parts that carry a scheme and a host, whatever their path, query
      and fragment, gives a URL that parses back to that scheme and host. */
  lemma UnparseAuthority(p: Parts)
    requires ValidScheme(p.scheme) && ValidNetloc(p.netloc)
    ensures Parse(Unparse(p)).scheme == p.scheme && Parse(Unparse(p)).netloc == p.netloc
  {
    UnparseWithHost(p);
    ParseAuthority(p.scheme, p.netloc, AfterAuthority(p));
  }

  /** Round trip: parsing the joined parts gives the parts back. */
  lemma ParseUnparse(p: Parts)
    requires WellFormed(p)
    ensures Parse(Unparse(p)) == p
  {
    var t := AfterAuthority(p);
    UnparseWithHost(p);
    PlainAfterAuthority(p);
    assert Safe(t);
    assert RemoveUnsafe(t) == t;
    ParseHostTail(p.scheme, p.netloc, t);
    SplitTailValid(p);
  }

  /** For well-formed parts, what follows the host is the path, the query
      and the fragment as they are. */
  lemma PlainAfterAuthority(p: Parts)
    requires WellFormed(p)
    ensures AfterAuthority(p) == p.path + (if p.query != "" then "?" + p.query else "")
                                        + (if p.fragment != "" then "#" + p.fragment else "")
  {
  }

  /** scheme "://" host, then text that, once its tabs, CRs and LFs are
      gone, starts the path, query or fragment: the scheme and host are read
      back and the cleaned text is left to `SplitTail`. */
  lemma ParseHostTail(scheme: string, netloc: string, tail: string)
    requires ValidScheme(scheme) && ValidNetloc(netloc)
    requires RemoveUnsafe(tail) == "" || RemoveUnsafe(tail)[0] in NetlocEnd
    ensures Parse(scheme + "://" + netloc + tail) == SplitTail(scheme, netloc, RemoveUnsafe(tail))
  {
    CleanHostUrl(scheme, netloc, tail);
    var t := RemoveUnsafe(tail);
    assert Parse(scheme + "://" + netloc + tail) == SplitClean(scheme + "://" + netloc + t);
    SplitHostTail(scheme, netloc, t);
  }

  /** scheme "://" host, then only tabs, CRs and LFs, reads as that scheme
      and host alone. */
  lemma ParseHostOnly(scheme: string, netloc: string, tail: string)
    requires ValidScheme(scheme) && ValidNetloc(netloc)
    requires RemoveUnsafe(tail) == ""
    ensures Parse(scheme + "://" + netloc + tail) == Parts(scheme, netloc, "", "", "", "")
  {
    ParseHostTail(scheme, netloc, tail);
    assert CutAt("", '#') == ("", "");
  }

  lemma SplitHostTail(scheme: string, netloc: string, tail: string)
    requires ValidScheme(scheme) && ValidNetloc(netloc)
    requires tail == "" || tail[0] in NetlocEnd
    ensures SplitClean(scheme + "://" + netloc + tail) == SplitTail(scheme, netloc, tail)
  {
    assert scheme + "://" + netloc + tail == scheme + ":" + ("//" + netloc + tail);
    SplitSchemeValid(scheme, "//" + netloc + tail);
    SplitAuthorityValid(netloc, tail);
  }

  /** `urlparse(url)._replace(path=path).geturl()` */
  function WithPath(url: string, path: string): string {
    Unparse(Parse(url).(path := path))
  }

  /** Replacing the path keeps the scheme and host and, for a plain absolute
      path, reads back with exactly that path. */
  lemma WithPathKeepsSite(url: string, path: string)
    requires ValidScheme(Parse(url).scheme) && ValidNetloc(Parse(url).netloc)
    ensures Parse(WithPath(url, path)).scheme == Parse(url).scheme
    ensures Parse(WithPath(url, path)).netloc == Parse(url).netloc
    ensures WellFormed(Parse(url).(path := path)) ==> Parse(WithPath(url, path)).path == path
  {
    var p := Parse(url).(path := path);
    UnparseAuthority(p);
    if WellFormed(p) {
      ParseUnparse(p);
    }
  }
}
