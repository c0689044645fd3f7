/** The scraper helpers of `src/bcp/bandcamplib.py`: the URL checks, the band
    and album listings read from parsed pages, and the mp3 files placed under
    the tracks directory. Fetching goes through a `Web` object that remembers
    what was asked of it and answers from parsed pages and file contents it
    is given; HTML parsing and JSON decoding are done before the model sees a
    page. */
module Scraper {
  import opened Wrappers
  import opened Strings
  import opened Urls
  import opened Disk
  import J = Json

  // ---------------------------------------------------------------------
  // URL helpers
  // ---------------------------------------------------------------------

  /** `_get_url_type`: the first segment of the URL's path once the slashes
      at both ends are stripped. */
  function UrlType(url: string): (t: string)
    ensures '/' !in t
  {
    Split(Strip(Parse(url).path, {'/'}), '/')[0]
  }

  /** The URL type is empty exactly when the path is made of slashes only
      (a band's root URL), and is otherwise the stripped path up to its first
      '/'. */
  lemma {:induction false} UrlTypeEmpty(url: string)
    ensures UrlType(url) == "" <==> forall k :: 0 <= k < |Parse(url).path| ==> Parse(url).path[k] == '/'
    ensures UrlType(url) == Strip(Parse(url).path, {'/'})[..Find(Strip(Parse(url).path, {'/'}), '/')]
  {
    var s := Strip(Parse(url).path, {'/'});
    StripEmpty(Parse(url).path, {'/'});
    SplitHead(s, '/');
    if s != "" {
      assert s[0] != '/' by {
        var r := RStrip(Parse(url).path, {'/'});
        LeadingInRun(r, {'/'});
        assert s == r[LeadingIn(r, {'/'})..];
      }
      assert Find(s, '/') > 0;
    }
  }

  /** "/<kind>/<name>" strips to "<kind>/<name>". */
  lemma {:induction false} StripItemPath(kind: string, name: string)
    requires kind != "" && '/' !in kind && name != "" && '/' !in name
    ensures Strip("/" + kind + "/" + name, {'/'}) == kind + "/" + name
  {
    var inner := kind + "/" + name;
    var path := "/" + inner;
    assert path == "/" + kind + "/" + name;
    assert path[|path| - 1] == name[|name| - 1];
    assert TrailingIn(path, {'/'}) == 0;
    assert RStrip(path, {'/'}) == path;
    assert path[1..] == inner;
    assert inner[0] == kind[0];
    assert LeadingIn(inner, {'/'}) == 0;
    assert LeadingIn(path, {'/'}) == 1;
  }

  /** "/<kind>/<name>" splits into "", `kind` and `name`. */
  lemma {:induction false} SplitItemPath(kind: string, name: string)
    requires '/' !in kind && '/' !in name
    ensures Split(kind + "/" + name, '/') == [kind, name]
    ensures Split("/" + kind + "/" + name, '/') == ["", kind, name]
  {
    SplitAfterSeparator(kind, '/', name);
    SplitWithoutSeparator(name, '/');
    SplitAfterSeparator("", '/', kind + "/" + name);
    assert "" + "/" + (kind + "/" + name) == "/" + kind + "/" + name;
  }

  /** For a path "/<kind>/<name>", the URL type is `kind` and the path splits
      into "", `kind` and `name`. */
  lemma {:induction false} UrlTypeOfItemPath(url: string, kind: string, name: string)
    requires Parse(url).path == "/" + kind + "/" + name
    requires kind != "" && '/' !in kind && name != "" && '/' !in name
    ensures UrlType(url) == kind
    ensures Split(Parse(url).path, '/') == ["", kind, name]
  {
    StripItemPath(kind, name);
    SplitItemPath(kind, name);
  }

  /** `_validate_url`: at least three host labels, the second and third
      "bandcamp" and "com" or "bcbits" and "com", and the "https" scheme,
      checked in that order; the URL itself on success. */
  function ValidateUrl(url: string): (r: Result<string, Exc>)
    ensures var labels := Split(Parse(url).netloc, '.');
      && (|labels| < 3 ==> r == Err(ValueError("No band subdomain")))
      && ((|labels| >= 3 && (labels[1], labels[2]) != ("bandcamp", "com") && (labels[1], labels[2]) != ("bcbits", "com"))
            ==> r == Err(ValueError("Not a bandcamp URL")))
      && ((|labels| >= 3 && labels[2] == "com" && labels[1] in {"bandcamp", "bcbits"} && Parse(url).scheme != "https")
            ==> r == Err(ValueError("No https")))
      && (r.Ok? <==> |labels| >= 3 && labels[2] == "com" && labels[1] in {"bandcamp", "bcbits"} && Parse(url).scheme == "https")
    ensures r.Ok? ==> r.value == url
  {
    var parsed := Parse(url);
    var domain := Split(parsed.netloc, '.');
    if |domain| < 3 then Err(ValueError("No band subdomain"))
    else if (domain[1], domain[2]) !in {("bandcamp", "com"), ("bcbits", "com")} then Err(ValueError("Not a bandcamp URL"))
    else if parsed.scheme != "https" then Err(ValueError("No https"))
    else Ok(url)
  }

  /** The labels of a "<band>.bandcamp.com<extra>" host, where `extra` is
      empty or starts a further label. */
  lemma {:induction false} BandHostLabels(band: string, extra: string)
    requires '.' !in band
    requires extra == "" || extra[0] == '.'
    ensures var labels := Split(band + ".bandcamp.com" + extra, '.');
      |labels| >= 3 && labels[0] == band && labels[1] == "bandcamp" && labels[2] == "com"
  {
    var com := "com" + extra;
    assert band + ".bandcamp.com" + extra == band + "." + ("bandcamp" + "." + com);
    SplitAfterSeparator(band, '.', "bandcamp" + "." + com);
    SplitAfterSeparator("bandcamp", '.', com);
    if extra == "" {
      assert com == "com";
      SplitWithoutSeparator("com", '.');
    } else {
      assert com == "com" + "." + extra[1..];
      SplitAfterSeparator("com", '.', extra[1..]);
    }
  }

  /** A band's https URL is accepted, whatever follows its host and whatever
      further labels the host has after "bandcamp.com": only the second and
      third labels are looked at. */
  lemma {:induction false} ValidateBandUrl(band: string, extra: string, tail: string)
    requires band != "" && '.' !in band && ValidNetloc(band)
    requires extra == "" || (extra[0] == '.' && ValidNetloc(extra))
    requires tail == "" || tail[0] in NetlocEnd
    ensures ValidateUrl("https://" + band + ".bandcamp.com" + extra + tail) == Ok("https://" + band + ".bandcamp.com" + extra + tail)
  {
    BandUrlParts(band, extra, tail);
    BandHostAccepted(band, extra);
  }

  /** Such a URL parses back to the "https" scheme and the band's host. */
  lemma BandUrlParts(band: string, extra: string, tail: string)
    requires band != "" && '.' !in band && ValidNetloc(band)
    requires extra == "" || (extra[0] == '.' && ValidNetloc(extra))
    requires tail == "" || tail[0] in NetlocEnd
    ensures var url := "https://" + band + ".bandcamp.com" + extra + tail;
      Parse(url).scheme == "https" && Parse(url).netloc == band + ".bandcamp.com" + extra
  {
    var url := "https://" + band + ".bandcamp.com" + extra + tail;
    var netloc := band + ".bandcamp.com" + extra;
    assert ValidScheme("https");
    assert ValidNetloc(".bandcamp.com");
    ValidNetlocConcat(band, ".bandcamp.com");
    ValidNetlocConcat(band + ".bandcamp.com", extra);
    assert url == "https" + "://" + netloc + tail;
    ParseAuthority("https", netloc, tail);
  }

  lemma BandHostAccepted(band: string, extra: string)
    requires band != "" && '.' !in band && ValidNetloc(band)
    requires extra == "" || (extra[0] == '.' && ValidNetloc(extra))
    ensures var labels := Split(band + ".bandcamp.com" + extra, '.');
      |labels| >= 3 && labels[1] == "bandcamp" && labels[2] == "com"
  {
    BandHostLabels(band, extra);
  }

  /** `get_band`'s rewrite: every '/'-separated part but the last, joined
      again, then "/music". */
  function MusicUrl(url: string): string {
    var parts := Split(url, '/');
    Join(parts[..|parts| - 1], '/') + "/music"
  }

  /** Putting text in front of the first part of a join puts it in front of
      the whole join. */
  lemma {:induction false} JoinPrepend(x: string, parts: seq<string>)
    requires |parts| >= 1
    ensures Join([x + parts[0]] + parts[1..], '/') == x + Join(parts, '/')
  {
    var ps := [x + parts[0]] + parts[1..];
    if |parts| > 1 {
      assert ps[0] == x + parts[0] && ps[1..] == parts[1..];
      assert Join(ps, '/') == ps[0] + ['/'] + Join(ps[1..], '/');
      assert Join(parts, '/') == parts[0] + ['/'] + Join(parts[1..], '/');
    } else {
      assert Join(ps, '/') == ps[0];
    }
  }

  /** Dropping the last part of a split and joining the rest gives the text
      before the last separator. */
  lemma {:induction false} JoinAllButLast(s: string)
    requires '/' in s
    ensures var parts := Split(s, '/'); Join(parts[..|parts| - 1], '/') == s[..RFind(s, '/')]
    decreases |s|
  {
    if '/' in s[1..] {
      JoinAllButLast(s[1..]);
      SplitHasTwo(s[1..]);
      assert RFind(s, '/') == 1 + RFind(s[1..], '/');
      if s[0] == '/' {
        JoinAllButLastAfterSep(s, RFind(s[1..], '/'));
      } else {
        JoinAllButLastAfterChar(s, RFind(s[1..], '/'));
      }
    } else {
      assert s[0] == '/';
      SplitWithoutSeparator(s[1..], '/');
      assert Split(s, '/') == ["", s[1..]];
      assert RFind(s, '/') == 0;
    }
  }

  /** A string holding the separator splits into at least two parts. */
  lemma SplitHasTwo(s: string)
    requires '/' in s
    ensures |Split(s, '/')| >= 2
  {
    SplitCount(s, '/');
    var k :| 0 <= k < |s| && s[k] == '/';
    CountPositive(s, k);
  }

  /** The step of `JoinAllButLast` for a string that starts with '/'. */
  lemma JoinAllButLastAfterSep(s: string, n: nat)
    requires |s| > 0 && s[0] == '/' && |Split(s[1..], '/')| >= 2 && n < |s|
    requires var rest := Split(s[1..], '/'); Join(rest[..|rest| - 1], '/') == s[1..][..n]
    ensures var parts := Split(s, '/'); Join(parts[..|parts| - 1], '/') == s[..n + 1]
  {
    var parts, rest := Split(s, '/'), Split(s[1..], '/');
    var init := rest[..|rest| - 1];
    assert parts[..|parts| - 1] == [""] + init by {
      assert parts == [""] + rest;
    }
    assert Join([""] + init, '/') == "" + ['/'] + Join(init, '/') by {
      assert ([""] + init)[1..] == init;
    }
    TakeCons(s, n + 1);
    assert [s[0]] == "/";
  }

  /** The step of `JoinAllButLast` for a string that starts with another
      character. */
  lemma JoinAllButLastAfterChar(s: string, n: nat)
    requires |s| > 0 && s[0] != '/' && |Split(s[1..], '/')| >= 2 && n < |s|
    requires var rest := Split(s[1..], '/'); Join(rest[..|rest| - 1], '/') == s[1..][..n]
    ensures var parts := Split(s, '/'); Join(parts[..|parts| - 1], '/') == s[..n + 1]
  {
    var parts, rest := Split(s, '/'), Split(s[1..], '/');
    var init := rest[..|rest| - 1];
    assert parts[..|parts| - 1] == [[s[0]] + init[0]] + init[1..] by {
      assert parts == [[s[0]] + rest[0]] + rest[1..];
    }
    JoinPrepend([s[0]], init);
    TakeCons(s, n + 1);
  }

  /** A non-empty prefix is the first character followed by a prefix of the rest. */
  lemma TakeCons(s: string, n: nat)
    requires 0 < n <= |s|
    ensures s[..n] == [s[0]] + s[1..][..n - 1]
  {
  }

  lemma {:induction false} CountPositive(s: string, k: nat)
    requires k < |s| && s[k] == '/'
    ensures Count(s, '/') >= 1
    decreases |s|
  {
    if k > 0 {
      CountPositive(s[1..], k - 1);
    }
  }

  /** The rewritten URL always ends in "/music", and is the URL cut at its
      last '/' (or nothing, when it has none) followed by "/music". */
  lemma {:induction false} MusicUrlShape(url: string)
    ensures var m := MusicUrl(url); |m| >= 6 && m[|m| - 6..] == "/music"
    ensures '/' in url ==> MusicUrl(url) == url[..RFind(url, '/')] + "/music"
    ensures '/' !in url ==> MusicUrl(url) == "/music"
  {
    if '/' in url {
      JoinAllButLast(url);
    } else {
      SplitWithoutSeparator(url, '/');
    }
  }

  // ---------------------------------------------------------------------
  // Parsed pages and the web
  // ---------------------------------------------------------------------

  /** An `li` of the music grid: `li.find("a")` (None when the item has no
      anchor) and, for an anchor, its `href` attribute. */
  datatype GridItem = GridItem(anchor: Option<Option<string>>)

  /** The `ol#music-grid` element: its decoded `data-client-items` attribute
      when that attribute is present and not empty, and its `li` items. */
  datatype Grid = Grid(clientItems: Option<J.Json>, items: seq<GridItem>)

  /** A `script` element: its decoded `data-tralbum` attribute, when it has one. */
  datatype Script = Script(tralbum: Option<J.Json>)

  /** What the code reads from a parsed page: the music grid, when there is
      one, and the scripts in document order. */
  datatype Page = Page(grid: Option<Grid>, scripts: seq<Script>)

  /** The network as the scraper sees it: a parsed page and the bytes
      (`None` for no content) for every URL, and the URLs asked for so far. */
  class Web {
    const pages: string -> Page
    const contents: string -> Option<Bytes>
    var requested: seq<string>

    constructor (pages: string -> Page, contents: string -> Option<Bytes>)
      ensures this.pages == pages && this.contents == contents && requested == []
    {
      this.pages := pages;
      this.contents := contents;
      requested := [];
    }

    /** `_fetch_url_content(url)`, parsed. */
    method FetchPage(url: string) returns (page: Page)
      modifies this
      ensures page == pages(url)
      ensures requested == old(requested) + [url]
    {
      page := pages(url);
      requested := requested + [url];
    }

    /** `_fetch_url_content(url)` with the cache disabled, as bytes. */
    method FetchContent(url: string) returns (content: Option<Bytes>)
      modifies this
      ensures content == contents(url)
      ensures requested == old(requested) + [url]
    {
      content := contents(url);
      requested := requested + [url];
    }
  }

  // ---------------------------------------------------------------------
  // Album URLs of a band
  // ---------------------------------------------------------------------

  /** `li.find("a")["href"]`: subscripting a missing anchor is a TypeError, a
      missing attribute a KeyError. */
  function ItemHref(item: GridItem): (r: Result<J.Json, Exc>)
    ensures r.Ok? <==> item.anchor.Some? && item.anchor.value.Some?
    ensures r.Ok? ==> r.value == J.Str(item.anchor.value.value)
  {
    match item.anchor
    case None => Err(TypeError("'NoneType' object is not subscriptable"))
    case Some(None) => Err(KeyError("href"))
    case Some(Some(h)) => Ok(J.Str(h))
  }

  /** The hrefs of a grid's items in document order; the first that cannot
      be read stops the list. */
  function ItemHrefs(items: seq<GridItem>): (r: Result<seq<J.Json>, Exc>)
    ensures r.Ok? ==> |r.value| == |items| && forall k :: 0 <= k < |items| ==> Ok(r.value[k]) == ItemHref(items[k])
    ensures r.Ok? <==> forall k :: 0 <= k < |items| ==> ItemHref(items[k]).Ok?
  {
    if items == [] then Ok([])
    else
      match ItemHref(items[0])
      case Err(e) => Err(e)
      case Ok(h) =>
        match ItemHrefs(items[1..])
        case Err(e) => Err(e)
        case Ok(hs) => Ok([h] + hs)
  }

  /** `[i["page_url"] for i in items]` */
  function PageUrls(items: seq<J.Json>): (r: Result<seq<J.Json>, Exc>)
    ensures r.Ok? ==> |r.value| == |items| && forall k :: 0 <= k < |items| ==> Ok(r.value[k]) == J.Get(items[k], "page_url")
    ensures r.Ok? <==> forall k :: 0 <= k < |items| ==> J.Get(items[k], "page_url").Ok?
  {
    if items == [] then Ok([])
    else
      match J.Get(items[0], "page_url")
      case Err(e) => Err(e)
      case Ok(h) =>
        match PageUrls(items[1..])
        case Err(e) => Err(e)
        case Ok(hs) => Ok([h] + hs)
  }

  /** The hrefs `_get_albums_urls_from_html` looks at: the client items'
      page URLs when the grid carries them, the items' anchors otherwise. */
  function GridHrefs(grid: Grid): Result<seq<J.Json>, Exc> {
    match grid.clientItems
    case Some(data) =>
      (match J.Elements(data)
       case Err(e) => Err(e)
       case Ok(items) => PageUrls(items))
    case None => ItemHrefs(grid.items)
  }

  /** The hrefs that start with "/album/", in order; an href that is not a
      string has no `startswith`. */
  function AlbumHrefs(hrefs: seq<J.Json>): Result<seq<string>, Exc>
    decreases |hrefs|
  {
    if hrefs == [] then Ok([])
    else
      match AlbumHrefs(hrefs[..|hrefs| - 1])
      case Err(e) => Err(e)
      case Ok(kept) =>
        var h := hrefs[|hrefs| - 1];
        if !h.Str? then Err(AttributeError("startswith"))
        else if StartsWith(h.s, "/album/") then Ok(kept + [h.s])
        else Ok(kept)
  }

  /** The filter succeeds exactly on a list of strings, and then keeps exactly
      the hrefs that start with "/album/". */
  lemma {:induction false} AlbumHrefsKeep(hrefs: seq<J.Json>)
    ensures AlbumHrefs(hrefs).Ok? <==> forall k :: 0 <= k < |hrefs| ==> hrefs[k].Str?
    ensures AlbumHrefs(hrefs).Err? ==> AlbumHrefs(hrefs).error == AttributeError("startswith")
    ensures AlbumHrefs(hrefs).Ok? ==>
      forall x :: x in AlbumHrefs(hrefs).value <==> J.Str(x) in hrefs && StartsWith(x, "/album/")
    decreases |hrefs|
  {
    if hrefs != [] {
      var init := hrefs[..|hrefs| - 1];
      AlbumHrefsKeep(init);
      assert hrefs == init + [hrefs[|hrefs| - 1]];
    }
  }

  /** Filtering keeps document order: the hrefs of `a + b` filter into those
      of `a` followed by those of `b`. */
  lemma {:induction false} AlbumHrefsAppend(a: seq<J.Json>, b: seq<J.Json>)
    requires AlbumHrefs(a).Ok? && AlbumHrefs(b).Ok?
    ensures AlbumHrefs(a + b) == Ok(AlbumHrefs(a).value + AlbumHrefs(b).value)
    decreases |b|
  {
    if b == [] {
      assert a + b == a;
      assert AlbumHrefs(b) == Ok([]);
      assert AlbumHrefs(a).value + [] == AlbumHrefs(a).value;
    } else {
      var init := b[..|b| - 1];
      assert (a + b)[..|a + b| - 1] == a + init;
      var last := b[|b| - 1];
      assert (a + b)[|a + b| - 1] == last;
      assert AlbumHrefs(init).Ok?;
      AlbumHrefsAppend(a, init);
      var x, y := AlbumHrefs(a).value, AlbumHrefs(init).value;
      assert AlbumHrefs(a + init) == Ok(x + y);
      if StartsWith(last.s, "/album/") {
        assert AlbumHrefs(b) == Ok(y + [last.s]);
        assert AlbumHrefs(a + b) == Ok(x + y + [last.s]);
        assert x + y + [last.s] == x + (y + [last.s]);
      } else {
        assert AlbumHrefs(b) == Ok(y);
      }
    }
  }

  /** The albums a page lists, as `_get_albums_urls_from_html` reads them. */
  function AlbumPaths(page: Page): Result<seq<string>, Exc> {
    match page.grid
    case None => Ok([])
    case Some(grid) =>
      match GridHrefs(grid)
      case Err(e) => Err(e)
      case Ok(hrefs) => AlbumHrefs(hrefs)
  }

  /** `_get_albums_urls_from_html`, on the parsed page. */
  method AlbumsUrlsFromHtml(page: Page) returns (r: Result<seq<string>, Exc>)
    ensures r == AlbumPaths(page)
    ensures page.grid.None? ==> r == Ok([])
  {
    if page.grid.None? {
      return Ok([]);
    }
    var hrefs := GridHrefs(page.grid.value);
    if hrefs.Err? {
      return Err(hrefs.error);
    }
    var hs := hrefs.value;
    var kept: seq<string> := [];
    var i := 0;
    while i < |hs|
      invariant 0 <= i <= |hs|
      invariant AlbumHrefs(hs[..i]) == Ok(kept)
    {
      assert hs[..i + 1][..i] == hs[..i];
      var href := hs[i];
      if !href.Str? {
        AlbumHrefsKeep(hs);
        return Err(AttributeError("startswith"));
      }
      if StartsWith(href.s, "/album/") {
        kept := kept + [href.s];
      }
      i := i + 1;
    }
    assert hs[..|hs|] == hs;
    r := Ok(kept);
  }

  /** The URL with its path replaced by each of `paths`. */
  function WithPaths(url: string, paths: seq<string>): (r: seq<string>)
    ensures |r| == |paths|
  {
    seq(|paths|, k requires 0 <= k < |paths| => WithPath(url, paths[k]))
  }

  /** Each album URL is the band URL with the album's path: same scheme, same
      host, in the order of the paths, and reading back the path where it is
      a plain absolute one. */
  lemma WithPathsKeepSite(url: string, paths: seq<string>)
    requires ValidScheme(Parse(url).scheme) && ValidNetloc(Parse(url).netloc)
    ensures forall k :: 0 <= k < |paths| ==>
      && Parse(WithPaths(url, paths)[k]).scheme == Parse(url).scheme
      && Parse(WithPaths(url, paths)[k]).netloc == Parse(url).netloc
      && (WellFormed(Parse(url).(path := paths[k])) ==> Parse(WithPaths(url, paths)[k]).path == paths[k])
  {
    forall k | 0 <= k < |paths|
      ensures Parse(WithPath(url, paths[k])).scheme == Parse(url).scheme
      ensures Parse(WithPath(url, paths[k])).netloc == Parse(url).netloc
      ensures WellFormed(Parse(url).(path := paths[k])) ==> Parse(WithPath(url, paths[k])).path == paths[k]
    {
      WithPathKeepsSite(url, paths[k]);
    }
  }

  /** The loop of `_get_albums_urls_from_url`: each path put into the URL,
      appended in order. */
  method PutPaths(url: string, paths: seq<string>) returns (urls: seq<string>)
    ensures urls == WithPaths(url, paths)
  {
    urls := Appended(p => WithPath(url, p), paths);
    assert forall k :: 0 <= k < |paths| ==> urls[k] == WithPaths(url, paths)[k];
  }

  /** `[put(x) for x in xs]` written as the append loop the code uses. */
  method Appended(put: string -> string, xs: seq<string>) returns (ys: seq<string>)
    ensures |ys| == |xs| && forall k :: 0 <= k < |xs| ==> ys[k] == put(xs[k])
  {
    ys := [];
    var i := 0;
    while i < |xs|
      invariant 0 <= i <= |xs|
      invariant |ys| == i && forall k :: 0 <= k < i ==> ys[k] == put(xs[k])
    {
      ys := ys + [put(xs[i])];
      i := i + 1;
    }
  }

  /** `_get_albums_urls_from_url`: fetches the page and puts each album path
      into the URL. */
  method AlbumsUrlsFromUrl(url: string, web: Web) returns (r: Result<seq<string>, Exc>)
    modifies web
    ensures web.requested == old(web.requested) + [url]
    ensures r == (match AlbumPaths(web.pages(url))
                  case Err(e) => Err(e)
                  case Ok(paths) => Ok(WithPaths(url, paths)))
  {
    var page := web.FetchPage(url);
    var paths := AlbumsUrlsFromHtml(page);
    if paths.Err? {
      return Err(paths.error);
    }
    var urls := PutPaths(url, paths.value);
    r := Ok(urls);
  }

  /** What `get_band` returns: the album URLs, under both of its keys. */
  datatype BandListing = BandListing(albumsUrls: seq<string>, albums: seq<string>)

  /** `get_band`: the album URLs listed on the band's "/music" page. */
  method GetBand(url: string, web: Web) returns (r: Result<BandListing, Exc>)
    modifies web
    ensures web.requested == old(web.requested) + [MusicUrl(url)]
    ensures r.Ok? ==> r.value.albums == r.value.albumsUrls
    ensures r == (match AlbumPaths(web.pages(MusicUrl(url)))
                  case Err(e) => Err(e)
                  case Ok(paths) => Ok(BandListing(WithPaths(MusicUrl(url), paths), WithPaths(MusicUrl(url), paths))))
  {
    var music := MusicUrl(url);
    var urls := AlbumsUrlsFromUrl(music, web);
    if urls.Err? {
      return Err(urls.error);
    }
    r := Ok(BandListing(urls.value, urls.value));
  }

  // ---------------------------------------------------------------------
  // Tracks of an album page
  // ---------------------------------------------------------------------

  /** A track as the scraper hands it on: a dict of JSON values. */
  type TrackInfo = map<string, J.Json>

  /** What one `trackinfo` entry contributes: a track, nothing, or an error. */
  type Pick = J.Json -> Result<Option<TrackInfo>, Exc>

  /** The body of the inner loop of `_get_tracks_from_html`: an entry whose
      `id` and then `file` are truthy becomes its mp3 URL, title and duration;
      any other entry is skipped. */
  function TrackOfEntry(entry: J.Json): (r: Result<Option<TrackInfo>, Exc>)
    ensures r.Ok? && r.value.Some? ==>
      && entry.Object? && "id" in entry.fields && J.Truthy(entry.fields["id"])
      && "file" in entry.fields && J.Truthy(entry.fields["file"])
      && J.Get(entry.fields["file"], "mp3-128").Ok? && "title" in entry.fields && "duration" in entry.fields
      && r.value.value == map["url" := J.Get(entry.fields["file"], "mp3-128").value,
                              "title" := entry.fields["title"], "duration" := entry.fields["duration"]]
    ensures entry.Object? && "id" in entry.fields && !J.Truthy(entry.fields["id"]) ==> r == Ok(None)
    ensures (entry.Object? && "id" in entry.fields && J.Truthy(entry.fields["id"])
             && "file" in entry.fields && !J.Truthy(entry.fields["file"])) ==> r == Ok(None)
  {
    var id :- J.Get(entry, "id");
    if !J.Truthy(id) then Ok(None)
    else
      var file :- J.Get(entry, "file");
      if !J.Truthy(file) then Ok(None)
      else
        var url :- J.Get(file, "mp3-128");
        var title :- J.Get(entry, "title");
        var duration :- J.Get(entry, "duration");
        Ok(Some(map["url" := url, "title" := title, "duration" := duration]))
  }

  /** `json.loads(script["data-tralbum"])["trackinfo"]`, iterated; a script
      without the attribute has no entries. */
  function ScriptEntries(script: Script): Result<seq<J.Json>, Exc> {
    match script.tralbum
    case None => Ok([])
    case Some(data) =>
      match J.Get(data, "trackinfo")
      case Err(e) => Err(e)
      case Ok(info) => J.Elements(info)
  }

  /** The tracks the entries give, in order, up to the first error. */
  function EntriesTracks(entries: seq<J.Json>, pick: Pick): (r: Result<seq<TrackInfo>, Exc>)
    ensures r.Ok? ==> |r.value| <= |entries|
    decreases |entries|
  {
    if entries == [] then Ok([])
    else
      match EntriesTracks(entries[..|entries| - 1], pick)
      case Err(e) => Err(e)
      case Ok(ts) =>
        match pick(entries[|entries| - 1])
        case Err(e) => Err(e)
        case Ok(None) => Ok(ts)
        case Ok(Some(t)) => Ok(ts + [t])
  }

  /** The tracks of the scripts, in document order, up to the first error. */
  function ScriptsTracks(scripts: seq<Script>, pick: Pick): Result<seq<TrackInfo>, Exc>
    decreases |scripts|
  {
    if scripts == [] then Ok([])
    else
      match ScriptsTracks(scripts[..|scripts| - 1], pick)
      case Err(e) => Err(e)
      case Ok(ts) =>
        match ScriptEntries(scripts[|scripts| - 1])
        case Err(e) => Err(e)
        case Ok(entries) =>
          match EntriesTracks(entries, pick)
          case Err(e) => Err(e)
          case Ok(more) => Ok(ts + more)
  }

  /** The entries of `a + b` give the tracks of `a`, then those of `b`; an
      error in `a` is the error of the whole. */
  lemma {:induction false} EntriesTracksAppend(a: seq<J.Json>, b: seq<J.Json>, pick: Pick)
    ensures EntriesTracks(a, pick).Err? ==> EntriesTracks(a + b, pick) == EntriesTracks(a, pick)
    ensures EntriesTracks(a, pick).Ok? && EntriesTracks(b, pick).Ok? ==>
      EntriesTracks(a + b, pick) == Ok(EntriesTracks(a, pick).value + EntriesTracks(b, pick).value)
    decreases |b|
  {
    if b == [] {
      assert a + b == a;
      if EntriesTracks(a, pick).Ok? {
        assert EntriesTracks(a, pick).value + [] == EntriesTracks(a, pick).value;
      }
    } else {
      var init := b[..|b| - 1];
      var last := b[|b| - 1];
      assert (a + b)[..|a + b| - 1] == a + init;
      assert (a + b)[|a + b| - 1] == last;
      EntriesTracksAppend(a, init, pick);
      if EntriesTracks(a, pick).Ok? && EntriesTracks(b, pick).Ok? {
        var x, y := EntriesTracks(a, pick).value, EntriesTracks(init, pick).value;
        assert EntriesTracks(a + init, pick) == Ok(x + y);
        match pick(last)
        case Ok(Some(t)) =>
          assert x + y + [t] == x + (y + [t]);
        case Ok(None) =>
        case Err(e) =>
      }
    }
  }

  /** One entry gives its track, or nothing, or its error. */
  lemma {:induction false} EntriesTracksOne(e: J.Json, pick: Pick)
    ensures EntriesTracks([e], pick) == match pick(e)
      case Err(err) => Err(err)
      case Ok(None) => Ok([])
      case Ok(Some(t)) => Ok([t])
  {
    assert [e][..0] == [];
    assert EntriesTracks([e][..0], pick) == Ok([]);
    match pick(e)
    case Ok(Some(t)) => assert [] + [t] == [t];
    case Ok(None) =>
    case Err(_) =>
  }

  /** Every track `_get_tracks_from_html` emits carries exactly the keys
      "url", "title" and "duration". */
  lemma {:induction false} ScriptsTracksKeys(scripts: seq<Script>)
    ensures ScriptsTracks(scripts, TrackOfEntry).Ok? ==>
      forall k :: 0 <= k < |ScriptsTracks(scripts, TrackOfEntry).value| ==>
        ScriptsTracks(scripts, TrackOfEntry).value[k].Keys == {"url", "title", "duration"}
    decreases |scripts|
  {
    if scripts != [] {
      ScriptsTracksKeys(scripts[..|scripts| - 1]);
      match ScriptEntries(scripts[|scripts| - 1])
      case Ok(entries) => EntriesTracksKeys(entries);
      case Err(_) =>
    }
  }

  lemma {:induction false} EntriesTracksKeys(entries: seq<J.Json>)
    ensures EntriesTracks(entries, TrackOfEntry).Ok? ==>
      forall k :: 0 <= k < |EntriesTracks(entries, TrackOfEntry).value| ==>
        EntriesTracks(entries, TrackOfEntry).value[k].Keys == {"url", "title", "duration"}
    decreases |entries|
  {
    if entries != [] {
      EntriesTracksKeys(entries[..|entries| - 1]);
    }
  }

  /** The entries loop of `_get_tracks_from_html` for one script. */
  method AppendEntries(tracks: seq<TrackInfo>, entries: seq<J.Json>, pick: Pick) returns (r: Result<seq<TrackInfo>, Exc>)
    ensures r == match EntriesTracks(entries, pick)
      case Err(e) => Err(e)
      case Ok(more) => Ok(tracks + more)
  {
    var ts := tracks;
    var i := 0;
    while i < |entries|
      invariant 0 <= i <= |entries|
      invariant EntriesTracks(entries[..i], pick).Ok? && ts == tracks + EntriesTracks(entries[..i], pick).value
    {
      assert entries[..i + 1][..i] == entries[..i];
      var info := pick(entries[i]);
      if info.Err? {
        EntriesTracksAppend(entries[..i + 1], entries[i + 1..], pick);
        assert entries[..i + 1] + entries[i + 1..] == entries;
        return Err(info.error);
      }
      if info.value.Some? {
        ts := ts + [info.value.value];
      }
      i := i + 1;
    }
    assert entries[..|entries|] == entries;
    r := Ok(ts);
  }

  /** `_get_tracks_from_html`: the tracks of a parsed page. */
  method TracksFromHtml(page: Page) returns (r: Result<seq<TrackInfo>, Exc>)
    ensures r == ScriptsTracks(page.scripts, TrackOfEntry)
  {
    r := CollectTracks(page, TrackOfEntry);
  }

  /** The two nested loops of `_get_tracks_from_html`, with the rule `pick`
      for one entry (the revisions differ only in that rule). */
  method CollectTracks(page: Page, pick: Pick) returns (r: Result<seq<TrackInfo>, Exc>)
    ensures r == ScriptsTracks(page.scripts, pick)
  {
    var scripts := page.scripts;
    var tracks: seq<TrackInfo> := [];
    var i := 0;
    while i < |scripts|
      invariant 0 <= i <= |scripts|
      invariant ScriptsTracks(scripts[..i], pick) == Ok(tracks)
    {
      assert scripts[..i + 1][..i] == scripts[..i];
      var entries := ScriptEntries(scripts[i]);
      if entries.Err? {
        ScriptsTracksPrefixErr(scripts, i + 1, pick);
        return Err(entries.error);
      }
      var next := AppendEntries(tracks, entries.value, pick);
      if next.Err? {
        ScriptsTracksPrefixErr(scripts, i + 1, pick);
        return Err(next.error);
      }
      tracks := next.value;
      i := i + 1;
    }
    assert scripts[..|scripts|] == scripts;
    r := Ok(tracks);
  }

  /** An error in the scripts read so far is the error of the whole page. */
  lemma {:induction false} ScriptsTracksPrefixErr(scripts: seq<Script>, n: nat, pick: Pick)
    requires n <= |scripts| && ScriptsTracks(scripts[..n], pick).Err?
    ensures ScriptsTracks(scripts, pick) == ScriptsTracks(scripts[..n], pick)
    decreases |scripts| - n
  {
    if n < |scripts| {
      assert scripts[..n + 1][..n] == scripts[..n];
      ScriptsTracksPrefixErr(scripts, n + 1, pick);
    } else {
      assert scripts[..n] == scripts;
    }
  }

  // ---------------------------------------------------------------------
  // get_album
  // ---------------------------------------------------------------------

  /** The artist (the first label of the host) and the album (the third
      '/'-separated part of the path) `get_album` reads from the album URL;
      an IndexError when the path has fewer parts. */
  function AlbumPlace(url: string): Result<(string, string), Exc> {
    var parsed := Parse(url);
    var artist := Split(parsed.netloc, '.')[0];
    var parts := Split(parsed.path, '/');
    if |parts| < 3 then Err(IndexError) else Ok((artist, parts[2]))
  }

  /** For "https://<band>.<domain>/<kind>/<name>" the artist is the band and
      the album is the name, whichever kind of page it is (a track page gives
      the track's name as the album). */
  lemma {:induction false} AlbumPlaceOfItemUrl(band: string, domain: string, kind: string, name: string)
    requires band != "" && '.' !in band && ValidNetloc(band + "." + domain)
    requires kind != "" && '/' !in kind && name != "" && '/' !in name
    requires '?' !in kind && '#' !in kind && ';' !in kind && '?' !in name && '#' !in name && ';' !in name
    requires Safe(kind) && Safe(name)
    ensures AlbumPlace("https://" + band + "." + domain + "/" + kind + "/" + name) == Ok((band, name))
  {
    var netloc := band + "." + domain;
    var path := "/" + kind + "/" + name;
    ItemPathChars(kind, name);
    assert "https://" + band + "." + domain + "/" + kind + "/" + name == "https://" + netloc + path by {
      Regroup7("https://", band, ".", domain, "/", kind, name);
    }
    ParseHttpsUrl(netloc, path);
    SplitAfterSeparator(band, '.', domain);
    SplitItemPath(kind, name);
  }

  lemma {:induction false} Regroup7(a: string, b: string, c: string, d: string, e: string, f: string, g: string)
    ensures a + b + c + d + e + f + e + g == a + (b + c + d) + (e + f + e + g)
  {
  }

  lemma {:induction false} ItemPathChars(kind: string, name: string)
    requires '?' !in kind && '#' !in kind && ';' !in kind && '?' !in name && '#' !in name && ';' !in name
    ensures var path := "/" + kind + "/" + name; '?' !in path && '#' !in path && ';' !in path
    ensures var path := "/" + kind + "/" + name; path[0] == '/'
  {
    var path := "/" + kind + "/" + name;
    forall k | 0 <= k < |path|
      ensures path[k] != '?' && path[k] != '#' && path[k] != ';'
    {
      if 1 <= k < 1 + |kind| {
        assert path[k] == kind[k - 1];
      } else if 1 + |kind| < k {
        assert path[k] == name[k - 2 - |kind|];
      }
    }
  }

  /** An https URL made of a host and a plain absolute path parses back into
      them. */
  lemma {:induction false} ParseHttpsUrl(netloc: string, path: string)
    requires ValidNetloc(netloc)
    requires path == "" || path[0] == '/'
    requires '?' !in path && '#' !in path && ';' !in path && Safe(path)
    ensures Parse("https://" + netloc + path) == Parts("https", netloc, path, "", "", "")
  {
    var p := Parts("https", netloc, path, "", "", "");
    assert WellFormed(p) by {
      assert ValidScheme("https");
    }
    ParseUnparse(p);
    UnparseHttps(netloc, path);
  }

  lemma UnparseHttps(netloc: string, path: string)
    requires netloc != ""
    requires path == "" || path[0] == '/'
    ensures Unparse(Parts("https", netloc, path, "", "", "")) == "https://" + netloc + path
  {
    var p := Parts("https", netloc, path, "", "", "");
    UnparseWithHost(p);
    assert AfterAuthority(p) == path;
    assert "https" + "://" == "https://";
  }

  /** `track.update({...})`: the artist, album and album directory added (the
      title is written back unchanged), every other field kept. */
  function TagTrack(track: TrackInfo, artist: string, album: string, albumPath: string): (r: TrackInfo)
    requires "title" in track
    ensures r.Keys == track.Keys + {"artist", "album", "album_path"}
    ensures r["artist"] == J.Str(artist) && r["album"] == J.Str(album) && r["album_path"] == J.Str(albumPath)
    ensures forall k :: k in track && k !in {"artist", "album", "album_path"} ==> r[k] == track[k]
  {
    track + map["artist" := J.Str(artist), "album" := J.Str(album), "title" := track["title"], "album_path" := J.Str(albumPath)]
  }

  function TagTracks(tracks: seq<TrackInfo>, artist: string, album: string, albumPath: string): (r: seq<TrackInfo>)
    requires forall k :: 0 <= k < |tracks| ==> "title" in tracks[k]
    ensures |r| == |tracks|
  {
    seq(|tracks|, k requires 0 <= k < |tracks| => TagTrack(tracks[k], artist, album, albumPath))
  }

  /** A path that exists but is not a directory: `os.makedirs` raises there. */
  predicate Blocked(state: DiskState, p: string) {
    state.Exists(p) && !state.IsDir(p)
  }

  /** `os.path.join(TRACKS_DIR, artist, album)` */
  function AlbumPath(tracksDir: string, artist: string, album: string): string {
    OsJoin(OsJoin(tracksDir, artist), album)
  }

  /** The directory step of `get_album`'s loop, once the artist and album
      are read from the URL: makes their directory when it is missing. */
  method PlaceAlbum(place: Result<(string, string), Exc>, tracksDir: string, fs: FileSystem) returns (r: Result<(string, string), Exc>)
    modifies fs
    ensures place.Err? ==> r == place && fs.state == old(fs.state)
    ensures place.Ok? ==>
      var p := AlbumPath(tracksDir, place.value.0, place.value.1);
      && (Blocked(old(fs.state), p) ==> r == Err(FileExistsError(p)) && fs.state == old(fs.state))
      && (!Blocked(old(fs.state), p) ==> r == place && fs.state == DiskState(old(fs.state.files), old(fs.state.dirs) + {p}))
  {
    r := place;
    if r.Err? {
      return;
    }
    var (artist, album) := r.value;
    var p := AlbumPath(tracksDir, artist, album);
    if !fs.state.IsDir(p) {
      if fs.state.Exists(p) {
        return Err(FileExistsError(p));
      }
      fs.MakeDirs(p);
    } else {
      assert old(fs.state.dirs) + {p} == old(fs.state.dirs);
    }
  }

  /** What `get_album`'s loop ends with, from the tracks and the disk before
      it: no tracks change nothing; otherwise the album URL must have a third
      path part and its directory must be a directory or missing, and then
      every track is tagged and the directory exists. */
  function AlbumOutcome(url: string, tracksDir: string, tracks: seq<TrackInfo>, state: DiskState): (Result<seq<TrackInfo>, Exc>, DiskState)
    requires forall k :: 0 <= k < |tracks| ==> "title" in tracks[k]
  {
    if tracks == [] then (Ok([]), state)
    else
      match AlbumPlace(url)
      case Err(e) => (Err(e), state)
      case Ok((artist, album)) =>
        var p := AlbumPath(tracksDir, artist, album);
        if Blocked(state, p) then (Err(FileExistsError(p)), state)
        else (Ok(TagTracks(tracks, artist, album, p)), DiskState(state.files, state.dirs + {p}))
  }

  /** The loop of `get_album` over the tracks already read (the artist and
      album it reads from the URL on every round are the same each time, and
      are read once here). */
  method TagAlbumTracks(url: string, tracksDir: string, ts: seq<TrackInfo>, fs: FileSystem) returns (r: Result<seq<TrackInfo>, Exc>)
    requires forall k :: 0 <= k < |ts| ==> "title" in ts[k]
    modifies fs
    ensures (r, fs.state) == AlbumOutcome(url, tracksDir, ts, old(fs.state))
  {
    var place := AlbumPlace(url);
    ghost var before := fs.state;
    ghost var (a, b) := if place.Ok? then place.value else ("", "");
    ghost var dir := AlbumPath(tracksDir, a, b);
    var t: seq<TrackInfo> := [];
    var i := 0;
    while i < |ts|
      invariant 0 <= i <= |ts|
      invariant i == 0 ==> fs.state == before && t == []
      invariant i > 0 ==> place == Ok((a, b)) && !Blocked(before, dir)
      invariant i > 0 ==> fs.state == DiskState(before.files, before.dirs + {dir})
      invariant |t| == i && forall k :: 0 <= k < i ==> t[k] == TagTrack(ts[k], a, b, dir)
    {
      var placed := PlaceAlbum(place, tracksDir, fs);
      if placed.Err? {
        return Err(placed.error);
      }
      var (artist, album) := placed.value;
      var p := AlbumPath(tracksDir, artist, album);
      assert artist == a && album == b && p == dir;
      TagOneMore(t, ts, i, a, b, dir);
      t := t + [TagTrack(ts[i], artist, album, p)];
      i := i + 1;
    }
    if ts != [] {
      assert t == TagTracks(ts, a, b, dir);
    }
    r := Ok(t);
  }

  /** Tagging one more track extends the tagged prefix by one. */
  lemma TagOneMore(t: seq<TrackInfo>, ts: seq<TrackInfo>, i: nat, a: string, b: string, dir: string)
    requires i < |ts| && forall k :: 0 <= k < |ts| ==> "title" in ts[k]
    requires |t| == i && forall k :: 0 <= k < i ==> t[k] == TagTrack(ts[k], a, b, dir)
    ensures var t' := t + [TagTrack(ts[i], a, b, dir)];
      |t'| == i + 1 && forall k :: 0 <= k < i + 1 ==> t'[k] == TagTrack(ts[k], a, b, dir)
  {
    var t' := t + [TagTrack(ts[i], a, b, dir)];
    assert forall k :: 0 <= k < i ==> t'[k] == t[k];
  }

  /** `get_album`: the album page's tracks, each tagged with the artist, the
      album and the album's directory under `tracksDir`. */
  method GetAlbum(url: string, tracksDir: string, web: Web, fs: FileSystem) returns (r: Result<seq<TrackInfo>, Exc>)
    modifies web, fs
    ensures web.requested == old(web.requested) + [url]
    ensures ScriptsTracks(web.pages(url).scripts, TrackOfEntry).Err? ==>
      r == Err(ScriptsTracks(web.pages(url).scripts, TrackOfEntry).error) && fs.state == old(fs.state)
    ensures ScriptsTracks(web.pages(url).scripts, TrackOfEntry).Ok? ==>
      var ts := ScriptsTracks(web.pages(url).scripts, TrackOfEntry).value;
      (forall k :: 0 <= k < |ts| ==> "title" in ts[k]) && (r, fs.state) == AlbumOutcome(url, tracksDir, ts, old(fs.state))
  {
    var page := web.FetchPage(url);
    var tracks := TracksFromHtml(page);
    if tracks.Err? {
      return Err(tracks.error);
    }
    ScriptsTracksKeys(page.scripts);
    assert forall k :: 0 <= k < |tracks.value| ==> "title" in tracks.value[k];
    r := TagAlbumTracks(url, tracksDir, tracks.value, fs);
  }

  /** Each tagged track keeps its other fields and gets the artist, the album
      and the directory the album was given; the directory is the only change
      to the disk. */
  lemma {:induction false} AlbumOutcomeTags(url: string, tracksDir: string, tracks: seq<TrackInfo>, state: DiskState)
    requires forall k :: 0 <= k < |tracks| ==> "title" in tracks[k]
    requires AlbumOutcome(url, tracksDir, tracks, state).0.Ok? && tracks != []
    ensures AlbumPlace(url).Ok?
    ensures var (artist, album) := AlbumPlace(url).value;
      var p := AlbumPath(tracksDir, artist, album);
      var out := AlbumOutcome(url, tracksDir, tracks, state);
      && out.1 == DiskState(state.files, state.dirs + {p}) && out.1.IsDir(p)
      && |out.0.value| == |tracks|
      && forall k :: 0 <= k < |tracks| ==>
           && out.0.value[k]["artist"] == J.Str(artist) && out.0.value[k]["album"] == J.Str(album)
           && out.0.value[k]["album_path"] == J.Str(p)
           && forall key :: key in tracks[k] && key !in {"artist", "album", "album_path"} ==> out.0.value[k][key] == tracks[k][key]
  {
  }

  // ---------------------------------------------------------------------
  // mp3 files
  // ---------------------------------------------------------------------

  /** A string field of a track dict: a KeyError when it is missing, a
      TypeError when it is not a string. */
  function StrField(track: TrackInfo, key: string): (r: Result<string, Exc>)
    ensures r.Ok? <==> key in track && track[key].Str?
    ensures r.Ok? ==> r.value == track[key].s
  {
    if key !in track then Err(KeyError(key))
    else if !track[key].Str? then Err(TypeError("expected str"))
    else Ok(track[key].s)
  }

  /** `_get_mp3_path`: the slug of the title with ".mp3", in the track's
      album directory. */
  function Mp3Path(track: TrackInfo, slug: string -> string): Result<string, Exc> {
    var title :- StrField(track, "title");
    var albumPath :- StrField(track, "album_path");
    Ok(OsJoin(albumPath, slug(title) + ".mp3"))
  }

  /** The mp3 of a track lies directly in its album directory: the directory,
      a '/', and the title's slug with ".mp3". */
  lemma {:induction false} Mp3PathInAlbumPath(track: TrackInfo, slug: string -> string)
    requires StrField(track, "title").Ok? && StrField(track, "album_path").Ok?
    requires var d := track["album_path"].s; d != "" && d[|d| - 1] != '/'
    requires '/' !in slug(track["title"].s)
    ensures Mp3Path(track, slug) == Ok(track["album_path"].s + "/" + slug(track["title"].s) + ".mp3")
  {
    var d, t := track["album_path"].s, slug(track["title"].s);
    var name := t + ".mp3";
    assert name[0] != '/' by {
      if t == "" { assert name == ".mp3"; } else { assert name[0] == t[0]; }
    }
    assert OsJoin(d, name) == d + "/" + name;
    assert d + "/" + name == d + "/" + t + ".mp3";
  }

  /** A track tagged by `get_album` has its mp3 in the directory `get_album`
      made for the album. */
  lemma {:induction false} TaggedMp3Path(track: TrackInfo, artist: string, album: string, albumPath: string, slug: string -> string)
    requires "title" in track && track["title"].Str?
    ensures Mp3Path(TagTrack(track, artist, album, albumPath), slug) == Ok(OsJoin(albumPath, slug(track["title"].s) + ".mp3"))
  {
  }

  /** `_get_mp3_file`: nothing is fetched when the track's path exists;
      otherwise the mp3 is fetched and written there, and missing content
      is a NoMP3ContentError. The result says whether the file was there. */
  method Mp3File(track: TrackInfo, web: Web, fs: FileSystem) returns (r: Result<bool, Exc>)
    modifies web, fs
    ensures StrField(track, "path").Err? ==> r == Err(StrField(track, "path").error) && unchanged(web, fs)
    ensures StrField(track, "path").Ok? ==>
      var path := StrField(track, "path").value;
      && (old(fs.state).Exists(path) ==> r == Ok(true) && unchanged(web, fs))
      && (!old(fs.state).Exists(path) && StrField(track, "url").Err? ==> r == Err(StrField(track, "url").error) && unchanged(web, fs))
      && (!old(fs.state).Exists(path) && StrField(track, "url").Ok? ==>
            var url := StrField(track, "url").value;
            && web.requested == old(web.requested) + [url]
            && (web.contents(url).None? ==> r == Err(NoMP3ContentError("Unable to get mp3 file")) && unchanged(fs))
            && (web.contents(url).Some? ==>
                  r == Ok(false) && fs.state == DiskState(old(fs.state.files)[path := web.contents(url).value], old(fs.state.dirs))))
  {
    var path := StrField(track, "path");
    if path.Err? {
      return Err(path.error);
    }
    if fs.state.Exists(path.value) {
      return Ok(true);
    }
    var url := StrField(track, "url");
    if url.Err? {
      return Err(url.error);
    }
    var content := web.FetchContent(url.value);
    if content.None? {
      return Err(NoMP3ContentError("Unable to get mp3 file"));
    }
    fs.Write(path.value, content.value);
    r := Ok(false);
  }

  /** `get_mp3`: the track with its mp3 path and whether the file was already
      on disk. */
  method GetMp3(track: TrackInfo, slug: string -> string, web: Web, fs: FileSystem) returns (r: Result<TrackInfo, Exc>)
    modifies web, fs
    ensures Mp3Path(track, slug).Err? ==> r == Err(Mp3Path(track, slug).error) && unchanged(web, fs)
    ensures Mp3Path(track, slug).Ok? ==>
      var path := Mp3Path(track, slug).value;
      && (old(fs.state).Exists(path) ==> r == Ok(track["path" := J.Str(path)]["cached" := J.Bool(true)]) && unchanged(web, fs))
      && (!old(fs.state).Exists(path) && StrField(track, "url").Err? ==> r == Err(StrField(track, "url").error) && unchanged(web, fs))
      && (!old(fs.state).Exists(path) && StrField(track, "url").Ok? ==>
            var url := StrField(track, "url").value;
            && web.requested == old(web.requested) + [url]
            && (web.contents(url).None? ==> r == Err(NoMP3ContentError("Unable to get mp3 file")) && unchanged(fs))
            && (web.contents(url).Some? ==>
                  && r == Ok(track["path" := J.Str(path)]["cached" := J.Bool(false)])
                  && fs.state == DiskState(old(fs.state.files)[path := web.contents(url).value], old(fs.state.dirs))))
  {
    var path := Mp3Path(track, slug);
    if path.Err? {
      return Err(path.error);
    }
    var withPath := track["path" := J.Str(path.value)];
    assert StrField(withPath, "path") == Ok(path.value);
    assert StrField(withPath, "url") == StrField(track, "url");
    var cached := Mp3File(withPath, web, fs);
    if cached.Err? {
      return Err(cached.error);
    }
    if cached.value {
      return Ok(withPath["cached" := J.Bool(true)]);
    }
    r := Ok(withPath["cached" := J.Bool(false)]);
  }
}
