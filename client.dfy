/** The catalog client `BandCamp`: fetching pages with a bounded retry loop,
    the cache-or-fetch step that keeps the loaded items, rebuilding items from
    stored dicts, and placing downloaded mp3 files on disk. The HTTP session
    (`HTTPSession`) and the storage (`Storage`) are not defined in the code
    this models; the session is a scripted sequence of answers here and the
    storage is the last dict of items handed to it. */
module Client {
  import opened Wrappers
  import opened Strings
  import opened Urls
  import opened Disk
  import opened Entities
  import J = Json

  // ---------------------------------------------------------------------
  // download_content
  // ---------------------------------------------------------------------

  /** How one `http_session.get(url)` ends. */
  datatype Response =
    /** an answer: `response.geturl()` and `response.read()` */
    | Answered(finalUrl: string, body: Bytes)
    /** an `HTTPError` with its status code */
    | HttpError(code: int)
    /** `IncompleteRead`, `URLError` or `TimeoutError` */
    | TransportError

  /** What `download_content` ends with: the body, `None`, a raised
      `LinkExpiredException`, or (only in this model) a session that has no
      further answer while the loop still asks for one. */
  datatype Fetch = Content(body: Bytes) | NoContent | Expired | Unanswered

  /** The outcome, and how many answers the loop took from the session. */
  datatype Download = Download(outcome: Fetch, used: nat)

  /** `attempt, retries = (1, 3)` */
  const Retries: nat := 3

  predicate IsClientError(code: int) {
    400 <= code < 500
  }

  /** An HTTP error that makes the loop go round again: neither 410 nor 4xx. */
  predicate IsRetried(r: Response) {
    r.HttpError? && r.code != 410 && !IsClientError(r.code)
  }

  /** The loop of `download_content` run on the answers `rs`, from attempt
      number `attempt`: a redirect or a 4xx ends it with no content, 410
      raises, an answer at the requested URL is the content, a transport
      error uses up an attempt, and any other HTTP error (5xx) goes round
      again with the same attempt number. After `Retries` used-up attempts
      the content is `None`. */
  function DownloadOf(url: string, rs: seq<Response>, attempt: nat): (d: Download)
    ensures d.used <= |rs|
    decreases |rs|
  {
    if attempt > Retries then Download(NoContent, 0)
    else if rs == [] then Download(Unanswered, 0)
    else
      match rs[0]
      case Answered(finalUrl, body) =>
        if finalUrl != url then Download(NoContent, 1) else Download(Content(body), 1)
      case HttpError(code) =>
        if code == 410 then Download(Expired, 1)
        else if IsClientError(code) then Download(NoContent, 1)
        else
          var d := DownloadOf(url, rs[1..], attempt);
          Download(d.outcome, d.used + 1)
      case TransportError =>
        var d := DownloadOf(url, rs[1..], attempt + 1);
        Download(d.outcome, d.used + 1)
  }

  /** Any run of 5xx answers changes nothing but the number of answers taken:
      they never use up an attempt, so no bound on the number of requests
      holds on this path. */
  lemma {:induction false} ServerErrorsAreFree(url: string, errs: seq<Response>, rs: seq<Response>, attempt: nat)
    requires attempt <= Retries
    requires forall k :: 0 <= k < |errs| ==> IsRetried(errs[k])
    ensures DownloadOf(url, errs + rs, attempt) == Download(DownloadOf(url, rs, attempt).outcome,
                                                             DownloadOf(url, rs, attempt).used + |errs|)
    decreases |errs|
  {
    if errs == [] {
      assert errs + rs == rs;
    } else {
      assert (errs + rs)[0] == errs[0];
      assert (errs + rs)[1..] == errs[1..] + rs;
      ServerErrorsAreFree(url, errs[1..], rs, attempt);
      var d := DownloadOf(url, errs[1..] + rs, attempt);
      assert DownloadOf(url, errs + rs, attempt) == Download(d.outcome, d.used + 1);
    }
  }

  /** Three transport errors in a row end the loop with no content. */
  lemma ThreeTransportErrors(url: string, rs: seq<Response>)
    ensures DownloadOf(url, [TransportError, TransportError, TransportError] + rs, 1) == Download(NoContent, 3)
  {
    var s := [TransportError, TransportError, TransportError] + rs;
    assert s[1..] == [TransportError, TransportError] + rs;
    assert s[1..][1..] == [TransportError] + rs;
    assert s[1..][1..][1..] == rs;
    assert DownloadOf(url, rs, 4) == Download(NoContent, 0);
    assert DownloadOf(url, [TransportError] + rs, 3) == Download(NoContent, 1);
    assert DownloadOf(url, [TransportError, TransportError] + rs, 2) == Download(NoContent, 2);
  }

  /** Without 5xx answers the loop asks at most once per remaining attempt,
      and a session with that many answers always settles it. */
  lemma {:induction false} BoundedWithoutServerErrors(url: string, rs: seq<Response>, attempt: nat)
    requires 1 <= attempt
    requires forall k :: 0 <= k < |rs| ==> !IsRetried(rs[k])
    ensures DownloadOf(url, rs, attempt).used <= Retries + 1 - attempt || attempt > Retries
    ensures |rs| >= Retries + 1 - attempt ==> DownloadOf(url, rs, attempt).outcome != Unanswered
    decreases |rs|
  {
    if attempt <= Retries && rs != [] && rs[0].TransportError? {
      assert forall k :: 0 <= k < |rs[1..]| ==> rs[1..][k] == rs[k + 1];
      BoundedWithoutServerErrors(url, rs[1..], attempt + 1);
    }
  }

  /** Content is only ever an answer at the requested URL itself. */
  lemma {:induction false} ContentIsAnswered(url: string, rs: seq<Response>, attempt: nat)
    requires DownloadOf(url, rs, attempt).outcome.Content?
    ensures Answered(url, DownloadOf(url, rs, attempt).outcome.body) in rs
    decreases |rs|
  {
    if !rs[0].Answered? {
      ContentIsAnswered(url, rs[1..], if rs[0].TransportError? then attempt + 1 else attempt);
      assert rs == [rs[0]] + rs[1..];
    }
  }

  /** The HTTP session: the answers the server will give, in order, and a
      record of the URLs requested and of the cache entries dropped. */
  class Session {
    var answers: seq<Response>
    var requested: seq<string>
    var invalidated: seq<string>

    constructor (answers: seq<Response>)
      ensures this.answers == answers && requested == [] && invalidated == []
    {
      this.answers := answers;
      requested := [];
      invalidated := [];
    }

    /** `http_session.get(url)`: the next answer, if the script has one. */
    method Get(url: string) returns (r: Option<Response>)
      modifies this
      ensures invalidated == old(invalidated)
      ensures old(answers) == [] ==> r == None && answers == [] && requested == old(requested)
      ensures old(answers) != [] ==>
        r == Some(old(answers)[0]) && answers == old(answers)[1..] && requested == old(requested) + [url]
    {
      if answers == [] {
        return None;
      }
      r := Some(answers[0]);
      answers := answers[1..];
      requested := requested + [url];
    }

    /** `http_session.cache.invalidate(url)` */
    method Invalidate(url: string)
      modifies this
      ensures invalidated == old(invalidated) + [url]
      ensures answers == old(answers) && requested == old(requested)
    {
      invalidated := invalidated + [url];
    }
  }

  /** `n` copies of `url`. */
  function Repeat(url: string, n: nat): (s: seq<string>)
    ensures |s| == n && forall k :: 0 <= k < n ==> s[k] == url
  {
    if n == 0 then [] else Repeat(url, n - 1) + [url]
  }

  /** `BandCamp.download_content`: the loop, asking the session once per
      round, until an answer settles it or the attempts run out. */
  method DownloadContent(session: Session, url: string) returns (f: Fetch)
    modifies session
    ensures var d := DownloadOf(url, old(session.answers), 1);
      && f == d.outcome
      && session.answers == old(session.answers)[d.used..]
      && session.requested == old(session.requested) + Repeat(url, d.used)
      && session.invalidated == old(session.invalidated)
  {
    var attempt := 1;
    ghost var used := 0;
    while attempt <= Retries
      invariant 1 <= attempt <= Retries + 1
      invariant used <= |old(session.answers)| && session.answers == old(session.answers)[used..]
      invariant session.requested == old(session.requested) + Repeat(url, used)
      invariant session.invalidated == old(session.invalidated)
      invariant DownloadOf(url, old(session.answers), 1) ==
        Download(DownloadOf(url, session.answers, attempt).outcome, DownloadOf(url, session.answers, attempt).used + used)
      decreases |session.answers|
    {
      ghost var before := session.answers;
      var answer := session.Get(url);
      if answer.None? {
        return Unanswered;
      }
      assert before[1..] == old(session.answers)[used + 1..];
      used := used + 1;
      match answer.value {
        case Answered(finalUrl, body) =>
          if finalUrl != url {
            return NoContent;
          }
          return Content(body);
        case HttpError(code) =>
          if code == 410 {
            return Expired;
          }
          if IsClientError(code) {
            return NoContent;
          }
        case TransportError =>
          attempt := attempt + 1;
      }
    }
    f := NoContent;
  }

  /** What `get_soup` makes of a download: `BeautifulSoup` of the body, and
      of `None` a TypeError (it takes the length of its argument). */
  function SoupOf(f: Fetch, parse: Bytes -> Soup): (r: Result<Soup, Exc>)
    ensures r.Ok? <==> f.Content?
    ensures f.Expired? ==> r == Err(LinkExpiredException)
  {
    match f
    case Content(body) => Ok(parse(body))
    case NoContent => Err(TypeError("object of type 'NoneType' has no len()"))
    case Expired => Err(LinkExpiredException)
    case Unanswered => Err(NetworkScriptExhausted)
  }

  /** `BandCamp.get_soup`; HTML parsing is the parameter `parse`. */
  method GetSoup(session: Session, url: string, parse: Bytes -> Soup) returns (r: Result<Soup, Exc>)
    modifies session
    ensures var d := DownloadOf(url, old(session.answers), 1);
      && r == SoupOf(d.outcome, parse)
      && session.answers == old(session.answers)[d.used..]
      && session.requested == old(session.requested) + Repeat(url, d.used)
      && session.invalidated == old(session.invalidated)
  {
    var content := DownloadContent(session, url);
    r := SoupOf(content, parse);
  }

  // ---------------------------------------------------------------------
  // Paths and URLs
  // ---------------------------------------------------------------------

  /** `v.name` for an attribute value `v`: only items have attributes here. */
  function AttrOf(v: Value, name: string): (r: Result<Value, Exc>)
    reads if v.Ref? then {v.item} else {}
    ensures !v.Ref? ==> r == Err(AttributeError(name))
  {
    if v.Ref? then v.item.GetAttr(name) else Err(AttributeError(name))
  }

  /** `BandCamp.to_full_url(band, path)` on a band item. */
  function ToFullUrl(band: Item, path: string): (r: Result<string, Exc>)
    reads band
    ensures r.Ok? <==> band.GetAttr("url").Ok? && band.GetAttr("url").value.Data? && band.GetAttr("url").value.j.Str?
    ensures r.Ok? ==> r.value == WithPath(band.GetAttr("url").value.j.s, path)
  {
    match band.GetAttr("url")
    case Ok(u) => if u.Data? && u.j.Str? then Ok(WithPath(u.j.s, path)) else Err(TypeError("url is not a string"))
    case Err(e) => Err(e)
  }

  /** `USER_DATA_DIR / "tracks"` */
  function TracksDir(dataDir: string): string {
    PathJoin(dataDir, "tracks")
  }

  /** `BandCamp.get_absolute_path` */
  function AbsolutePath(dataDir: string, part: string): string {
    PathJoin(dataDir, part)
  }

  /** The directory `build_track_path_name` makes for an album. */
  function AlbumDir(dataDir: string, bandSlug: string, albumSlug: string): string {
    PathJoin(PathJoin(TracksDir(dataDir), bandSlug), albumSlug)
  }

  /** The path `build_track_path_name` returns, relative to the data directory. */
  function TrackPath(bandSlug: string, albumSlug: string, titleSlug: string): string {
    PathJoin(PathJoin(PathJoin("tracks", bandSlug), albumSlug), titleSlug + ".mp3")
  }

  /** A slug: text without any '/'. */
  predicate IsSlug(s: string) {
    '/' !in s
  }

  /** What joining a slug adds to a path: nothing for an empty slug. */
  function Segment(slug: string): string {
    if slug == "" then "" else "/" + slug
  }

  /** Joining a slug to a path that does not end in '/' puts one '/' between. */
  lemma JoinSlug(p: string, slug: string)
    requires p != "" && p[|p| - 1] != '/' && IsSlug(slug)
    ensures PathJoin(p, slug) == p + Segment(slug)
  {
    if slug != "" {
      assert slug[0] != '/';
    }
  }

  /** A path followed by a slug's segment ends as the path or the slug does. */
  lemma SegmentLast(p: string, slug: string)
    requires p != "" && p[|p| - 1] != '/' && IsSlug(slug)
    ensures var q := p + Segment(slug); q != "" && q[|q| - 1] != '/'
  {
    if slug != "" {
      var q := p + Segment(slug);
      assert q[|q| - 1] == slug[|slug| - 1];
    }
  }

  /** The path `build_track_path_name` returns is "tracks", then the band
      and album slugs, then the title slug with ".mp3", '/'-separated. */
  lemma TrackPathShape(bandSlug: string, albumSlug: string, titleSlug: string)
    requires IsSlug(bandSlug) && IsSlug(albumSlug) && IsSlug(titleSlug)
    ensures TrackPath(bandSlug, albumSlug, titleSlug)
         == "tracks" + Segment(bandSlug) + Segment(albumSlug) + "/" + (titleSlug + ".mp3")
    ensures TrackPath(bandSlug, albumSlug, titleSlug)[0] == 't'
  {
    JoinSlug("tracks", bandSlug);
    SegmentLast("tracks", bandSlug);
    var b := "tracks" + Segment(bandSlug);
    JoinSlug(b, albumSlug);
    SegmentLast(b, albumSlug);
    var a := b + Segment(albumSlug);
    var t := titleSlug + ".mp3";
    assert IsSlug(t);
    JoinSlug(a, t);
  }

  /** Joining a relative path to one that does not end in '/' puts one '/' between. */
  lemma JoinRelative(p: string, x: string)
    requires p != "" && p[|p| - 1] != '/' && x != "" && x[0] != '/'
    ensures PathJoin(p, x) == p + "/" + x
  {
  }

  /** The directory made for an album is the tracks directory, then the band
      and album slugs, '/'-separated. */
  lemma AlbumDirShape(dataDir: string, bandSlug: string, albumSlug: string)
    requires dataDir != "" && dataDir[|dataDir| - 1] != '/'
    requires IsSlug(bandSlug) && IsSlug(albumSlug)
    ensures AlbumDir(dataDir, bandSlug, albumSlug) == dataDir + "/" + "tracks" + Segment(bandSlug) + Segment(albumSlug)
  {
    JoinRelative(dataDir, "tracks");
    var tracks := dataDir + "/" + "tracks";
    JoinSlug(tracks, bandSlug);
    SegmentLast(tracks, bandSlug);
    JoinSlug(tracks + Segment(bandSlug), albumSlug);
  }

  lemma AlbumDirLast(dataDir: string, bandSlug: string, albumSlug: string)
    requires dataDir != "" && dataDir[|dataDir| - 1] != '/'
    requires IsSlug(bandSlug) && IsSlug(albumSlug)
    ensures var album := dataDir + "/" + "tracks" + Segment(bandSlug) + Segment(albumSlug);
      album != "" && album[|album| - 1] != '/'
  {
    var tracks := dataDir + "/" + "tracks";
    assert tracks[|tracks| - 1] == 's';
    SegmentLast(tracks, bandSlug);
    SegmentLast(tracks + Segment(bandSlug), albumSlug);
  }

  /** The file name of a track's mp3 is itself a slug, and not empty. */
  lemma Mp3Name(titleSlug: string)
    requires IsSlug(titleSlug)
    ensures var t := titleSlug + ".mp3"; IsSlug(t) && t != "" && t[0] != '/' && t[|t| - 1] != '/'
  {
    var t := titleSlug + ".mp3";
    if titleSlug == "" {
      assert t == ".mp3";
    } else {
      assert t[0] == titleSlug[0];
    }
  }

  /** The mp3 file a track's path names lies in the directory that
      `build_track_path_name` makes for its album. */
  lemma TrackPathInAlbumDir(dataDir: string, bandSlug: string, albumSlug: string, titleSlug: string)
    requires dataDir != "" && dataDir[|dataDir| - 1] != '/'
    requires IsSlug(bandSlug) && IsSlug(albumSlug) && IsSlug(titleSlug)
    ensures AbsolutePath(dataDir, TrackPath(bandSlug, albumSlug, titleSlug))
         == PathJoin(AlbumDir(dataDir, bandSlug, albumSlug), titleSlug + ".mp3")
  {
    var b, a, t := Segment(bandSlug), Segment(albumSlug), titleSlug + ".mp3";
    Mp3Name(titleSlug);
    TrackPathShape(bandSlug, albumSlug, titleSlug);
    var path := "tracks" + b + a + "/" + t;
    JoinRelative(dataDir, path);
    AlbumDirShape(dataDir, bandSlug, albumSlug);
    var album := dataDir + "/" + "tracks" + b + a;
    AlbumDirLast(dataDir, bandSlug, albumSlug);
    JoinRelative(album, t);
    Regroup(dataDir, "/", "tracks", b, a, t);
  }

  lemma Regroup(d: string, sep: string, p: string, b: string, a: string, t: string)
    ensures d + sep + (p + b + a + sep + t) == d + sep + p + b + a + sep + t
  {
  }

  // ---------------------------------------------------------------------
  // Items from storage
  // ---------------------------------------------------------------------

  /** The class whose `of_type` a stored `of_type` value names. */
  function KindNamed(ofType: J.Json): (k: Option<Kind>)
    ensures k == Some(BandKind) <==> ofType == J.Str("band")
    ensures k == Some(AlbumKind) <==> ofType == J.Str("album")
    ensures k == Some(TrackKind) <==> ofType == J.Str("song")
  {
    if ofType == J.Str("band") then Some(BandKind)
    else if ofType == J.Str("album") then Some(AlbumKind)
    else if ofType == J.Str("song") then Some(TrackKind)
    else None
  }

  /** `BandCamp.load_item`: an item of the class the stored `of_type` names,
      built on `url` and updated from the stored dict; a stored key that
      `setattr` refuses raises. */
  method LoadItem(url: string, content: map<string, J.Json>) returns (r: Result<Item, Exc>)
    ensures "of_type" !in content ==> r == Err(KeyError("of_type"))
    ensures "of_type" in content && KindNamed(content["of_type"]).None? ==> r.Err? && r.error.ValueError?
    ensures r.Ok? ==> "of_type" in content && KindNamed(content["of_type"]) == Some(r.value.kind)
    ensures r.Ok? ==> fresh(r.value)
    ensures r.Ok? ==> forall k :: k in content && k != "children" ==> k in r.value.attrs && r.value.attrs[k] == Data(content[k])
    ensures r.Ok? ==> Settable(r.value.kind, content)
    ensures "of_type" in content && KindNamed(content["of_type"]).Some? && !Settable(KindNamed(content["of_type"]).value, content) ==>
      r.Err? && (r.error.AttributeError? || r.error.TypeError? || r.error.ValueError?)
    ensures "of_type" in content && KindNamed(content["of_type"]) == Some(TrackKind) && Settable(TrackKind, content) ==>
      r.Ok? && r.value.attrs == InitialAttrs(TrackKind, StrValue(url)) + ContentAttrs(content)
    ensures "of_type" in content && KindNamed(content["of_type"]) == Some(TrackKind) &&
            "parent" in content && Settable(TrackKind, content - {"parent"}) ==>
      r == Err(AttributeError("of_type"))
  {
    if "of_type" !in content {
      return Err(KeyError("of_type"));
    }
    var kind := KindNamed(content["of_type"]);
    if kind.None? {
      return Err(ValueError("content type is not valid"));
    }
    var made := New(kind.value, StrValue(url));
    if made.Err? {
      return Err(made.error);
    }
    var item := made.value;
    ghost var before := item.attrs;
    var updated := item.UpdateFromDict(content);
    if updated.Err? {
      if !Settable(kind.value, content) {
        UpdateFailedError(before, item.attrs, kind.value, content, updated.error);
      }
      return Err(updated.error);
    }
    r := Ok(item);
  }

  /** `BandCamp.items_serializer`: the `to_dict` of an item; anything else is
      not JSON serializable. */
  method ItemsSerializer(obj: Value) returns (r: Result<map<string, Value>, Exc>)
    ensures obj.Ref? ==> r == Serialized(obj.item.kind, obj.item.attrs)
    ensures !obj.Ref? ==> r.Err? && r.error.TypeError?
  {
    if !obj.Ref? {
      return Err(TypeError("object is not JSON serializable"));
    }
    r := obj.item.Serialize();
  }

  // ---------------------------------------------------------------------
  // The client
  // ---------------------------------------------------------------------

  /** `BandCamp`: the loaded items by URL, with the HTTP session, the disk
      and the data directory (`USER_DATA_DIR`) it works with. */
  class BandCamp {
    var items: map<Value, Item>
    /** what `Storage.update` was last given */
    var stored: map<Value, Item>
    const session: Session
    const disk: FileSystem
    const dataDir: string

    /** A client with no items loaded (see README: loading from storage is
        not part of the model). */
    constructor (session: Session, disk: FileSystem, dataDir: string)
      ensures items == map[] && stored == map[]
      ensures this.session == session && this.disk == disk && this.dataDir == dataDir
    {
      items := map[];
      stored := map[];
      this.session := session;
      this.disk := disk;
      this.dataDir := dataDir;
    }

    /** The miss path of `BandCamp.get_item`: the URL's cache entry is
        dropped and a new item is built and filled from its download page.
        `baseDownloadUrl` is the `download_url` the base class gives the new
        item, defined outside this code. */
    method LoadFresh(url: string, kind: Kind, baseDownloadUrl: string, parse: Bytes -> Soup)
      returns (r: Result<Item, Exc>)
      modifies session
      ensures session.invalidated == old(session.invalidated) + [url]
      ensures r.Ok? ==> fresh(r.value) && r.value.kind == kind && r.value.GetAttr("url").Ok?
      ensures r.Ok? && kind == TrackKind ==>
        var f := DownloadOf(DownloadUrl(kind, baseDownloadUrl), old(session.answers), 1).outcome;
        f.Content? && Playable(parse(f.body)) && "mp3_url" in r.value.attrs
    {
      session.Invalidate(url);
      var made := New(kind, StrValue(url));
      if made.Err? {
        return Err(made.error);
      }
      var item := made.value;
      assert "url" in item.attrs;
      var soup := GetSoup(session, DownloadUrl(kind, baseDownloadUrl), parse);
      if soup.Err? {
        return Err(soup.error);
      }
      var success := item.UpdateFromSoup(soup.value);
      if success.Err? {
        return Err(success.error);
      }
      if !success.value {
        return Err(LoadItemException("Cant load item"));
      }
      // `url` is set by the constructor and every update keeps an entry for it.
      assert "url" in item.attrs;
      r := Ok(item);
    }

    /** `BandCamp.get_item`: a loaded item that is not expired is returned as
        it is; otherwise a fresh one is loaded and, when that succeeds, stored
        under the URL the item ends up with. `expired` is the loaded item's
        `expired`, defined outside this code. */
    method GetItem(url: string, kind: Kind, expired: bool, baseDownloadUrl: string, parse: Bytes -> Soup)
      returns (r: Result<Item, Exc>)
      modifies this, session
      ensures StrValue(url) in old(items) && !expired ==>
        && r == Ok(old(items)[StrValue(url)])
        && items == old(items) && stored == old(stored)
        && session.answers == old(session.answers) && session.requested == old(session.requested)
        && session.invalidated == old(session.invalidated)
      ensures !(StrValue(url) in old(items) && !expired) ==>
        session.invalidated == old(session.invalidated) + [url]
      ensures r.Err? ==> items == old(items) && stored == old(stored)
      ensures r.Ok? && !(StrValue(url) in old(items) && !expired) ==>
        && fresh(r.value) && r.value.kind == kind && r.value.GetAttr("url").Ok?
        && items == old(items)[r.value.GetAttr("url").value := r.value]
        && stored == items
      ensures r.Ok? && !(StrValue(url) in old(items) && !expired) && kind == TrackKind ==>
        var f := DownloadOf(DownloadUrl(kind, baseDownloadUrl), old(session.answers), 1).outcome;
        f.Content? && Playable(parse(f.body)) && "mp3_url" in r.value.attrs
    {
      var key := StrValue(url);
      if key in items && !expired {
        return Ok(items[key]);
      }
      r := LoadFresh(url, kind, baseDownloadUrl, parse);
      if r.Err? {
        return;
      }
      var newUrl := r.value.GetAttr("url");
      items := items[newUrl.value := r.value];
      stored := items;
    }

    /** `BandCamp.build_track_path_name`: the slugs of the band name, the
        album name and the title name the mp3 file; the album directory
        under the tracks directory is made when missing. `slug` is
        `slugify`. */
    method BuildTrackPathName(track: Item, slug: Value -> string) returns (r: Result<string, Exc>)
      modifies disk
      ensures var album := track.GetAttr("album");
        album.Ok? ==> var band := AttrOf(album.value, "band");
        band.Ok? ==> var bandName := AttrOf(band.value, "name"); var albumName := AttrOf(album.value, "name");
        bandName.Ok? && albumName.Ok? ==>
          && disk.state.Exists(AlbumDir(dataDir, slug(bandName.value), slug(albumName.value)))
          && (track.GetAttr("title").Ok? ==>
                r == Ok(TrackPath(slug(bandName.value), slug(albumName.value), slug(track.GetAttr("title").value))))
      ensures r.Ok? ==> track.GetAttr("album").Ok? && track.GetAttr("title").Ok?
      ensures var album := track.GetAttr("album");
        var band := if album.Ok? then AttrOf(album.value, "band") else album;
        var bandName := if band.Ok? then AttrOf(band.value, "name") else band;
        var albumName := if bandName.Ok? then AttrOf(album.value, "name") else bandName;
        && (albumName.Err? ==> r == Err(albumName.error) && disk.state == old(disk.state))
        && (albumName.Ok? ==>
              && disk.state == MadeDir(old(disk.state), AlbumDir(dataDir, slug(bandName.value), slug(albumName.value)))
              && (track.GetAttr("title").Err? ==> r == Err(track.GetAttr("title").error)))
    {
      var album := track.GetAttr("album");
      if album.Err? {
        return Err(album.error);
      }
      var band := AttrOf(album.value, "band");
      if band.Err? {
        return Err(band.error);
      }
      var bandName := AttrOf(band.value, "name");
      if bandName.Err? {
        return Err(bandName.error);
      }
      var albumName := AttrOf(album.value, "name");
      if albumName.Err? {
        return Err(albumName.error);
      }
      var bandSlug, albumSlug := slug(bandName.value), slug(albumName.value);
      var absolute := AlbumDir(dataDir, bandSlug, albumSlug);
      if !disk.state.Exists(absolute) {
        disk.MakeDirs(absolute);
      }
      var title := track.GetAttr("title");
      if title.Err? {
        return Err(title.error);
      }
      r := Ok(TrackPath(bandSlug, albumSlug, slug(title.value)));
    }

    /** Where `download_mp3` keeps a track: its `path` under the data directory. */
    function TrackFile(track: Item): (r: Result<string, Exc>)
      reads track
    {
      match track.GetAttr("path")
      case Ok(v) => if v.Data? && v.j.Str? then Ok(AbsolutePath(dataDir, v.j.s)) else Err(TypeError("path is not a string"))
      case Err(e) => Err(e)
    }

    /** `BandCamp.download_mp3`: nothing is fetched when the track's file
        exists (True); otherwise its `mp3_url` is downloaded and written to
        that file (False), and no content raises `StopCurrentTaskExeption`. */
    method DownloadMp3(track: Item) returns (r: Result<bool, Exc>)
      modifies session, disk
      ensures TrackFile(track).Err? ==>
        && r == Err(TrackFile(track).error) && disk.state == old(disk.state) && session.answers == old(session.answers)
        && session.requested == old(session.requested) && session.invalidated == old(session.invalidated)
      ensures TrackFile(track).Ok? && old(disk.state).Exists(TrackFile(track).value) ==>
        && r == Ok(true) && disk.state == old(disk.state)
        && session.answers == old(session.answers) && session.requested == old(session.requested)
        && session.invalidated == old(session.invalidated)
      ensures TrackFile(track).Ok? && !old(disk.state).Exists(TrackFile(track).value) ==>
        var mp3 := track.GetAttr("mp3_url");
        (mp3.Err? || !(mp3.value.Data? && mp3.value.j.Str?) ==>
          && disk.state == old(disk.state) && session.answers == old(session.answers)
          && session.requested == old(session.requested) && session.invalidated == old(session.invalidated)) &&
        (mp3.Err? ==> r == Err(mp3.error)) &&
        (mp3.Ok? && !(mp3.value.Data? && mp3.value.j.Str?) ==> r == Err(TypeError("mp3_url is not a string"))) &&
        (mp3.Ok? && mp3.value.Data? && mp3.value.j.Str? ==>
          var d := DownloadOf(mp3.value.j.s, old(session.answers), 1);
          && session.answers == old(session.answers)[d.used..]
          && session.requested == old(session.requested) + Repeat(mp3.value.j.s, d.used)
          && session.invalidated == old(session.invalidated)
          && (d.outcome.Content? ==>
                r == Ok(false) && disk.state == DiskState(old(disk.state.files)[TrackFile(track).value := d.outcome.body], old(disk.state.dirs)))
          && (d.outcome.NoContent? ==> r == Err(StopCurrentTaskExeption("download_mp3: cant get mp3")) && disk.state == old(disk.state))
          && (d.outcome.Expired? ==> r == Err(LinkExpiredException) && disk.state == old(disk.state))
          && (d.outcome.Unanswered? ==> r == Err(NetworkScriptExhausted) && disk.state == old(disk.state)))
    {
      var path := TrackFile(track);
      if path.Err? {
        return Err(path.error);
      }
      if disk.state.Exists(path.value) {
        return Ok(true);
      }
      var mp3 := track.GetAttr("mp3_url");
      if mp3.Err? {
        return Err(mp3.error);
      }
      if !(mp3.value.Data? && mp3.value.j.Str?) {
        return Err(TypeError("mp3_url is not a string"));
      }
      var content := DownloadContent(session, mp3.value.j.s);
      match content {
        case Content(body) =>
          disk.Write(path.value, body);
          r := Ok(false);
        case NoContent =>
          r := Err(StopCurrentTaskExeption("download_mp3: cant get mp3"));
        case Expired =>
          r := Err(LinkExpiredException);
        case Unanswered =>
          r := Err(NetworkScriptExhausted);
      }
    }
  }
}
