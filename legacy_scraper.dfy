/** The older scraper of `bcp/bandcamplib.py`: the generator
    `get_mp3s_from_url`, which dispatches on the type of a URL and recurses
    from a band's music page to its albums and from an album to the stream
    URLs of its tracks, saving each mp3 under "tracks". The generator is a
    function here: what a consumer that runs it to the end sees, namely the
    paths yielded in order, the exception that stopped it (if any), the URLs
    fetched and the disk afterwards. */
module LegacyScraper {
  import opened Wrappers
  import opened Strings
  import opened Urls
  import opened Disk
  import opened Scraper
  import J = Json

  /** The network as this revision sees it: `requests.get(url).content`,
      parsed as a page or taken as bytes. */
  datatype Site = Site(pages: string -> Page, bodies: string -> Bytes)

  /** The `info` dict handed down to a stream URL. */
  datatype Info = Info(artist: string, album: string, title: J.Json)

  /** What running the generator to its end gives. */
  datatype Run = Run(paths: seq<string>, disk: DiskState, stop: Option<Exc>, fetched: seq<string>)

  // ---------------------------------------------------------------------
  // Album URLs and tracks
  // ---------------------------------------------------------------------

  /** `_get_albums_urls_from_html` of this revision: the href of every `li`
      anchor, with no filter; a page without the grid has no `find_all`. */
  function AllHrefs(page: Page): (r: Result<seq<string>, Exc>)
    ensures page.grid.None? ==> r == Err(AttributeError("find_all"))
    ensures page.grid.Some? ==> (r.Ok? <==> forall k :: 0 <= k < |page.grid.value.items| ==> ItemHref(page.grid.value.items[k]).Ok?)
    ensures r.Ok? ==>
      && |r.value| == |page.grid.value.items|
      && forall k :: 0 <= k < |r.value| ==> Some(Some(r.value[k])) == page.grid.value.items[k].anchor
  {
    match page.grid
    case None => Err(AttributeError("find_all"))
    case Some(grid) =>
      match ItemHrefs(grid.items)
      case Err(e) => Err(e)
      case Ok(hs) =>
        assert forall k :: 0 <= k < |hs| ==> Ok(hs[k]) == ItemHref(grid.items[k]);
        Ok(seq(|hs|, k requires 0 <= k < |hs| => hs[k].s))
  }

  /** `_get_albums_urls_from_url` of this revision, as the generator uses it. */
  function AlbumUrls(url: string, page: Page): Result<seq<string>, Exc> {
    match AllHrefs(page)
    case Err(e) => Err(e)
    case Ok(paths) => Ok(WithPaths(url, paths))
  }

  /** `_get_albums_urls_from_url` of this revision: fetches the page and puts
      each href into the URL. */
  method AlbumsUrlsFromUrl(url: string, web: Web) returns (r: Result<seq<string>, Exc>)
    modifies web
    ensures web.requested == old(web.requested) + [url]
    ensures r == AlbumUrls(url, web.pages(url))
  {
    var page := web.FetchPage(url);
    var paths := AllHrefs(page);
    if paths.Err? {
      return Err(paths.error);
    }
    var urls := PutPaths(url, paths.value);
    r := Ok(urls);
  }

  /** The inner loop body of this revision's `_get_tracks_from_html`: only
      `id` is checked, and the entry's mp3 URL and title are kept. */
  function TrackOfEntry(entry: J.Json): (r: Result<Option<TrackInfo>, Exc>)
    ensures entry.Object? && "id" in entry.fields && !J.Truthy(entry.fields["id"]) ==> r == Ok(None)
    ensures r.Ok? && r.value.Some? ==>
      && entry.Object? && "id" in entry.fields && J.Truthy(entry.fields["id"])
      && "file" in entry.fields && J.Get(entry.fields["file"], "mp3-128").Ok? && "title" in entry.fields
      && r.value.value == map["url" := J.Get(entry.fields["file"], "mp3-128").value, "title" := entry.fields["title"]]
  {
    var id :- J.Get(entry, "id");
    if !J.Truthy(id) then Ok(None)
    else
      var file :- J.Get(entry, "file");
      var url :- J.Get(file, "mp3-128");
      var title :- J.Get(entry, "title");
      Ok(Some(map["url" := url, "title" := title]))
  }

  /** An entry with an id and a null `file` is skipped by the newer revision
      and stops this one with a TypeError. */
  lemma NullFileEntry(id: J.Json, title: J.Json)
    requires J.Truthy(id)
    ensures var entry := J.Object(map["id" := id, "file" := J.Null, "title" := title]);
      && Scraper.TrackOfEntry(entry) == Ok(None)
      && TrackOfEntry(entry).Err? && TrackOfEntry(entry).error.TypeError?
  {
  }

  /** This revision's `_get_tracks_from_html`. */
  method TracksFromHtml(page: Page) returns (r: Result<seq<TrackInfo>, Exc>)
    ensures r == ScriptsTracks(page.scripts, TrackOfEntry)
  {
    r := CollectTracks(page, TrackOfEntry);
  }

  // ---------------------------------------------------------------------
  // _get_mp3_path
  // ---------------------------------------------------------------------

  /** `os.path.join("tracks", artist, album)` */
  function LegacyAlbumPath(info: Info): string {
    OsJoin(OsJoin("tracks", info.artist), info.album)
  }

  /** `_get_mp3_path(content, info)`: makes the album directory when it is
      missing, writes the content to `<album dir>/<slug(title)>.mp3` when no
      file is there yet, and gives that path. */
  function SaveMp3(content: Bytes, info: Option<Info>, disk: DiskState, slug: string -> string): (Result<string, Exc>, DiskState) {
    match info
    case None => (Err(TypeError("'NoneType' object is not subscriptable")), disk)
    case Some(i) =>
      var albumPath := LegacyAlbumPath(i);
      if !i.title.Str? then (Err(TypeError("expected str")), disk)
      else if Blocked(disk, albumPath) then (Err(FileExistsError(albumPath)), disk)
      else
        var withDir := DiskState(disk.files, disk.dirs + {albumPath});
        var song := OsJoin(albumPath, slug(i.title.s) + ".mp3");
        if withDir.IsFile(song) then (Ok(song), withDir)
        else if withDir.IsDir(song) then (Err(IsADirectoryError(song)), withDir)
        else (Ok(song), DiskState(withDir.files[song := content], withDir.dirs))
  }

  /** The song path is the album directory, then the title's slug with
      ".mp3"; afterwards it is a file, holding the new content only if none
      was there before, and the album directory exists. */
  lemma SaveMp3Writes(content: Bytes, info: Info, disk: DiskState, slug: string -> string)
    requires info.title.Str?
    requires SaveMp3(content, Some(info), disk, slug).0.Ok?
    ensures var (r, after) := SaveMp3(content, Some(info), disk, slug);
      && r.value == OsJoin(LegacyAlbumPath(info), slug(info.title.s) + ".mp3")
      && after.IsFile(r.value) && after.IsDir(LegacyAlbumPath(info))
      && (disk.IsFile(r.value) ==> after.files == disk.files)
      && (!disk.IsFile(r.value) ==> after.files == disk.files[r.value := content])
      && after.dirs == disk.dirs + {LegacyAlbumPath(info)}
  {
  }

  /** For slug-like names, the song path is "tracks/<artist>/<album>/<slug>.mp3". */
  lemma {:induction false} SaveMp3Path(artist: string, album: string, title: string, slug: string -> string)
    requires artist != "" && '/' !in artist && album != "" && '/' !in album && '/' !in slug(title)
    ensures OsJoin(LegacyAlbumPath(Info(artist, album, J.Str(title))), slug(title) + ".mp3")
         == "tracks" + "/" + artist + "/" + album + "/" + (slug(title) + ".mp3")
  {
    var name := slug(title) + ".mp3";
    assert artist[0] != '/' && album[0] != '/';
    assert name[0] != '/' by {
      if slug(title) == "" { assert name == ".mp3"; } else { assert name[0] == slug(title)[0]; }
    }
    assert artist[|artist| - 1] != '/' && album[|album| - 1] != '/';
    OsJoinPlain("tracks", artist);
    var a := "tracks" + "/" + artist;
    OsJoinPlain(a, album);
    var b := a + "/" + album;
    OsJoinPlain(b, name);
  }

  // ---------------------------------------------------------------------
  // get_mp3s_from_url
  // ---------------------------------------------------------------------

  /** The URL type after an empty one is read as "music", and the URL with
      "music" appended to it then, with no separator added. */
  function Dispatch(url: string): (Kind, string) {
    var t := UrlType(url);
    if t == "" then (Music, url + "music") else (KindOf(t), url)
  }

  /** The branches of `get_mp3s_from_url`, one per URL type it compares
      against, and `Other` for a type matching none of them. */
  datatype Kind = Music | Album | Track | Stream | Other

  /** Which branch a non-empty URL type takes. */
  function KindOf(t: string): Kind {
    if t == "music" then Music
    else if t == "album" then Album
    else if t == "track" then Track
    else if t == "stream" then Stream
    else Other
  }

  /** `get_mp3s_from_url(url, info)` run to its end, with at most `fuel`
      nested calls. */
  function Mp3s(url: string, info: Option<Info>, site: Site, disk: DiskState, slug: string -> string, fuel: nat): Run
    decreases fuel, 1, 0
  {
    if fuel == 0 then Run([], disk, Some(OutOfFuel), [])
    else Dispatched(Dispatch(url), info, site, disk, slug, fuel - 1)
  }

  /** The branch for a URL of type `kind`, on the URL `target`. */
  function Dispatched(dispatch: (Kind, string), info: Option<Info>, site: Site, disk: DiskState, slug: string -> string, fuel: nat): Run
    decreases fuel, 4, 0
  {
    var (kind, target) := dispatch;
    match kind
    case Music => MusicBranch(target, site, disk, slug, fuel)
    case Album => AlbumBranch(target, site, disk, slug, fuel)
    case Track => TrackBranch(target, site, disk)
    case Stream => StreamBranch(target, info, site, disk, slug)
    case Other => Run([], disk, None, [])
  }

  /** A music page: its album URLs, each run in turn. */
  function MusicBranch(url: string, site: Site, disk: DiskState, slug: string -> string, fuel: nat): Run
    decreases fuel, 3, 0
  {
    match AlbumUrls(url, site.pages(url))
    case Err(e) => Run([], disk, Some(e), [url])
    case Ok(albums) =>
      var run := RunAlbums(albums, site, disk, slug, fuel);
      run.(fetched := [url] + run.fetched)
  }

  /** An album page: its tracks, each run with the artist and album. */
  function AlbumBranch(url: string, site: Site, disk: DiskState, slug: string -> string, fuel: nat): Run
    decreases fuel, 3, 0
  {
    match ScriptsTracks(site.pages(url).scripts, TrackOfEntry)
    case Err(e) => Run([], disk, Some(e), [url])
    case Ok(tracks) =>
      var run := RunTracks(tracks, url, site, disk, slug, fuel);
      run.(fetched := [url] + run.fetched)
  }

  /** A track page: its tracks are read, then the loop names `tracks_urls`,
      which is not defined. */
  function TrackBranch(url: string, site: Site, disk: DiskState): Run {
    match ScriptsTracks(site.pages(url).scripts, TrackOfEntry)
    case Err(e) => Run([], disk, Some(e), [url])
    case Ok(_) => Run([], disk, Some(NameError("tracks_urls")), [url])
  }

  /** A stream URL: its content is fetched, then saved, and the path yielded. */
  function StreamBranch(url: string, info: Option<Info>, site: Site, disk: DiskState, slug: string -> string): Run {
    match SaveMp3(site.bodies(url), info, disk, slug)
    case (Err(e), after) => Run([], after, Some(e), [url])
    case (Ok(path), after) => Run([path], after, None, [url])
  }

  /** `for album_url in albums_urls: yield from get_mp3s_from_url(album_url)` */
  function RunAlbums(albums: seq<string>, site: Site, disk: DiskState, slug: string -> string, fuel: nat): Run
    decreases fuel, 2, 0
  {
    RunAll((u: string, d: DiskState) => Mp3s(u, None, site, d, slug, fuel), albums, disk)
  }

  /** The loop of the "album" branch: for each track, the artist and album
      read from the album URL and a recursive call on the track's URL. */
  function RunTracks(tracks: seq<TrackInfo>, albumUrl: string, site: Site, disk: DiskState, slug: string -> string, fuel: nat): Run
    decreases fuel, 2, 0
  {
    RunAll((t: TrackInfo, d: DiskState) => TrackStep(t, albumUrl, site, d, slug, fuel), tracks, disk)
  }

  /** One pass of the "album" loop. */
  function TrackStep(track: TrackInfo, albumUrl: string, site: Site, disk: DiskState, slug: string -> string, fuel: nat): Run
    decreases fuel, 1, 1
  {
    match TrackCall(track, albumUrl)
    case Err(e) => Run([], disk, Some(e), [])
    case Ok((url, info)) => Mp3s(url, Some(info), site, disk, slug, fuel)
  }

  /** A loop of `yield from`s, run to its end: each item's run from the disk
      the previous one left, until one stops. */
  function RunAll<T>(step: (T, DiskState) -> Run, xs: seq<T>, disk: DiskState): Run
    decreases |xs|
  {
    if xs == [] then Run([], disk, None, [])
    else
      var first := step(xs[0], disk);
      if first.stop.Some? then first
      else
        var rest := RunAll(step, xs[1..], first.disk);
        Run(first.paths + rest.paths, rest.disk, rest.stop, first.fetched + rest.fetched)
  }

  /** The arguments of the recursive call for one track: its URL and the
      artist, album and title. */
  function TrackCall(track: TrackInfo, albumUrl: string): (r: Result<(string, Info), Exc>)
    ensures r.Ok? ==> AlbumPlace(albumUrl).Ok? && "url" in track && track["url"].Str? && "title" in track
    ensures r.Ok? ==> r.value == (track["url"].s, Info(AlbumPlace(albumUrl).value.0, AlbumPlace(albumUrl).value.1, track["title"]))
  {
    match AlbumPlace(albumUrl)
    case Err(e) => Err(e)
    case Ok((artist, album)) =>
      if "url" !in track then Err(KeyError("url"))
      else if "title" !in track then Err(KeyError("title"))
      else if !track["url"].Str? then Err(TypeError("url is not a string"))
      else Ok((track["url"].s, Info(artist, album, track["title"])))
  }

  // ---------------------------------------------------------------------
  // Properties of the generator
  // ---------------------------------------------------------------------

  /** A URL of empty type is run as the music page at the URL with "music"
      appended. */
  lemma RootIsMusic(url: string, info: Option<Info>, site: Site, disk: DiskState, slug: string -> string, fuel: nat)
    requires UrlType(url) == "" && fuel > 0
    ensures Mp3s(url, info, site, disk, slug, fuel) == MusicBranch(url + "music", site, disk, slug, fuel - 1)
  {
  }

  /** Appending "music" with no separator: a band URL without a trailing
      '/' turns into a URL on another host. */
  lemma {:induction false} RootWithoutSlash(host: string)
    requires ValidNetloc(host)
    ensures Dispatch("https://" + host) == (Music, "https://" + host + "music")
    ensures Parse("https://" + host + "music").netloc == host + "music"
  {
    assert "https://" + host + "" == "https://" + host;
    ParseHttpsUrl(host, "");
    UrlTypeEmpty("https://" + host);
    RootMusicHost(host);
  }

  lemma {:induction false} RootMusicHost(host: string)
    requires ValidNetloc(host)
    ensures Parse("https://" + host + "music").netloc == host + "music"
  {
    assert ValidNetloc(host + "music");
    assert "https://" + (host + "music") + "" == "https://" + host + "music";
    ParseHttpsUrl(host + "music", "");
  }

  /** A band URL with its trailing '/' turns into its music page on the same
      host. */
  lemma {:induction false} RootWithSlash(host: string)
    requires ValidNetloc(host)
    ensures Dispatch("https://" + host + "/") == (Music, "https://" + host + "/music")
    ensures Parse("https://" + host + "/music").netloc == host
    ensures UrlType("https://" + host + "/music") == "music"
  {
    SlashRootIsEmpty(host);
    SlashMusic(host);
    MusicPageType(host);
  }

  lemma SlashRootIsEmpty(host: string)
    requires ValidNetloc(host)
    ensures UrlType("https://" + host + "/") == ""
  {
    ParseHttpsUrl(host, "/");
    UrlTypeEmpty("https://" + host + "/");
  }

  lemma SlashMusic(host: string)
    ensures "https://" + host + "/" + "music" == "https://" + host + "/music"
  {
    var u := "https://" + host;
    assert u + "/" + "music" == u + ("/" + "music");
  }

  lemma {:induction false} MusicPageType(host: string)
    requires ValidNetloc(host)
    ensures Parse("https://" + host + "/music").netloc == host
    ensures UrlType("https://" + host + "/music") == "music"
  {
    ParseHttpsUrl(host, "/music");
    MusicPathType();
  }

  lemma MusicPathType()
    ensures Split(Strip("/music", {'/'}), '/')[0] == "music"
  {
    var path := "/music";
    assert RStrip(path, {'/'}) == path by {
      assert TrailingIn(path, {'/'}) == 0;
    }
    assert LeadingIn(path, {'/'}) == 1 by {
      assert LeadingIn(path[1..], {'/'}) == 0;
    }
    assert Strip(path, {'/'}) == "music";
    SplitWithoutSeparator("music", '/');
  }

  /** The items of a loop run in order: running `a + b` runs `a`, and
      then, unless `a` stopped, `b` from the disk `a` left. */
  lemma {:induction false} RunAllAppend<T>(step: (T, DiskState) -> Run, a: seq<T>, b: seq<T>, disk: DiskState)
    ensures var x := RunAll(step, a, disk);
      && (x.stop.Some? ==> RunAll(step, a + b, disk) == x)
      && (x.stop.None? ==>
            var y := RunAll(step, b, x.disk);
            RunAll(step, a + b, disk) == Run(x.paths + y.paths, y.disk, y.stop, x.fetched + y.fetched))
    decreases |a|
  {
    if a == [] {
      assert a + b == b;
      var y := RunAll(step, b, disk);
      assert [] + y.paths == y.paths && [] + y.fetched == y.fetched;
    } else {
      assert (a + b)[0] == a[0] && (a + b)[1..] == a[1..] + b;
      var first := step(a[0], disk);
      if first.stop.None? {
        RunAllAppend(step, a[1..], b, first.disk);
        var x := RunAll(step, a[1..], first.disk);
        if x.stop.None? {
          var y := RunAll(step, b, x.disk);
          assert first.paths + (x.paths + y.paths) == (first.paths + x.paths) + y.paths;
          assert first.fetched + (x.fetched + y.fetched) == (first.fetched + x.fetched) + y.fetched;
        }
      }
    }
  }

  /** The albums of a music page run in order: the albums of `a + b` are
      those of `a` and then, unless one of them stopped, those of `b`. */
  lemma RunAlbumsAppend(a: seq<string>, b: seq<string>, site: Site, disk: DiskState, slug: string -> string, fuel: nat)
    ensures var x := RunAlbums(a, site, disk, slug, fuel);
      && (x.stop.Some? ==> RunAlbums(a + b, site, disk, slug, fuel) == x)
      && (x.stop.None? ==>
            var y := RunAlbums(b, site, x.disk, slug, fuel);
            RunAlbums(a + b, site, disk, slug, fuel) == Run(x.paths + y.paths, y.disk, y.stop, x.fetched + y.fetched))
  {
    RunAllAppend((u: string, d: DiskState) => Mp3s(u, None, site, d, slug, fuel), a, b, disk);
  }

  /** A loop whose every item, from any disk in `good`, yields its one path,
      fetches its one URL and leaves a disk in `good`, yields the paths of
      all items in order and fetches their URLs in order. */
  lemma {:induction false} RunAllEach<T>(step: (T, DiskState) -> Run, xs: seq<T>, disk: DiskState,
                                         good: DiskState -> bool, path: T -> string, url: T -> string)
    requires good(disk)
    requires forall k, d :: 0 <= k < |xs| && good(d) ==>
      && step(xs[k], d).stop.None? && step(xs[k], d).paths == [path(xs[k])]
      && step(xs[k], d).fetched == [url(xs[k])] && good(step(xs[k], d).disk)
    ensures var run := RunAll(step, xs, disk);
      && run.stop.None?
      && |run.paths| == |xs| && (forall k :: 0 <= k < |xs| ==> run.paths[k] == path(xs[k]))
      && |run.fetched| == |xs| && (forall k :: 0 <= k < |xs| ==> run.fetched[k] == url(xs[k]))
    decreases |xs|
  {
    if xs != [] {
      var first := step(xs[0], disk);
      assert first.stop.None? && first.paths == [path(xs[0])] && first.fetched == [url(xs[0])] && good(first.disk);
      var rest := xs[1..];
      forall k, d | 0 <= k < |rest| && good(d)
        ensures && step(rest[k], d).stop.None? && step(rest[k], d).paths == [path(rest[k])]
                && step(rest[k], d).fetched == [url(rest[k])] && good(step(rest[k], d).disk)
      {
        assert rest[k] == xs[k + 1];
      }
      RunAllEach(step, rest, first.disk, good, path, url);
      var r := RunAll(step, rest, first.disk);
      var paths, fetched := first.paths + r.paths, first.fetched + r.fetched;
      assert RunAll(step, xs, disk) == Run(paths, r.disk, r.stop, fetched);
      forall k | 0 <= k < |xs|
        ensures paths[k] == path(xs[k]) && fetched[k] == url(xs[k])
      {
        if k > 0 {
          assert xs[k] == rest[k - 1];
          assert paths[k] == r.paths[k - 1] && fetched[k] == r.fetched[k - 1];
        }
      }
    }
  }

  /** A URL of a non-empty type runs the branch of that type on itself. */
  lemma TypedDispatch(url: string, info: Option<Info>, site: Site, disk: DiskState, slug: string -> string, fuel: nat)
    requires UrlType(url) != "" && fuel > 0
    ensures Mp3s(url, info, site, disk, slug, fuel) == Dispatched((KindOf(UrlType(url)), url), info, site, disk, slug, fuel - 1)
  {
    assert Dispatch(url) == (KindOf(UrlType(url)), url);
  }

  lemma TrackDispatched(url: string, info: Option<Info>, site: Site, disk: DiskState, slug: string -> string, fuel: nat)
    ensures Dispatched((Track, url), info, site, disk, slug, fuel) == TrackBranch(url, site, disk)
  {
  }

  lemma StreamDispatched(url: string, info: Option<Info>, site: Site, disk: DiskState, slug: string -> string, fuel: nat)
    ensures Dispatched((Stream, url), info, site, disk, slug, fuel) == StreamBranch(url, info, site, disk, slug)
  {
  }

  lemma KindOfTrack(t: string)
    requires t == "track"
    ensures t != "" && KindOf(t) == Track
  {
  }

  /** A track URL runs the track branch: its page is read and the run ends
      there (see `TrackBranchIsError`). */
  lemma TrackIsTrackBranch(url: string, info: Option<Info>, site: Site, disk: DiskState, slug: string -> string, fuel: nat)
    requires UrlType(url) == "track" && fuel > 0
    ensures Mp3s(url, info, site, disk, slug, fuel) == TrackBranch(url, site, disk)
  {
    KindOfTrack(UrlType(url));
    TypedDispatch(url, info, site, disk, slug, fuel);
    TrackDispatched(url, info, site, disk, slug, fuel - 1);
  }

  /** The track branch always ends the run with an error, yields nothing and
      leaves the disk alone; when the page's tracks read, the error is the
      NameError of the undefined `tracks_urls`. */
  lemma TrackBranchIsError(url: string, site: Site, disk: DiskState)
    ensures var run := TrackBranch(url, site, disk);
      && run.paths == [] && run.stop.Some? && run.disk == disk && run.fetched == [url]
      && (ScriptsTracks(site.pages(url).scripts, TrackOfEntry).Ok? ==> run.stop == Some(NameError("tracks_urls")))
  {
  }

  /** A stream URL is saved with the info it is handed. */
  lemma StreamIsSaved(url: string, info: Option<Info>, site: Site, disk: DiskState, slug: string -> string, fuel: nat)
    requires UrlType(url) == "stream" && fuel > 0
    ensures Mp3s(url, info, site, disk, slug, fuel) == StreamBranch(url, info, site, disk, slug)
  {
    TypedDispatch(url, info, site, disk, slug, fuel);
    assert KindOf("stream") == Stream;
    StreamDispatched(url, info, site, disk, slug, fuel - 1);
  }

  /** A stream URL's content is fetched whether or not its file exists. */
  lemma StreamAlwaysFetches(url: string, info: Option<Info>, site: Site, disk: DiskState, slug: string -> string, fuel: nat)
    requires UrlType(url) == "stream" && fuel > 0
    ensures Mp3s(url, info, site, disk, slug, fuel).fetched == [url]
    ensures (&& info.Some? && info.value.title.Str?
             && disk.IsFile(OsJoin(LegacyAlbumPath(info.value), slug(info.value.title.s) + ".mp3"))
             && !Blocked(disk, LegacyAlbumPath(info.value))) ==>
        Mp3s(url, info, site, disk, slug, fuel).disk.files == disk.files
  {
    StreamIsSaved(url, info, site, disk, slug, fuel);
  }

  /** The song path of a track of the album `album` of `artist`. */
  function SongPath(artist: string, album: string, track: TrackInfo, slug: string -> string): string
    requires "title" in track && track["title"].Str?
  {
    OsJoin(LegacyAlbumPath(Info(artist, album, track["title"])), slug(track["title"].s) + ".mp3")
  }

  /** The tracks of an album whose URLs are stream URLs are saved one after
      the other: the run yields each track's song path in order and fetches
      each track's URL, provided the album directory can be made and no song
      path is a directory. */
  lemma StreamTracksSaved(tracks: seq<TrackInfo>, albumUrl: string, artist: string, album: string,
                          site: Site, disk: DiskState, slug: string -> string, fuel: nat)
    requires fuel > 0 && AlbumPlace(albumUrl) == Ok((artist, album))
    requires forall k :: 0 <= k < |tracks| ==>
      && "url" in tracks[k] && tracks[k]["url"].Str? && UrlType(tracks[k]["url"].s) == "stream"
      && "title" in tracks[k] && tracks[k]["title"].Str?
    requires !Blocked(disk, LegacyAlbumPath(Info(artist, album, J.Null)))
    requires forall k :: 0 <= k < |tracks| ==>
      && !disk.IsDir(SongPath(artist, album, tracks[k], slug))
      && SongPath(artist, album, tracks[k], slug) != LegacyAlbumPath(Info(artist, album, J.Null))
    ensures var run := RunTracks(tracks, albumUrl, site, disk, slug, fuel);
      && run.stop.None?
      && |run.paths| == |tracks| && (forall k :: 0 <= k < |tracks| ==> run.paths[k] == SongPath(artist, album, tracks[k], slug))
      && |run.fetched| == |tracks| && (forall k :: 0 <= k < |tracks| ==> run.fetched[k] == tracks[k]["url"].s)
  {
    var dir := LegacyAlbumPath(Info(artist, album, J.Null));
    var songs := seq(|tracks|, k requires 0 <= k < |tracks| => SongPath(artist, album, tracks[k], slug));
    var good := (d: DiskState) => !Blocked(d, dir) && forall k :: 0 <= k < |songs| ==> !d.IsDir(songs[k]);
    var path := (t: TrackInfo) => if "title" in t && t["title"].Str? then SongPath(artist, album, t, slug) else "";
    var url := (t: TrackInfo) => if "url" in t && t["url"].Str? then t["url"].s else "";
    var step := (t: TrackInfo, d: DiskState) => TrackStep(t, albumUrl, site, d, slug, fuel);
    forall k, d | 0 <= k < |tracks| && good(d)
      ensures && step(tracks[k], d).stop.None? && step(tracks[k], d).paths == [path(tracks[k])]
              && step(tracks[k], d).fetched == [url(tracks[k])] && good(step(tracks[k], d).disk)
    {
      assert songs[k] == SongPath(artist, album, tracks[k], slug);
      StreamTrackStep(tracks[k], albumUrl, artist, album, site, d, slug, fuel, songs);
    }
    RunAllEach(step, tracks, disk, good, path, url);
  }

  /** One round of that loop, from a disk where the album directory can be
      made and no song path of the album is a directory: the track is saved
      at its song path, its URL is fetched, and the disk it leaves is such a
      disk again. */
  lemma StreamTrackStep(t: TrackInfo, albumUrl: string, artist: string, album: string,
                        site: Site, d: DiskState, slug: string -> string, fuel: nat, songs: seq<string>)
    requires fuel > 0 && AlbumPlace(albumUrl) == Ok((artist, album))
    requires "url" in t && t["url"].Str? && UrlType(t["url"].s) == "stream" && "title" in t && t["title"].Str?
    requires !Blocked(d, LegacyAlbumPath(Info(artist, album, J.Null)))
    requires SongPath(artist, album, t, slug) in songs
    requires forall j :: 0 <= j < |songs| ==> !d.IsDir(songs[j]) && songs[j] != LegacyAlbumPath(Info(artist, album, J.Null))
    ensures var r := TrackStep(t, albumUrl, site, d, slug, fuel);
      && r.stop.None? && r.paths == [SongPath(artist, album, t, slug)] && r.fetched == [t["url"].s]
      && !Blocked(r.disk, LegacyAlbumPath(Info(artist, album, J.Null)))
      && forall j :: 0 <= j < |songs| ==> !r.disk.IsDir(songs[j])
  {
    var dir := LegacyAlbumPath(Info(artist, album, J.Null));
    assert TrackCall(t, albumUrl) == Ok((t["url"].s, Info(artist, album, t["title"])));
    StreamOneTrack(t, artist, album, site, d, slug, fuel);
    var r := Mp3s(t["url"].s, Some(Info(artist, album, t["title"])), site, d, slug, fuel);
    assert TrackStep(t, albumUrl, site, d, slug, fuel) == r;
    forall j | 0 <= j < |songs|
      ensures !r.disk.IsDir(songs[j])
    {
      assert !d.IsDir(songs[j]) && songs[j] != dir;
    }
  }

  /** One stream track of an album: it is saved at its song path, and the
      album directory is added. */
  lemma StreamOneTrack(t: TrackInfo, artist: string, album: string, site: Site, disk: DiskState, slug: string -> string, fuel: nat)
    requires fuel > 0
    requires "url" in t && t["url"].Str? && UrlType(t["url"].s) == "stream" && "title" in t && t["title"].Str?
    requires !Blocked(disk, LegacyAlbumPath(Info(artist, album, J.Null)))
    requires !disk.IsDir(SongPath(artist, album, t, slug))
    requires SongPath(artist, album, t, slug) != LegacyAlbumPath(Info(artist, album, J.Null))
    ensures var first := Mp3s(t["url"].s, Some(Info(artist, album, t["title"])), site, disk, slug, fuel);
      && first.stop.None? && first.paths == [SongPath(artist, album, t, slug)] && first.fetched == [t["url"].s]
      && first.disk.dirs == disk.dirs + {LegacyAlbumPath(Info(artist, album, J.Null))}
  {
    var url := t["url"].s;
    var info := Info(artist, album, t["title"]);
    var dir := LegacyAlbumPath(info);
    assert dir == LegacyAlbumPath(Info(artist, album, J.Null));
    var song := OsJoin(dir, slug(t["title"].s) + ".mp3");
    assert song == SongPath(artist, album, t, slug);
    var withDir := DiskState(disk.files, disk.dirs + {dir});
    assert !withDir.IsDir(song);
    var saved := SaveMp3(site.bodies(url), Some(info), disk, slug);
    assert saved.0 == Ok(song) && saved.1.dirs == withDir.dirs;
    assert StreamBranch(url, Some(info), site, disk, slug) == Run([song], saved.1, None, [url]);
    StreamIsSaved(url, Some(info), site, disk, slug, fuel);
  }
}
