/** The catalog entities: the attribute-bag base classes (`ItemBase`,
    `ItemWithChildren`, `ItemWithParent`) and the `Track`, `Album` and `Band`
    classes built on them, with what they read from a parsed page. */
module Entities {
  import opened Wrappers
  import opened Strings
  import opened Urls
  import J = Json

  datatype Kind = TrackKind | AlbumKind | BandKind

  /** The classes that are some class's `children_class`. */
  type ChildKind = k: Kind | k != BandKind witness TrackKind

  /** A Python value held in an instance attribute. */
  datatype Value =
    | Data(j: J.Json)                 // a plain value: None, number, string, list, dict
    | Method(name: string)            // a bound method (`types.MethodType`)
    | Ref(item: Item)                 // another item object
    | Children(m: map<Value, Item>)   // a dict from child URL to child item
    | Class(kind: ChildKind)          // a class object, as `children_class` holds

  const NoneValue: Value := Data(J.Null)

  function StrValue(s: string): Value { Data(J.Str(s)) }

  /** A Python list of strings. */
  function StrList(xs: seq<string>): (v: Value)
    ensures v.Data? && v.j.Array? && |v.j.items| == |xs|
    ensures forall k :: 0 <= k < |xs| ==> v.j.items[k] == J.Str(xs[k])
  {
    Data(J.Array(seq(|xs|, k requires 0 <= k < |xs| => J.Str(xs[k]))))
  }

  /** `bool(v)` */
  predicate Truthy(v: Value) {
    match v
    case Data(j) => J.Truthy(j)
    case Children(m) => |m| > 0
    case _ => true
  }

  const DomainName := "bandcamp.com"
  const BaseUrl := "https://" + DomainName

  /** The attributes each class defines on itself. `parent_type`, which the
      parent setter reads, is defined by none of them. */
  function ClassAttrs(kind: Kind): (c: map<string, Value>)
    ensures "children" !in c && "parent_type" !in c && "of_type" in c
  {
    match kind
    case TrackKind => map["of_type" := StrValue("song")]
    case AlbumKind => map["of_type" := StrValue("album"), "children_class" := Class(TrackKind)]
    case BandKind => map["of_type" := StrValue("band"), "children_class" := Class(AlbumKind)]
  }

  /** The properties each class defines (`ItemWithParent.parent`,
      `Album.tracks`, `Band.download_url`): `getattr` and `setattr` of these
      names run the property instead of using the instance dict. */
  function Properties(kind: Kind): set<string> {
    match kind
    case TrackKind => {"parent"}
    case AlbumKind => {"parent", "tracks"}
    case BandKind => {"download_url"}
  }

  /** `getattr(obj, name)`: the `parent` property of a track or an album
      reads `_parent_obj`; a plain attribute is looked up in the instance
      dict first, then the class. */
  function Lookup(attrs: map<string, Value>, kind: Kind, name: string): (r: Result<Value, Exc>)
    ensures name !in Properties(kind) && name in attrs ==> r == Ok(attrs[name])
    ensures name !in Properties(kind) ==> (r.Err? <==> name !in attrs && name !in ClassAttrs(kind))
    ensures kind != BandKind && name == "parent" ==>
      ("_parent_obj" in attrs ==> r == Ok(attrs["_parent_obj"])) && (r.Err? <==> "_parent_obj" !in attrs)
  {
    var slot := if kind != BandKind && name == "parent" then "_parent_obj" else name;
    if slot in attrs then Ok(attrs[slot])
    else if slot in ClassAttrs(kind) then Ok(ClassAttrs(kind)[slot])
    else Err(AttributeError(slot))
  }

  /** The attributes every instance gets from `object` and the class
      machinery: `__class__` takes only a class, `__weakref__` is read-only
      and `__dict__` takes only a dict. */
  const Slots: set<string> := {"__class__", "__weakref__", "__dict__"}

  /** What `setattr(item, name, v)` raises for a value `v` read from
      storage: `tracks` and `download_url` have no setter, and the `parent`
      setter reads `v.of_type`, which no JSON value has; `__class__` refuses
      every JSON value, `__weakref__` cannot be written, and `__dict__`
      refuses anything but a dict. Any other name is simply stored. */
  function SetAttrError(kind: Kind, name: string, v: J.Json): (e: Option<Exc>)
    ensures name !in Properties(kind) && name !in Slots ==> e.None?
    ensures name in Properties(kind) || name == "__class__" || name == "__weakref__" ==> e.Some?
    ensures name == "__dict__" && name !in Properties(kind) ==> (e.Some? <==> !v.Object?)
    ensures e.Some? ==> e.value.AttributeError? || e.value.TypeError?
  {
    if name == "parent" && name in Properties(kind) then Some(AttributeError("of_type"))
    else if name in Properties(kind) || name == "__weakref__" then Some(AttributeError(name))
    else if name == "__class__" then Some(TypeError("__class__ must be set to a class"))
    else if name == "__dict__" && !v.Object? then Some(TypeError("__dict__ must be set to a dictionary"))
    else None
  }

  /** Every key of a stored dict can be assigned with `setattr`. */
  predicate Settable(kind: Kind, content: map<string, J.Json>) {
    forall k :: k in content ==> SetAttrError(kind, k, content[k]).None?
  }

  /** Python callables among attribute values: bound methods and classes. */
  predicate Callable(v: Value) {
    v.Method? || v.Class?
  }

  /** What calling the attribute `name` raises before its body runs: the
      lookup's error, or a TypeError for a value that cannot be called. */
  function CallError(attrs: map<string, Value>, kind: Kind, name: string): (e: Option<Exc>)
    ensures e.None? <==> Lookup(attrs, kind, name).Ok? && Callable(Lookup(attrs, kind, name).value)
    ensures Lookup(attrs, kind, name).Err? ==> e == Some(Lookup(attrs, kind, name).error)
  {
    match Lookup(attrs, kind, name)
    case Err(e) => Some(e)
    case Ok(v) => if Callable(v) then None else Some(TypeError(name + " is not callable"))
  }

  /** A stored instance attribute that hides the class's method `name` and
      cannot be called. */
  predicate Shadowed(attrs: map<string, Value>, name: string) {
    name in attrs && !Callable(attrs[name])
  }

  /** Attributes that `ItemBase.to_dict` keeps. */
  predicate IsPublic(name: string, v: Value) {
    !StartsWith(name, "_") && !v.Method?
  }

  /** The dict `ItemBase.to_dict` builds from an instance dict. */
  function PublicAttrs(attrs: map<string, Value>): (d: map<string, Value>)
    ensures forall k :: k in d <==> k in attrs && IsPublic(k, attrs[k])
    ensures forall k :: k in d ==> d[k] == attrs[k]
  {
    map k | k in attrs && IsPublic(k, attrs[k]) :: attrs[k]
  }

  /** Round trip: merging `to_dict(x)` into a fresh item whose own public
      attributes `x` also has reproduces exactly the public attributes of `x`. */
  lemma UpdateToDictRoundTrip(initial: map<string, Value>, x: map<string, Value>)
    requires forall k :: k in PublicAttrs(initial) ==> k in PublicAttrs(x)
    ensures PublicAttrs(initial + PublicAttrs(x)) == PublicAttrs(x)
  {
    var merged := initial + PublicAttrs(x);
    assert forall k :: k in PublicAttrs(merged) <==> k in PublicAttrs(x) by {
      forall k ensures k in PublicAttrs(merged) <==> k in PublicAttrs(x) {
        if k in PublicAttrs(x) {
          assert merged[k] == x[k];
        } else if k in merged {
          assert merged[k] == initial[k];
        }
      }
    }
  }

  /** `Band.validate_url`: a bare alphabetic name becomes a URL under
      `BandCamp.BASE_URL`; anything else must have a host of three labels, the
      first non-empty and the last two "bandcamp.com", and is rewritten to
      https with an empty path. */
  function ValidateUrl(url: string): Result<string, Exc> {
    if IsAlpha(url) then Ok("https://" + url + "." + BaseUrl)
    else
      var parsed := Parse(url);
      if !AcceptedHost(parsed.netloc) then Err(ValueError("Invalid site " + parsed.netloc))
      else Ok(Unparse(parsed.(scheme := "https", path := "")))
  }

  /** The host test of `validate_url`: exactly two dots, a non-empty first
      label, and "bandcamp.com" after it. */
  predicate AcceptedHost(domain: string) {
    Count(domain, '.') == 2 &&
    var labels := Split(domain, '.');
    SplitCount(domain, '.');
    labels[0] != "" && labels[1] + "." + labels[2] == DomainName
  }

  /** A bare name gets the base URL, scheme and all, appended after a dot: the
      scheme appears twice. */
  lemma ValidateUrlBareName(name: string)
    requires IsAlpha(name)
    ensures ValidateUrl(name) == Ok("https://" + name + ".https://bandcamp.com")
  {
    assert BaseUrl == "https://bandcamp.com";
    assert "https://" + name + "." + BaseUrl == "https://" + name + ".https://bandcamp.com";
  }

  /** A host of the form `<sub>.bandcamp.com` with a non-empty, dot-free `<sub>`. */
  ghost predicate BandcampHost(host: string) {
    exists sub :: sub != "" && '.' !in sub && host == sub + ".bandcamp.com"
  }

  /** Three dot-free labels joined by dots split back into themselves. */
  lemma ThreeLabels(a: string, b: string, c: string)
    requires '.' !in a && '.' !in b && '.' !in c
    ensures Count(a + "." + b + "." + c, '.') == 2
    ensures Split(a + "." + b + "." + c, '.') == [a, b, c]
  {
    var parts := [a, b, c];
    assert Join(parts[2..], '.') == c;
    assert Join(parts[1..], '.') == b + "." + c;
    assert Join(parts, '.') == a + "." + b + "." + c;
    SplitJoin(parts, '.');
    SplitCount(a + "." + b + "." + c, '.');
  }

  /** Two dot-free labels that join to "bandcamp.com" are "bandcamp" and "com". */
  lemma BandcampLabels(b: string, c: string)
    requires '.' !in b && '.' !in c
    requires b + "." + c == "bandcamp.com"
    ensures b == "bandcamp" && c == "com"
  {
    var s := b + "." + c;
    assert s[|b|] == '.';
    assert |b| == 8;
    assert b == s[..8];
    assert c == s[9..];
  }

  /** Apart from bare names, `validate_url` accepts exactly the URLs whose
      host is a non-empty subdomain of bandcamp.com. */
  lemma AcceptedHostIff(host: string)
    ensures AcceptedHost(host) <==> BandcampHost(host)
  {
    if AcceptedHost(host) {
      AcceptedIsBandcamp(host);
    }
    if BandcampHost(host) {
      BandcampIsAccepted(host);
    }
  }

  lemma AcceptedIsBandcamp(host: string)
    requires AcceptedHost(host)
    ensures BandcampHost(host)
  {
    var labels := Split(host, '.');
    SplitCount(host, '.');
    JoinSplit(host, '.');
    assert Join(labels[2..], '.') == labels[2];
    assert Join(labels[1..], '.') == labels[1] + "." + labels[2];
    assert host == labels[0] + "." + Join(labels[1..], '.');
    BandcampLabels(labels[1], labels[2]);
    assert Join(labels[1..], '.') == "bandcamp.com";
    assert host == labels[0] + ".bandcamp.com";
  }

  lemma BandcampIsAccepted(host: string)
    requires BandcampHost(host)
    ensures AcceptedHost(host)
  {
    var sub :| sub != "" && '.' !in sub && host == sub + ".bandcamp.com";
    assert host == sub + "." + "bandcamp" + "." + "com";
    ThreeLabels(sub, "bandcamp", "com");
  }

  /** Apart from bare names, `validate_url` accepts exactly the URLs whose
      host is a non-empty subdomain of bandcamp.com. */
  lemma ValidateUrlAccepts(url: string)
    requires !IsAlpha(url)
    ensures ValidateUrl(url).Ok? <==> BandcampHost(Parse(url).netloc)
  {
    AcceptedHostIff(Parse(url).netloc);
  }

  /** A band URL pasted with line breaks or tabs after it is accepted:
      `urlparse` drops them, and the rewritten URL has none. */
  lemma ValidateUrlDropsLineBreaks(sub: string, tail: string)
    requires sub != "" && '.' !in sub && ValidNetloc(sub)
    requires RemoveUnsafe(tail) == ""
    ensures ValidateUrl("https://" + sub + ".bandcamp.com" + tail) == Ok("https://" + sub + ".bandcamp.com")
  {
    var host := sub + ".bandcamp.com";
    var url := "https://" + sub + ".bandcamp.com" + tail;
    ParseBandUrlTail(sub, tail);
    HostOfSub(sub);
    HttpsNotAlpha(sub, ".bandcamp.com", tail);
    AcceptedHostIff(host);
    ValidateUrlAccepts(url);
    ValidateUrlRewrites(url);
    UnparseBandHost(sub);
  }

  lemma ParseBandUrlTail(sub: string, tail: string)
    requires sub != "" && '.' !in sub && ValidNetloc(sub)
    requires RemoveUnsafe(tail) == ""
    ensures Parse("https://" + sub + ".bandcamp.com" + tail) == Parts("https", sub + ".bandcamp.com", "", "", "", "")
  {
    var host := sub + ".bandcamp.com";
    HostOfSub(sub);
    HttpsHostRegroup(sub, tail);
    ParseHostOnly("https", host, tail);
  }

  lemma HttpsHostRegroup(sub: string, tail: string)
    ensures "https://" + sub + ".bandcamp.com" + tail == "https" + "://" + (sub + ".bandcamp.com") + tail
    ensures ValidScheme("https")
  {
    SchemeHostRegroup("https://", "https", "://", sub, ".bandcamp.com", tail);
  }

  lemma UnparseBandHost(sub: string)
    ensures Unparse(Parts("https", sub + ".bandcamp.com", "", "", "", "")) == "https://" + sub + ".bandcamp.com"
  {
    var p := Parts("https", sub + ".bandcamp.com", "", "", "", "");
    SchemeHostRegroup("https://", "https", "://", sub, ".bandcamp.com", "");
    UnparseWithHost(p);
    assert AfterAuthority(p) == "";
  }

  lemma SchemeHostRegroup(w: string, a: string, b: string, s: string, d: string, t: string)
    requires w == a + b
    ensures w + s + d + t == a + b + (s + d) + t
  {
  }

  /** `<sub>.bandcamp.com` is a host `validate_url` accepts. */
  lemma HostOfSub(sub: string)
    requires sub != "" && '.' !in sub && ValidNetloc(sub)
    ensures ValidNetloc(sub + ".bandcamp.com") && BandcampHost(sub + ".bandcamp.com")
  {
    assert ValidNetloc(".bandcamp.com");
    ValidNetlocConcat(sub, ".bandcamp.com");
  }

  /** A URL with a scheme is not a bare name. */
  lemma HttpsNotAlpha(a: string, b: string, c: string)
    ensures !IsAlpha("https://" + a + b + c)
  {
    assert ("https://" + a + b + c)[5] == ':';
  }

  /** An accepted URL keeps its host, gets scheme https, and, when it had no
      `;params`, parses back to its own parts with the path emptied. */
  lemma ValidateUrlKeepsHost(url: string)
    requires !IsAlpha(url) && ValidateUrl(url).Ok?
    ensures Parse(ValidateUrl(url).value).scheme == "https"
    ensures Parse(ValidateUrl(url).value).netloc == Parse(url).netloc
    ensures Parse(url).params == "" ==>
      Parse(ValidateUrl(url).value) == Parse(url).(scheme := "https", path := "")
  {
    var parsed := Parse(url);
    ValidateUrlRewrites(url);
    HttpsRewriteReadsBack(parsed);
  }

  lemma ValidateUrlRewrites(url: string)
    requires !IsAlpha(url) && ValidateUrl(url).Ok?
    ensures ValidateUrl(url) == Ok(Unparse(Parse(url).(scheme := "https", path := "")))
    ensures Parse(url).netloc != ""
  {
    assert AcceptedHost(Parse(url).netloc);
  }

  /** Parts with a host, rewritten to https with an empty path, read back
      with that scheme and host, and wholly when there are no `;params`. */
  lemma HttpsRewriteReadsBack(parsed: Parts)
    requires ValidNetloc(parsed.netloc) && '#' !in parsed.query && SafeParts(parsed)
    ensures var back := Parse(Unparse(parsed.(scheme := "https", path := "")));
      back.scheme == "https" && back.netloc == parsed.netloc
    ensures parsed.params == "" ==>
      Parse(Unparse(parsed.(scheme := "https", path := ""))) == parsed.(scheme := "https", path := "")
  {
    var rewritten := parsed.(scheme := "https", path := "");
    assert ValidScheme("https");
    UnparseAuthority(rewritten);
    if parsed.params == "" {
      assert WellFormed(rewritten);
      ParseUnparse(rewritten);
    }
  }

  /** `Band.download_url`: the inherited download URL with its path replaced
      by "music"; the other classes use the inherited one. */
  function DownloadUrl(kind: Kind, inherited: string): string {
    if kind == BandKind then Unparse(Parse(inherited).(path := "music")) else inherited
  }

  /** The band download URL keeps the scheme and host of the inherited one and
      reads back with path "/music". */
  lemma BandDownloadUrl(inherited: string)
    requires ValidScheme(Parse(inherited).scheme) && ValidNetloc(Parse(inherited).netloc)
    requires Parse(inherited).params == ""
    ensures Parse(DownloadUrl(BandKind, inherited)) == Parse(inherited).(path := "/music")
  {
    MusicPath(Parse(inherited));
  }

  /** A path without its leading '/' is written with one. */
  lemma SlashedAfterAuthority(p: Parts)
    requires p.params == "" && p.path != "" && p.path[0] != '/'
    ensures AfterAuthority(p) == AfterAuthority(p.(path := "/" + p.path))
  {
  }

  /** Writing parts out with the relative path "music" reads back with "/music". */
  lemma MusicPath(x: Parts)
    requires ValidScheme(x.scheme) && ValidNetloc(x.netloc)
    requires x.params == "" && '#' !in x.query && SafeParts(x)
    ensures Parse(Unparse(x.(path := "music"))) == x.(path := "/music")
  {
    var p := x.(path := "music");
    var q := x.(path := "/music");
    UnparseWithHost(p);
    UnparseWithHost(q);
    assert "/" + "music" == "/music";
    SlashedAfterAuthority(p);
    ParseUnparse(q);
  }

  /** The value the `url` attribute gets in the constructor: `Band` validates
      it (a non-string has no `isalpha`). */
  function ConstructedUrl(kind: Kind, url: Value): Result<Value, Exc> {
    if kind != BandKind then Ok(url)
    else if !(url.Data? && url.j.Str?) then Err(AttributeError("isalpha"))
    else
      match ValidateUrl(url.j.s)
      case Ok(u) => Ok(StrValue(u))
      case Err(e) => Err(e)
  }

  /** The instance dict right after `Track(url)`, `Album(url)` or `Band(url)`. */
  function InitialAttrs(kind: Kind, url: Value): map<string, Value> {
    match kind
    case TrackKind => map["url" := url, "_parent_obj" := NoneValue, "album" := NoneValue]
    case AlbumKind => map["url" := url, "children" := Children(map[]), "_parent_obj" := NoneValue,
                          "band" := NoneValue, "add_track" := Method("add_children"),
                          "add_tracks" := Method("add_childrens")]
    case BandKind => map["url" := url, "children" := Children(map[]),
                         "add_album" := Method("add_children"), "add_albums" := Method("add_childrens")]
  }

  /** One `<a>`-or-other tag of a page, as the href filters see it. */
  datatype Tag = Tag(name: string, href: Option<string>, hasTrackTitle: bool)

  /** The parts of a parsed page the entities read. */
  datatype Soup = Soup(
    /** the decoded `data-tralbum` attribute of the first script carrying one */
    tralbum: Option<J.Json>,
    /** for each `og:*` property, the `content` attribute of the first such meta tag */
    metas: map<string, Option<string>>,
    /** the element `#name-section`, and the text of its `h2` when it has one */
    nameSection: Option<Option<string>>,
    /** each `div.title` in order, with the text of its `span.time` when it has one */
    titleDivs: seq<Option<string>>,
    /** every tag of the page in document order */
    tags: seq<Tag>)

  /** `soup.find("meta", property=p).get("content")` */
  function MetaContent(soup: Soup, property: string): (r: Result<Value, Exc>)
    ensures r.Err? <==> property !in soup.metas
  {
    if property !in soup.metas then Err(AttributeError("get"))
    else match soup.metas[property]
      case Some(c) => Ok(StrValue(c))
      case None => Ok(NoneValue)
  }

  /** `Album.get_tracks_urls`: a tag is a track link when it is an `<a>`
      containing a `span.track-title`. */
  predicate IsTrackLink(t: Tag) {
    t.name == "a" && t.hasTrackTitle
  }

  /** `Album.get_tracks_urls`: the href of every track link, in document order;
      a track link without href is a KeyError. */
  function TracksUrls(tags: seq<Tag>): (r: Result<seq<string>, Exc>)
    ensures r.Err? ==> r.error == KeyError("href")
  {
    if |tags| == 0 then Ok([])
    else
      var rest := TracksUrls(tags[1..]);
      if !IsTrackLink(tags[0]) then rest
      else if tags[0].href.None? then Err(KeyError("href"))
      else if rest.Err? then rest
      else Ok([tags[0].href.value] + rest.value)
  }

  /** The track list reads exactly when every track link has an href, and
      then holds the hrefs of the track links and nothing else. */
  lemma {:induction false} TracksUrlsMembers(tags: seq<Tag>)
    ensures TracksUrls(tags).Ok? <==> forall k :: 0 <= k < |tags| && IsTrackLink(tags[k]) ==> tags[k].href.Some?
    ensures TracksUrls(tags).Ok? ==> forall x :: x in TracksUrls(tags).value <==> exists t :: t in tags && IsTrackLink(t) && t.href == Some(x)
    decreases |tags|
  {
    if |tags| > 0 {
      var t, rest := tags[0], tags[1..];
      assert tags == [t] + rest;
      TracksUrlsCons(t, rest);
      TracksUrlsMembers(rest);
      assert forall u :: u in rest ==> u in tags;
      assert forall u :: u in tags ==> u == t || u in rest;
      assert forall k :: 1 <= k < |tags| ==> tags[k] == rest[k - 1];
    }
  }

  /** The track list of a page is the track list of its first part followed by
      that of the rest: document order is kept and nothing is re-sorted. */
  lemma {:induction false} TracksUrlsAppend(a: seq<Tag>, b: seq<Tag>)
    requires TracksUrls(a).Ok? && TracksUrls(b).Ok?
    ensures TracksUrls(a + b) == Ok(TracksUrls(a).value + TracksUrls(b).value)
  {
    if |a| > 0 {
      var t, rest := a[0], a[1..];
      assert a == [t] + rest;
      assert a + b == [t] + (rest + b);
      TracksUrlsCons(t, rest);
      TracksUrlsCons(t, rest + b);
      TracksUrlsAppend(rest, b);
      if IsTrackLink(t) {
        var h := t.href.value;
        assert [h] + (TracksUrls(rest).value + TracksUrls(b).value) == [h] + TracksUrls(rest).value + TracksUrls(b).value;
      }
    } else {
      assert a + b == b;
      assert [] + TracksUrls(b).value == TracksUrls(b).value;
    }
  }

  /** One tag in front of the rest: skipped, a KeyError, or its href in front. */
  lemma TracksUrlsCons(t: Tag, rest: seq<Tag>)
    ensures !IsTrackLink(t) ==> TracksUrls([t] + rest) == TracksUrls(rest)
    ensures IsTrackLink(t) && t.href.None? ==> TracksUrls([t] + rest) == Err(KeyError("href"))
    ensures IsTrackLink(t) && t.href.Some? && TracksUrls(rest).Ok? ==>
      TracksUrls([t] + rest) == Ok([t.href.value] + TracksUrls(rest).value)
    ensures IsTrackLink(t) && t.href.Some? && TracksUrls(rest).Err? ==> TracksUrls([t] + rest) == TracksUrls(rest)
  {
    assert ([t] + rest)[0] == t;
    assert ([t] + rest)[1..] == rest;
  }

  /** `Band.get_albums_urls`: the hrefs that start with "/album/". */
  predicate IsAlbumHref(href: Option<string>) {
    href.Some? && href.value != "" && StartsWith(href.value, "/album/")
  }

  /** `Band.get_albums_urls`: every album href, in document order. */
  function AlbumsUrls(tags: seq<Tag>): (r: seq<string>)
    ensures |r| <= |tags|
  {
    if |tags| == 0 then []
    else
      var rest := AlbumsUrls(tags[1..]);
      if IsAlbumHref(tags[0].href) then [tags[0].href.value] + rest else rest
  }

  /** The album list holds exactly the album hrefs of the page, each starting
      with "/album/". */
  lemma {:induction false} AlbumsUrlsMembers(tags: seq<Tag>)
    ensures forall k :: 0 <= k < |AlbumsUrls(tags)| ==> StartsWith(AlbumsUrls(tags)[k], "/album/")
    ensures forall x :: x in AlbumsUrls(tags) <==> exists t :: t in tags && IsAlbumHref(t.href) && t.href == Some(x)
  {
    if |tags| > 0 {
      AlbumsUrlsMembers(tags[1..]);
      assert forall t :: t in tags[1..] ==> t in tags;
      assert forall t :: t in tags ==> t == tags[0] || t in tags[1..];
    }
  }

  /** The album list keeps document order: it distributes over concatenation. */
  lemma {:induction false} AlbumsUrlsAppend(a: seq<Tag>, b: seq<Tag>)
    ensures AlbumsUrls(a + b) == AlbumsUrls(a) + AlbumsUrls(b)
  {
    if |a| > 0 {
      assert (a + b)[1..] == a[1..] + b;
      AlbumsUrlsAppend(a[1..], b);
    } else {
      assert a + b == b;
    }
  }

  /** `in_seconds`: "m:s" read as 60 * m + s; a ValueError unless the text has
      exactly one ':' and two integers around it. */
  function InSeconds(t: string): Result<int, Exc> {
    var parts := Split(t, ':');
    if |parts| != 2 then Err(ValueError("wrong number of values to unpack"))
    else
      var m := ParseInt(parts[0]);
      var s := ParseInt(parts[1]);
      if m.Some? && s.Some? then Ok(m.value * 60 + s.value)
      else Err(ValueError("invalid literal for int()"))
  }

  /** `m:s` written out reads back as `60 * m + s`. */
  lemma InSecondsOfMinutes(m: nat, s: nat)
    ensures var r := InSeconds(NatToString(m) + ":" + NatToString(s)); r.Ok? && r.value == m * 60 + s
  {
    DigitsHaveNo(NatToString(m), ':');
    DigitsHaveNo(NatToString(s), ':');
    ParseNatString(m);
    ParseNatString(s);
    InSecondsOfParts(NatToString(m), NatToString(s), m, s);
  }

  /** Two colon-free texts that read as integers, joined by ':'. */
  lemma InSecondsOfParts(a: string, b: string, m: int, s: int)
    requires ':' !in a && ':' !in b
    requires ParseInt(a) == Some(m) && ParseInt(b) == Some(s)
    ensures var r := InSeconds(a + ":" + b); r.Ok? && r.value == m * 60 + s
  {
    SplitAfterSeparator(a, ':', b);
    SplitWithoutSeparator(b, ':');
    assert Split(a + ":" + b, ':') == [a, b];
    InSecondsOfSplit(a + ":" + b, a, b, m, s);
  }

  lemma InSecondsOfSplit(t: string, a: string, b: string, m: int, s: int)
    requires Split(t, ':') == [a, b]
    requires ParseInt(a) == Some(m) && ParseInt(b) == Some(s)
    ensures InSeconds(t).Ok? && InSeconds(t).value == m * 60 + s
  {
  }

  lemma DigitsHaveNo(s: string, c: char)
    requires AllDigits(s) && !IsDigit(c)
    ensures c !in s
  {
  }

  /** What one title div adds: the seconds of its time span, or 0 without one. */
  function DivSeconds(div: Option<string>): Result<int, Exc> {
    match div
    case Some(text) => InSeconds(Strip(text, Whitespace))
    case None => Ok(0)
  }

  /** `f` of each element added up from the left: the first error is
      raised, otherwise the sum. */
  function SumOf<T>(f: T -> Result<int, Exc>, xs: seq<T>): Result<int, Exc>
    decreases |xs|
  {
    if |xs| == 0 then Ok(0)
    else
      match SumOf(f, xs[..|xs| - 1])
      case Err(e) => Err(e)
      case Ok(total) =>
        match f(xs[|xs| - 1])
        case Err(e) => Err(e)
        case Ok(d) => Ok(total + d)
  }

  /** The seconds `get_album_duration` adds up over the title divs. */
  function DurationSeconds(divs: seq<Option<string>>): Result<int, Exc> {
    SumOf(DivSeconds, divs)
  }

  /** One more element: an earlier error stays the error, a failing element
      is the error, and otherwise its value is added. */
  lemma SumOfSnoc<T>(f: T -> Result<int, Exc>, xs: seq<T>, x: T)
    ensures SumOf(f, xs).Err? ==> SumOf(f, xs + [x]) == SumOf(f, xs)
    ensures SumOf(f, xs).Ok? && f(x).Err? ==> SumOf(f, xs + [x]) == f(x)
    ensures SumOf(f, xs).Ok? && f(x).Ok? ==> SumOf(f, xs + [x]) == Ok(SumOf(f, xs).value + f(x).value)
  {
    assert (xs + [x])[..|xs|] == xs;
  }

  /** Summing any split: an error in the first part is the error of the
      whole, otherwise the error of the second part, otherwise the sums add
      up. */
  lemma {:induction false} SumOfAppend<T>(f: T -> Result<int, Exc>, a: seq<T>, b: seq<T>)
    ensures SumOf(f, a).Err? ==> SumOf(f, a + b) == SumOf(f, a)
    ensures SumOf(f, a).Ok? && SumOf(f, b).Err? ==> SumOf(f, a + b) == SumOf(f, b)
    ensures SumOf(f, a).Ok? && SumOf(f, b).Ok? ==>
      SumOf(f, a + b) == Ok(SumOf(f, a).value + SumOf(f, b).value)
    decreases |b|
  {
    if |b| == 0 {
      assert a + b == a;
    } else {
      var init, last := b[..|b| - 1], b[|b| - 1];
      assert b == init + [last];
      assert a + b == (a + init) + [last];
      SumOfAppend(f, a, init);
      SumOfSnoc(f, a + init, last);
      SumOfSnoc(f, init, last);
    }
  }

  /** One pass of a summing loop: the first error ends the sum, and
      otherwise the element's value is added. */
  lemma SumOfNext<T>(f: T -> Result<int, Exc>, xs: seq<T>, i: nat, d: int)
    requires i < |xs| && SumOf(f, xs[..i]) == Ok(d)
    ensures f(xs[i]).Err? ==> SumOf(f, xs) == Err(f(xs[i]).error)
    ensures f(xs[i]).Ok? ==> SumOf(f, xs[..i + 1]) == Ok(d + f(xs[i]).value)
  {
    assert xs[..i + 1] == xs[..i] + [xs[i]];
    SumOfSnoc(f, xs[..i], xs[i]);
    if f(xs[i]).Err? {
      SumOfAppend(f, xs[..i + 1], xs[i + 1..]);
      assert xs[..i + 1] + xs[i + 1..] == xs;
    }
  }

  /** Text that starts and ends with a digit has nothing to strip. */
  lemma StripDigitsAround(a: string, b: string)
    requires |a| > 0 && |b| > 0 && IsDigit(a[0]) && IsDigit(b[|b| - 1])
    ensures Strip(a + ":" + b, Whitespace) == a + ":" + b
  {
    var t := a + ":" + b;
    assert t[0] == a[0];
    assert t[|t| - 1] == b[|b| - 1];
    StripKeeps(t, Whitespace);
  }

  lemma DivSecondsOfStripped(t: string)
    requires Strip(t, Whitespace) == t
    ensures DivSeconds(Some(t)) == InSeconds(t)
  {
  }

  /** A time span "m:s", as the page writes it, is worth 60 * m + s seconds. */
  lemma DivSecondsOfSpan(mins: nat, secs: nat)
    ensures var r := DivSeconds(Some(NatToString(mins) + ":" + NatToString(secs))); r.Ok? && r.value == mins * 60 + secs
  {
    var t := NatToString(mins) + ":" + NatToString(secs);
    StripDigitsAround(NatToString(mins), NatToString(secs));
    DivSecondsOfStripped(t);
    InSecondsOfMinutes(mins, secs);
  }

  /** `%02d` for a number below 100. */
  function Pad2(n: nat): string
    requires n < 100
  {
    if n < 10 then "0" + NatToString(n) else NatToString(n)
  }

  /** `str(timedelta(seconds=d))`: "[D day[s], ]H:MM:SS", with days rounded
      down so that the clock part is never negative. */
  function TimedeltaString(d: int): string {
    var days := d / 86400;
    var rest := d % 86400;
    var clock := NatToString(rest / 3600) + ":" + Pad2(rest / 60 % 60) + ":" + Pad2(rest % 60);
    if days == 0 then clock
    else IntToString(days) + (if days == 1 || days == -1 then " day, " else " days, ") + clock
  }

  /** `get_album_duration`'s rendering */
  function DurationText(divs: seq<Option<string>>): Result<string, Exc> {
    match DurationSeconds(divs)
    case Ok(d) => Ok(TimedeltaString(d))
    case Err(e) => Err(e)
  }

  lemma ParsePad2(n: nat)
    requires n < 100
    ensures ParseInt(Pad2(n)) == Some(n)
  {
    if n < 10 {
      var s := Pad2(n);
      assert s == ['0', DigitChar(n)];
      StripKeeps(s, Whitespace);
      DigitsAreRun(s);
      assert s[..|s| - 1] == "0";
      assert DigitsValue("0") == 0 by { assert "0"[..0] == ""; }
    } else {
      ParseIntToString(n);
    }
  }

  /** A duration under a day renders as "H:MM:SS" whose three fields read
      back as the hours, minutes and seconds of that duration. */
  lemma TimedeltaReadsBack(d: nat)
    requires d < 86400
    ensures var parts := Split(TimedeltaString(d), ':');
      |parts| == 3 &&
      ParseInt(parts[0]) == Some(d / 3600) &&
      ParseInt(parts[1]) == Some(d / 60 % 60) &&
      ParseInt(parts[2]) == Some(d % 60)
  {
    var h, m, s := NatToString(d / 3600), Pad2(d / 60 % 60), Pad2(d % 60);
    ClockUnderDay(d);
    DigitsHaveNo(h, ':');
    DigitsHaveNo(m, ':');
    DigitsHaveNo(s, ':');
    SplitClock(h, m, s);
    ParseIntToString(d / 3600);
    ParsePad2(d / 60 % 60);
    ParsePad2(d % 60);
  }

  /** Under a day, the rendering is the clock part alone. */
  lemma ClockUnderDay(d: nat)
    requires d < 86400
    ensures TimedeltaString(d) == NatToString(d / 3600) + [':'] + (Pad2(d / 60 % 60) + [':'] + Pad2(d % 60))
  {
    assert d / 86400 == 0 && d % 86400 == d;
  }

  /** Three ':'-free fields joined by ':' split back into those fields. */
  lemma SplitClock(h: string, m: string, s: string)
    requires ':' !in h && ':' !in m && ':' !in s
    ensures Split(h + [':'] + (m + [':'] + s), ':') == [h, m, s]
  {
    SplitAfterSeparator(h, ':', m + [':'] + s);
    SplitAfterSeparator(m, ':', s);
    SplitWithoutSeparator(s, ':');
  }

  /** `after` is `before` with only attributes among `names` set. */
  predicate OnlyChanged(before: map<string, Value>, after: map<string, Value>, names: set<string>) {
    && before.Keys <= after.Keys <= before.Keys + names
    && forall k :: k in before && k !in names ==> after[k] == before[k]
  }

  /** An attribute outside the changed ones reads as before. */
  lemma LookupUnchanged(before: map<string, Value>, after: map<string, Value>, names: set<string>,
                        kind: Kind, name: string)
    requires OnlyChanged(before, after, names) && name !in names && "_parent_obj" !in names
    ensures Lookup(after, kind, name) == Lookup(before, kind, name)
  {
  }

  /** The attributes each `update_from_soup` may set. */
  const TrackSoupNames := {"url", "of_type", "artist", "mp3_url", "title", "duration", "lyrics"}
  const AlbumSoupNames := {"name", "of_type", "duration", "tracks_urls"}
  const BandSoupNames := {"name", "of_type", "url", "description", "albums_urls"}

  /** What `update_from_soup` wrote to the instance dict, and what it returned
      (True as `Ok(true)`, None as `Ok(false)`) or raised. */
  datatype SoupUpdate = SoupUpdate(attrs: map<string, Value>, result: Result<bool, Exc>)

  /** `data["trackinfo"][0]` */
  function FirstTrackInfo(data: J.Json): Result<J.Json, Exc> {
    match J.Get(data, "trackinfo")
    case Err(e) => Err(e)
    case Ok(info) => J.First(info)
  }

  /** Whether the page offers an mp3 for its track: a `data-tralbum` script
      whose first track info has a `file` that is not null. */
  predicate Playable(soup: Soup) {
    && soup.tralbum.Some?
    && FirstTrackInfo(soup.tralbum.value).Ok?
    && J.Get(FirstTrackInfo(soup.tralbum.value).value, "file").Ok?
    && J.Get(FirstTrackInfo(soup.tralbum.value).value, "file").value != J.Null
  }

  /** `Track.update_from_soup`, field by field, stopping at the first
      exception with the fields set so far. */
  function TrackFromSoup(attrs: map<string, Value>, soup: Soup): (u: SoupUpdate)
    ensures u.result == Ok(true) ==> Playable(soup) && "mp3_url" in u.attrs
    ensures u.result == Ok(true) ==>
      var file := J.Get(FirstTrackInfo(soup.tralbum.value).value, "file").value;
      J.Get(file, "mp3-128").Ok? && u.attrs["mp3_url"] == Data(J.Get(file, "mp3-128").value)
    ensures u.result == Ok(false) ==> !Playable(soup)
    ensures u.result == Ok(false) ==> ("mp3_url" in u.attrs <==> "mp3_url" in attrs)
    ensures u.result == Ok(false) && "mp3_url" in attrs ==> u.attrs["mp3_url"] == attrs["mp3_url"]
    ensures soup.tralbum.None? ==> u == SoupUpdate(attrs, Ok(false))
    ensures OnlyChanged(attrs, u.attrs, TrackSoupNames)
  {
    match soup.tralbum
    case None => SoupUpdate(attrs, Ok(false))
    case Some(data) =>
      match J.Get(data, "url")
      case Err(e) => SoupUpdate(attrs, Err(e))
      case Ok(url) =>
        var a1 := attrs["url" := Data(url)];
        match MetaContent(soup, "og:type")
        case Err(e) => SoupUpdate(a1, Err(e))
        case Ok(ofType) =>
          var a2 := a1["of_type" := ofType];
          match J.Get(data, "artist")
          case Err(e) => SoupUpdate(a2, Err(e))
          case Ok(artist) =>
            var a3 := a2["artist" := Data(artist)];
            match FirstTrackInfo(data)
            case Err(e) => SoupUpdate(a3, Err(e))
            case Ok(info) =>
              match J.Get(info, "file")
              case Err(e) => SoupUpdate(a3, Err(e))
              case Ok(file) =>
                if file == J.Null then SoupUpdate(a3, Ok(false))
                else
                  match J.Get(file, "mp3-128")
                  case Err(e) => SoupUpdate(a3, Err(e))
                  case Ok(mp3) =>
                    var a4 := a3["mp3_url" := Data(mp3)];
                    match J.Get(info, "title")
                    case Err(e) => SoupUpdate(a4, Err(e))
                    case Ok(title) =>
                      var a5 := a4["title" := Data(title)];
                      match J.Get(info, "duration")
                      case Err(e) => SoupUpdate(a5, Err(e))
                      case Ok(duration) =>
                        var a6 := a5["duration" := Data(duration)];
                        match J.Get(info, "lyrics")
                        case Err(e) => SoupUpdate(a6, Err(e))
                        case Ok(lyrics) => SoupUpdate(a6["lyrics" := Data(lyrics)], Ok(true))
  }

  /** A playable page with every field present makes `update_from_soup` return True. */
  lemma TrackFromSoupPlayable(attrs: map<string, Value>, soup: Soup)
    requires Playable(soup)
    requires J.Get(soup.tralbum.value, "url").Ok? && J.Get(soup.tralbum.value, "artist").Ok?
    requires "og:type" in soup.metas
    requires var info := FirstTrackInfo(soup.tralbum.value).value;
      J.Get(J.Get(info, "file").value, "mp3-128").Ok? &&
      J.Get(info, "title").Ok? && J.Get(info, "duration").Ok? && J.Get(info, "lyrics").Ok?
    ensures TrackFromSoup(attrs, soup).result == Ok(true)
  {
  }

  /** `soup.find(id="name-section").h2.text.strip()` */
  function AlbumName(soup: Soup): (r: Result<Value, Exc>)
    ensures r.Ok? <==> soup.nameSection.Some? && soup.nameSection.value.Some?
  {
    match soup.nameSection
    case None => Err(AttributeError("h2"))
    case Some(None) => Err(AttributeError("text"))
    case Some(Some(text)) => Ok(StrValue(Strip(text, Whitespace)))
  }

  /** The fields `Album.update_from_soup` sets before it adds the tracks:
      name, type, duration and track list, stopping at the first exception. */
  function AlbumFields(attrs: map<string, Value>, soup: Soup): (u: SoupUpdate)
    ensures u.result.Ok? ==> u.result == Ok(true) && "tracks_urls" in u.attrs
    ensures u.result.Err? <==>
      AlbumName(soup).Err? || "og:type" !in soup.metas ||
      DurationText(soup.titleDivs).Err? || TracksUrls(soup.tags).Err?
    ensures OnlyChanged(attrs, u.attrs, AlbumSoupNames)
  {
    match AlbumName(soup)
    case Err(e) => SoupUpdate(attrs, Err(e))
    case Ok(name) =>
      var a1 := attrs["name" := name];
      match MetaContent(soup, "og:type")
      case Err(e) => SoupUpdate(a1, Err(e))
      case Ok(ofType) =>
        var a2 := a1["of_type" := ofType];
        match DurationText(soup.titleDivs)
        case Err(e) => SoupUpdate(a2, Err(e))
        case Ok(d) =>
          var a3 := a2["duration" := StrValue(d)];
          match TracksUrls(soup.tags)
          case Err(e) => SoupUpdate(a3, Err(e))
          case Ok(urls) => SoupUpdate(a3["tracks_urls" := StrList(urls)], Ok(true))
  }

  /** The fields `Band.update_from_soup` sets before it adds the albums: four
      meta tags and the album list, stopping at the first missing meta tag. */
  function BandFields(attrs: map<string, Value>, soup: Soup): (u: SoupUpdate)
    ensures u.result.Ok? ==> u.result == Ok(true) && "albums_urls" in u.attrs
    ensures u.result.Err? <==>
      "og:title" !in soup.metas || "og:type" !in soup.metas ||
      "og:url" !in soup.metas || "og:description" !in soup.metas
    ensures OnlyChanged(attrs, u.attrs, BandSoupNames)
  {
    match MetaContent(soup, "og:title")
    case Err(e) => SoupUpdate(attrs, Err(e))
    case Ok(name) =>
      var a1 := attrs["name" := name];
      match MetaContent(soup, "og:type")
      case Err(e) => SoupUpdate(a1, Err(e))
      case Ok(ofType) =>
        var a2 := a1["of_type" := ofType];
        match MetaContent(soup, "og:url")
        case Err(e) => SoupUpdate(a2, Err(e))
        case Ok(url) =>
          var a3 := a2["url" := url];
          match MetaContent(soup, "og:description")
          case Err(e) => SoupUpdate(a3, Err(e))
          case Ok(description) =>
            SoupUpdate(a3["description" := description]["albums_urls" := StrList(AlbumsUrls(soup.tags))], Ok(true))
  }

  /** `to_dict` of `Track`, `Album` and `Band`: the public attributes, less the
      back reference to the parent (`album` / `band`), the album's `tracks`
      and the band's `albums` when they are truthy, and the children dict;
      a `del` of an absent key is a KeyError. */
  function Serialized(kind: Kind, attrs: map<string, Value>): (r: Result<map<string, Value>, Exc>)
    ensures r.Ok? ==> forall k :: k in r.value ==> k in attrs && r.value[k] == attrs[k] && IsPublic(k, attrs[k])
    ensures r.Ok? && kind == TrackKind ==> "album" !in r.value
    ensures r.Ok? && kind != TrackKind ==> "children" !in r.value
    ensures r.Ok? && kind == AlbumKind ==> "band" !in r.value
    ensures r.Ok? ==> forall k :: k in PublicAttrs(attrs) && k !in {"children", "album", "band", "tracks", "albums"} ==> k in r.value
    ensures r.Err? <==>
      || (kind == TrackKind && "album" !in PublicAttrs(attrs))
      || (kind == AlbumKind && ("band" !in PublicAttrs(attrs) || "children" !in PublicAttrs(attrs)))
      || (kind == BandKind && "children" !in PublicAttrs(attrs))
  {
    var d := PublicAttrs(attrs);
    match kind
    case TrackKind =>
      if "album" in d then Ok(d - {"album"}) else Err(KeyError("album"))
    case AlbumKind =>
      if "band" !in d then Err(KeyError("band"))
      else
        var d1 := d - {"band"};
        var d2 := if "tracks" in d1 && Truthy(d1["tracks"]) then d1 - {"tracks"} else d1;
        if "children" in d2 then Ok(d2 - {"children"}) else Err(KeyError("children"))
    case BandKind =>
      var d1 := if "albums" in d && Truthy(d["albums"]) then d - {"albums"} else d;
      if "children" in d1 then Ok(d1 - {"children"}) else Err(KeyError("children"))
  }

  lemma NotPrivate(name: string)
    requires |name| > 0 && name[0] != '_'
    ensures !StartsWith(name, "_")
  {
    assert name[..1][0] == name[0];
  }

  /** A freshly constructed item serialises to its URL alone. */
  lemma SerializedInitial(kind: Kind, url: Value)
    requires !url.Method?
    ensures Serialized(kind, InitialAttrs(kind, url)) == Ok(map["url" := url])
  {
    NotPrivate("url");
    assert StartsWith("_parent_obj", "_");
    match kind
    case TrackKind => SerializedInitialTrack(url);
    case AlbumKind => SerializedInitialAlbum(url);
    case BandKind => SerializedInitialBand(url);
  }

  lemma SerializedInitialTrack(url: Value)
    requires !url.Method? && !StartsWith("url", "_") && StartsWith("_parent_obj", "_")
    ensures Serialized(TrackKind, InitialAttrs(TrackKind, url)) == Ok(map["url" := url])
  {
    NotPrivate("album");
    var d := PublicAttrs(InitialAttrs(TrackKind, url));
    assert d == map["url" := url, "album" := NoneValue];
    assert d - {"album"} == map["url" := url];
  }

  lemma SerializedInitialAlbum(url: Value)
    requires !url.Method? && !StartsWith("url", "_") && StartsWith("_parent_obj", "_")
    ensures Serialized(AlbumKind, InitialAttrs(AlbumKind, url)) == Ok(map["url" := url])
  {
    PublicInitialAlbum(url);
    var d1 := map["url" := url, "children" := Children(map[]), "band" := NoneValue] - {"band"};
    assert d1 == map["url" := url, "children" := Children(map[])];
    assert "tracks" !in d1;
    assert d1 - {"children"} == map["url" := url];
  }

  lemma PublicInitialAlbum(url: Value)
    requires !url.Method? && !StartsWith("url", "_") && StartsWith("_parent_obj", "_")
    ensures PublicAttrs(InitialAttrs(AlbumKind, url)) == map["url" := url, "children" := Children(map[]), "band" := NoneValue]
  {
    NotPrivate("band");
    NotPrivate("children");
    var d := PublicAttrs(InitialAttrs(AlbumKind, url));
    var e := map["url" := url, "children" := Children(map[]), "band" := NoneValue];
    assert d.Keys == e.Keys;
  }

  lemma SerializedInitialBand(url: Value)
    requires !url.Method? && !StartsWith("url", "_")
    ensures Serialized(BandKind, InitialAttrs(BandKind, url)) == Ok(map["url" := url])
  {
    PublicInitialBand(url);
    var d := map["url" := url, "children" := Children(map[])];
    assert "albums" !in d;
    assert d - {"children"} == map["url" := url];
  }

  lemma PublicInitialBand(url: Value)
    requires !url.Method? && !StartsWith("url", "_")
    ensures PublicAttrs(InitialAttrs(BandKind, url)) == map["url" := url, "children" := Children(map[])]
  {
    NotPrivate("children");
  }

  /** The values `for x in xs` visits in a list of strings. */
  function StrValues(xs: seq<string>): (vs: seq<Value>)
    ensures |vs| == |xs|
    ensures forall k :: 0 <= k < |xs| ==> vs[k] == StrValue(xs[k])
  {
    seq(|xs|, k requires 0 <= k < |xs| => StrValue(xs[k]))
  }

  /** What `for x in v` visits when `v` is an attribute value: the elements
      of a list, the keys of a stored dict. */
  function Iterate(v: Value): (r: Result<seq<Value>, Exc>)
    ensures v.Data? && v.j.Array? ==> r.Ok? && |r.value| == |v.j.items|
    ensures v.Data? && v.j.Array? ==> forall k :: 0 <= k < |v.j.items| ==> r.value[k] == Data(v.j.items[k])
    ensures v.Children? || v.Method? || v.Ref? || v.Class? ==> r.Err?
  {
    match v
    case Data(j) =>
      (match J.Elements(j)
       case Ok(xs) => Ok(seq(|xs|, k requires 0 <= k < |xs| => Data(xs[k])))
       case Err(e) => Err(e))
    case Children(m) => Err(TypeError("iteration over a dict is not modelled"))
    case _ => Err(TypeError("object is not iterable"))
  }

  /** `self.children` of an item with instance dict `attrs`, when it is a
      dict of children. */
  function ChildrenIn(attrs: map<string, Value>, kind: Kind): (r: Result<map<Value, Item>, Exc>)
    ensures r.Ok? ==> "children" in attrs && attrs["children"] == Children(r.value)
  {
    match Lookup(attrs, kind, "children")
    case Ok(Children(m)) => Ok(m)
    case Ok(_) => Err(TypeError("children is not a dict of items"))
    case Err(e) => Err(e)
  }

  /** `self.children_class`, when it is a class; calling anything else is a
      TypeError. */
  function ChildClassIn(attrs: map<string, Value>, kind: Kind): (r: Result<ChildKind, Exc>)
    ensures "children_class" !in attrs && kind == AlbumKind ==> r == Ok(TrackKind)
    ensures "children_class" !in attrs && kind == BandKind ==> r == Ok(AlbumKind)
    ensures "children_class" !in attrs && kind == TrackKind ==> r == Err(AttributeError("children_class"))
  {
    match Lookup(attrs, kind, "children_class")
    case Ok(Class(k)) => Ok(k)
    case Ok(_) => Err(TypeError("children_class is not callable"))
    case Err(e) => Err(e)
  }

  /** The part of a stored dict whose keys are in `done`. */
  function Restrict(content: map<string, J.Json>, done: set<string>): (c: map<string, J.Json>)
    ensures c.Keys == content.Keys * done
    ensures forall k :: k in c ==> c[k] == content[k]
  {
    map k | k in content && k in done :: content[k]
  }

  /** The instance dict once `update` has raised part-way through a stored
      dict: some of its keys, none of them a property, were stored (the dict's
      order decides which, and a decoded object keeps no order here), and
      nothing else changed. */
  ghost predicate PartlyUpdated(before: map<string, Value>, after: map<string, Value>, kind: Kind, content: map<string, J.Json>) {
    exists done :: done <= content.Keys && Settable(kind, Restrict(content, done)) && after == before + ContentAttrs(Restrict(content, done))
  }

  /** `done` witnesses `PartlyUpdated`. */
  lemma PartlyUpdatedBy(before: map<string, Value>, after: map<string, Value>, kind: Kind, content: map<string, J.Json>, done: set<string>)
    requires done <= content.Keys && Settable(kind, Restrict(content, done))
    requires after == before + ContentAttrs(Restrict(content, done))
    ensures PartlyUpdated(before, after, kind, content)
  {
  }

  /** The error `update` raises is an AttributeError or a TypeError. */
  lemma UpdateFailedError(before: map<string, Value>, after: map<string, Value>, kind: Kind, content: map<string, J.Json>, e: Exc)
    requires UpdateFailed(before, after, kind, content, e)
    ensures e.AttributeError? || e.TypeError?
  {
    var k :| k in content && SetAttrError(kind, k, content[k]) == Some(e);
  }

  /** `update` raised `e`, the error of the setter of one of the keys, and
      left the instance dict partly updated. */
  ghost predicate UpdateFailed(before: map<string, Value>, after: map<string, Value>, kind: Kind, content: map<string, J.Json>, e: Exc) {
    && (exists k :: k in content && SetAttrError(kind, k, content[k]) == Some(e))
    && PartlyUpdated(before, after, kind, content)
  }

  /** The instance dict a stored JSON object writes through `update`. */
  function ContentAttrs(content: map<string, J.Json>): (a: map<string, Value>)
    ensures a.Keys == content.Keys
    ensures forall k :: k in content ==> a[k] == Data(content[k])
  {
    map k | k in content :: Data(content[k])
  }

  /** The loop of `get_album_duration`: `duration += f(x)` for each element,
      raising the first failure. */
  method AddUp<T>(f: T -> Result<int, Exc>, xs: seq<T>) returns (r: Result<int, Exc>)
    ensures r == SumOf(f, xs)
  {
    var d := 0;
    var i := 0;
    while i < |xs|
      invariant 0 <= i <= |xs|
      invariant SumOf(f, xs[..i]) == Ok(d)
    {
      var step := f(xs[i]);
      SumOfNext(f, xs, i, d);
      if step.Err? {
        return Err(step.error);
      }
      d := d + step.value;
      i := i + 1;
    }
    assert xs[..i] == xs;
    return Ok(d);
  }

  /** `Album.get_album_duration`: sums the time span of every title div,
      raising the first malformed one, and renders the total as a timedelta. */
  method AlbumDuration(divs: seq<Option<string>>) returns (r: Result<string, Exc>)
    ensures r == DurationText(divs)
  {
    var total := AddUp(DivSeconds, divs);
    match total
    case Err(e) => r := Err(e);
    case Ok(d) => r := Ok(TimedeltaString(d));
  }

  /** Every attribute but the children dict is as it was. */
  predicate OthersUnchanged(before: map<string, Value>, after: map<string, Value>) {
    after.Keys == before.Keys && forall k :: k in before && k != "children" ==> after[k] == before[k]
  }

  /** `after` is `before` with a new `childKind` object, as freshly built, under
      each URL of `keys` (replacing what was there), and nothing else changed. */
  ghost predicate AddedChildren(before: map<Value, Item>, after: map<Value, Item>, keys: set<Value>, childKind: Kind)
    reads set k | k in keys && k in after :: after[k]
  {
    && after.Keys == before.Keys + keys
    && (forall k :: k in keys ==> after[k].kind == childKind && after[k].attrs == InitialAttrs(childKind, k))
    && (forall k :: k in before && k !in keys ==> after[k] == before[k])
  }

  lemma AddedFirstChild(before: map<Value, Item>, k: Value, c: Item, childKind: Kind)
    requires c.kind == childKind && c.attrs == InitialAttrs(childKind, k)
    ensures AddedChildren(before, before[k := c], {k}, childKind)
  {
  }

  lemma AddedNextChild(before: map<Value, Item>, mid: map<Value, Item>, keys: set<Value>,
                       k: Value, c: Item, childKind: Kind)
    requires AddedChildren(before, mid, keys, childKind)
    requires c.kind == childKind && c.attrs == InitialAttrs(childKind, k)
    ensures AddedChildren(before, mid[k := c], keys + {k}, childKind)
  {
  }

  /** The URLs of a prefix one longer are one URL more. */
  lemma PrefixKeysSnoc(urls: seq<Value>, i: nat, j: nat)
    requires i < |urls| && j == i + 1
    ensures (set u | u in urls[..j]) == (set u | u in urls[..i]) + {urls[i]}
  {
    assert urls[..j] == urls[..i] + [urls[i]];
  }

  /** An item object: its instance dict, and which class it is. */
  class Item {
    var attrs: map<string, Value>
    const kind: Kind

    /** `Track(url)`, `Album(url)` or `Band(url)` once the URL has been
        validated (`New` does that). */
    constructor (kind: Kind, url: Value)
      ensures this.kind == kind && attrs == InitialAttrs(kind, url)
    {
      this.kind := kind;
      attrs := InitialAttrs(kind, url);
    }

    function GetAttr(name: string): Result<Value, Exc>
      reads this
    {
      Lookup(attrs, kind, name)
    }

    /** `self.children`, when it is a dict of children. */
    function ChildrenMap(): (r: Result<map<Value, Item>, Exc>)
      reads this
      ensures r.Ok? ==> "children" in attrs && attrs["children"] == Children(r.value)
    {
      ChildrenIn(attrs, kind)
    }

    /** `self.children_class` */
    function ChildClass(): Result<ChildKind, Exc>
      reads this
    {
      ChildClassIn(attrs, kind)
    }

    /** `ItemBase.update` on a stored dict: `setattr` for every key, so
        that, when every key can be assigned, the new attributes win and
        every other attribute is kept; a key that cannot be assigned raises
        its `SetAttrError`, after some of the other keys were stored. */
    method Update(content: map<string, J.Json>) returns (r: Result<(), Exc>)
      modifies this
      ensures r.Ok? <==> Settable(kind, content)
      ensures r.Ok? ==> r == Ok(()) && attrs == old(attrs) + ContentAttrs(content)
      ensures r.Err? ==> UpdateFailed(old(attrs), attrs, kind, content, r.error)
    {
      var todo := content.Keys;
      ghost var done: set<string> := {};
      while todo != {}
        invariant todo <= content.Keys && done == content.Keys - todo
        invariant Settable(kind, Restrict(content, done))
        invariant attrs == old(attrs) + ContentAttrs(Restrict(content, done))
        decreases todo
      {
        var k :| k in todo;
        match SetAttrError(kind, k, content[k]) {
          case Some(e) =>
            PartlyUpdatedBy(old(attrs), attrs, kind, content, done);
            return Err(e);
          case None =>
        }
        attrs := attrs[k := Data(content[k])];
        todo := todo - {k};
        done := done + {k};
      }
      assert Restrict(content, done) == content;
      r := Ok(());

    }

    /** `ItemBase.to_dict` */
    method ToDict() returns (d: map<string, Value>)
      ensures d == PublicAttrs(attrs)
    {
      d := map[];
      var todo := attrs.Keys;
      while todo != {}
        invariant todo <= attrs.Keys
        invariant d == map k | k in attrs && k !in todo && IsPublic(k, attrs[k]) :: attrs[k]
        decreases todo
      {
        var k :| k in todo;
        if IsPublic(k, attrs[k]) {
          d := d[k := attrs[k]];
        }
        todo := todo - {k};
      }
    }

    /** `ItemWithChildren.add_children`: stores the child under its `url`;
        a track has no such method. */
    method AddChildren(child: Item) returns (r: Result<(), Exc>)
      modifies this
      ensures kind == TrackKind ==> r == Err(AttributeError("add_children")) && attrs == old(attrs)
      ensures kind != TrackKind && old(ChildrenMap()).Err? ==>
        r == Err(old(ChildrenMap()).error) && attrs == old(attrs)
      ensures kind != TrackKind && old(ChildrenMap()).Ok? && old(child.GetAttr("url")).Err? ==>
        r == Err(old(child.GetAttr("url")).error) && attrs == old(attrs)
      ensures kind != TrackKind && old(ChildrenMap()).Ok? && old(child.GetAttr("url")).Ok? ==>
        r == Ok(()) &&
        attrs == old(attrs)["children" := Children(old(ChildrenMap()).value[old(child.GetAttr("url")).value := child])]
    {
      if kind == TrackKind {
        return Err(AttributeError("add_children"));
      }
      var children := ChildrenMap();
      if children.Err? {
        return Err(children.error);
      }
      var url := child.GetAttr("url");
      if url.Err? {
        return Err(url.error);
      }
      attrs := attrs["children" := Children(children.value[url.value := child])];
      r := Ok(());
    }

    /** One step of that loop: `self.add_children(self.children_class(url))`
        for a child class, whose constructor takes the URL as it is. */
    method AddNewChild(url: Value, childKind: ChildKind) returns (r: Result<(), Exc>, ghost child: Item)
      modifies this
      ensures r.Ok? <==> kind != TrackKind && old(ChildrenMap()).Ok?
      ensures r.Err? ==> attrs == old(attrs)
      ensures r.Ok? ==>
        && attrs == old(attrs)["children" := Children(old(ChildrenMap()).value[url := child])]
        && fresh(child) && child.kind == childKind && child.attrs == InitialAttrs(childKind, url)
    {
      var c := new Item(childKind, url);
      assert c.GetAttr("url") == Ok(url);
      child := c;
      r := AddChildren(c);
    }

    /** The loop of `add_childrens` (and of `update_from_soup`): builds a
        `childKind` object on each URL in turn and adds it under that URL,
        stopping at the first exception. */
    method AddNew(urls: seq<Value>, childKind: ChildKind) returns (r: Result<(), Exc>)
      modifies this
      ensures OthersUnchanged(old(attrs), attrs)
      ensures r.Ok? <==> urls == [] || (kind != TrackKind && old(ChildrenMap()).Ok?)
      ensures r.Err? || urls == [] ==> attrs == old(attrs)
      ensures r.Ok? && urls != [] ==>
        && ChildrenMap().Ok?
        && AddedChildren(old(ChildrenMap()).value, ChildrenMap().value, (set u | u in urls), childKind)
        && forall u :: u in urls ==> fresh(ChildrenMap().value[u])
    {
      if urls == [] {
        return Ok(());
      }
      ghost var before := ChildrenMap();
      ghost var m: map<Value, Item> := map[];
      ghost var keys: set<Value> := {};
      var i := 0;
      while i < |urls|
        invariant 0 <= i <= |urls|
        invariant OthersUnchanged(old(attrs), attrs)
        invariant i == 0 ==> attrs == old(attrs)
        invariant i > 0 ==> kind != TrackKind && before.Ok?
        invariant i > 0 ==> "children" in attrs && attrs["children"] == Children(m)
        invariant keys == set u | u in urls[..i]
        invariant i > 0 ==> AddedChildren(before.value, m, keys, childKind)
        invariant i > 0 ==> forall u :: u in keys ==> fresh(m[u])
      {
        ghost var mid := m;
        var added, child := AddNewChild(urls[i], childKind);
        if added.Err? {
          return added;
        }
        if i == 0 {
          mid := before.value;
        }
        m := mid[urls[i] := child];
        assert attrs["children"] == Children(m);
        if i == 0 {
          AddedFirstChild(mid, urls[i], child, childKind);
        } else {
          AddedNextChild(before.value, mid, keys, urls[i], child, childKind);
        }
        PrefixKeysSnoc(urls, i, i + 1);
        keys := keys + {urls[i]};
        i := i + 1;
      }
      assert urls[..i] == urls;
      r := Ok(());
    }

    /** `ItemWithChildren.add_childrens`: nothing for no URLs; otherwise a
        `children_class` object per URL, added in turn. A track has no
        such method. */
    method AddChildrens(urls: seq<Value>) returns (r: Result<(), Exc>)
      modifies this
      ensures OthersUnchanged(old(attrs), attrs)
      ensures r.Err? || urls == [] ==> attrs == old(attrs)
      ensures kind == TrackKind ==> r == Err(AttributeError("add_childrens"))
      ensures kind != TrackKind && urls != [] && old(ChildClass()).Err? ==> r == Err(old(ChildClass()).error)
      ensures kind != TrackKind ==>
        (r.Ok? <==> urls == [] || (old(ChildClass()).Ok? && old(ChildrenMap()).Ok?))
      ensures r.Ok? && urls != [] ==>
        && ChildrenMap().Ok?
        && AddedChildren(old(ChildrenMap()).value, ChildrenMap().value, (set u | u in urls), old(ChildClass()).value)
        && forall u :: u in urls ==> fresh(ChildrenMap().value[u])
    {
      if kind == TrackKind {
        return Err(AttributeError("add_childrens"));
      }
      if urls == [] {
        return Ok(());
      }
      var childClass := ChildClass();
      if childClass.Err? {
        return Err(childClass.error);
      }
      r := AddNew(urls, childClass.value);
    }

    /** `ItemWithChildren.get_children`: the child stored under a URL, if any. */
    function GetChildren(url: Value): (r: Result<Option<Item>, Exc>)
      reads this
      ensures kind == TrackKind ==> r == Err(AttributeError("get_children"))
      ensures kind != TrackKind ==> (r.Ok? <==> ChildrenMap().Ok?)
      ensures r.Ok? ==> (r.value.Some? <==> url in ChildrenMap().value)
    {
      if kind == TrackKind then Err(AttributeError("get_children"))
      else match ChildrenMap()
        case Err(e) => Err(e)
        case Ok(m) => Ok(if url in m then Some(m[url]) else None)
    }

    /** After children were added under `keys`, each of them is found under
        its own URL, and every other URL finds what it found before. */
    lemma GetAddedChildren(before: map<Value, Item>, keys: set<Value>, childKind: ChildKind, u: Value)
      requires kind != TrackKind && ChildrenMap().Ok?
      requires AddedChildren(before, ChildrenMap().value, keys, childKind)
      ensures u in keys ==>
        && GetChildren(u).Ok? && GetChildren(u).value.Some?
        && GetChildren(u).value.value.kind == childKind
        && GetChildren(u).value.value.GetAttr("url") == Ok(u)
      ensures u !in keys ==> GetChildren(u) == Ok(if u in before then Some(before[u]) else None)
    {
      if u in keys {
        var c := ChildrenMap().value[u];
        assert c.attrs == InitialAttrs(childKind, u);
        assert c.GetAttr("url") == Ok(u);
      }
    }

    /** The `parent` property of a track or an album reads `_parent_obj`; a
        band has no such property, only whatever was stored as `parent`. */
    function Parent(): (r: Result<Value, Exc>)
      reads this
      ensures kind != BandKind && "_parent_obj" in attrs ==> r == Ok(attrs["_parent_obj"])
      ensures kind != BandKind ==> (r.Ok? <==> "_parent_obj" in attrs)
      ensures kind == BandKind ==> (r.Ok? <==> "parent" in attrs)
      ensures kind == BandKind && "parent" in attrs ==> r == Ok(attrs["parent"])
    {
      GetAttr("parent")
    }

    /** Assigning `parent`: on a band a plain attribute; on a track or an album
        the setter, which reads `item.of_type` and then `self.parent_type`
        and stores the item only when the two agree. */
    method SetParent(item: Item) returns (r: Result<(), Exc>)
      modifies this
      ensures kind == BandKind ==> r == Ok(()) && attrs == old(attrs)["parent" := Ref(item)]
      ensures kind != BandKind && old(GetAttr("parent_type")).Err? ==>
        r == Err(AttributeError("parent_type")) && attrs == old(attrs)
      ensures kind != BandKind && old(GetAttr("parent_type")).Ok? &&
              old(item.GetAttr("of_type")) != old(GetAttr("parent_type")) ==>
        r.Err? && r.error.ValueError? && attrs == old(attrs)
      ensures kind != BandKind && old(GetAttr("parent_type")).Ok? &&
              old(item.GetAttr("of_type")) == old(GetAttr("parent_type")) ==>
        r == Ok(()) && attrs == old(attrs)["_parent_obj" := Ref(item)]
      ensures r.Ok? ==> Parent() == Ok(Ref(item))
    {
      if kind == BandKind {
        attrs := attrs["parent" := Ref(item)];
        return Ok(());
      }
      var ofType := item.GetAttr("of_type");
      var parentType := GetAttr("parent_type");
      if parentType.Err? {
        return Err(parentType.error);
      }
      if ofType != parentType {
        return Err(ValueError("parent type is not the expected one"));
      }
      attrs := attrs["_parent_obj" := Ref(item)];
      r := Ok(());
    }

    /** `Track.update_from_soup`: the track's fields, from the page's
        `data-tralbum` data. */
    method UpdateTrackFromSoup(soup: Soup) returns (r: Result<bool, Exc>)
      requires kind == TrackKind
      modifies this
      ensures attrs == TrackFromSoup(old(attrs), soup).attrs && r == TrackFromSoup(old(attrs), soup).result
    {
      var u := TrackFromSoup(attrs, soup);
      attrs := u.attrs;
      r := u.result;
    }

    /** `Album.update_from_soup`: the album's fields, then a `children_class`
        object per track URL. */
    method UpdateAlbumFromSoup(soup: Soup) returns (r: Result<bool, Exc>)
      requires kind == AlbumKind
      modifies this
      ensures AlbumFields(old(attrs), soup).result.Err? ==>
        attrs == AlbumFields(old(attrs), soup).attrs && r == AlbumFields(old(attrs), soup).result
      ensures AlbumFields(old(attrs), soup).result.Ok? ==>
        var fields := AlbumFields(old(attrs), soup).attrs;
        var urls := StrValues(TracksUrls(soup.tags).value);
        && OthersUnchanged(fields, attrs)
        && (r.Ok? <==> urls == [] || (old(ChildClass()).Ok? && old(ChildrenMap()).Ok?))
        && (r.Ok? ==> r == Ok(true))
        && (r.Err? ==> attrs == fields)
        && (r.Ok? && urls != [] ==>
              && ChildrenMap().Ok?
              && AddedChildren(old(ChildrenMap()).value, ChildrenMap().value, (set u | u in urls), old(ChildClass()).value))
    {
      var u := AlbumFields(attrs, soup);
      LookupUnchanged(attrs, u.attrs, AlbumSoupNames, kind, "children");
      LookupUnchanged(attrs, u.attrs, AlbumSoupNames, kind, "children_class");
      attrs := u.attrs;
      if u.result.Err? {
        return u.result;
      }
      IterateStrList(TracksUrls(soup.tags).value);
      var urls := Iterate(attrs["tracks_urls"]);
      var added := AddChildrens(urls.value);
      if added.Err? {
        return Err(added.error);
      }
      r := Ok(true);
    }

    /** `Band.update_from_soup`: the band's fields, then an `Album` per album
        URL. */
    method UpdateBandFromSoup(soup: Soup) returns (r: Result<bool, Exc>)
      requires kind == BandKind
      modifies this
      ensures BandFields(old(attrs), soup).result.Err? ==>
        attrs == BandFields(old(attrs), soup).attrs && r == BandFields(old(attrs), soup).result
      ensures BandFields(old(attrs), soup).result.Ok? ==>
        var fields := BandFields(old(attrs), soup).attrs;
        var urls := StrValues(AlbumsUrls(soup.tags));
        && OthersUnchanged(fields, attrs)
        && (r.Ok? <==> urls == [] || old(ChildrenMap()).Ok?)
        && (r.Ok? ==> r == Ok(true))
        && (r.Err? ==> attrs == fields)
        && (r.Ok? && urls != [] ==>
              && ChildrenMap().Ok?
              && AddedChildren(old(ChildrenMap()).value, ChildrenMap().value, (set u | u in urls), AlbumKind))
    {
      var u := BandFields(attrs, soup);
      LookupUnchanged(attrs, u.attrs, BandSoupNames, kind, "children");
      attrs := u.attrs;
      if u.result.Err? {
        return u.result;
      }
      IterateStrList(AlbumsUrls(soup.tags));
      var urls := Iterate(attrs["albums_urls"]);
      var added := AddNew(urls.value, AlbumKind);
      if added.Err? {
        return Err(added.error);
      }
      r := Ok(true);
    }

    /** `update_from_soup`, dispatched on the item's class. */
    method UpdateFromSoup(soup: Soup) returns (r: Result<bool, Exc>)
      modifies this
      ensures kind == TrackKind ==>
        attrs == TrackFromSoup(old(attrs), soup).attrs && r == TrackFromSoup(old(attrs), soup).result
      ensures kind == AlbumKind && AlbumFields(old(attrs), soup).result.Err? ==>
        attrs == AlbumFields(old(attrs), soup).attrs && r == AlbumFields(old(attrs), soup).result
      ensures kind == AlbumKind && AlbumFields(old(attrs), soup).result.Ok? ==>
        var fields := AlbumFields(old(attrs), soup).attrs;
        var urls := StrValues(TracksUrls(soup.tags).value);
        && OthersUnchanged(fields, attrs)
        && (r.Ok? <==> urls == [] || (old(ChildClass()).Ok? && old(ChildrenMap()).Ok?))
        && (r.Ok? ==> r == Ok(true))
        && (r.Err? ==> attrs == fields)
        && (r.Ok? && urls != [] ==>
              && ChildrenMap().Ok?
              && AddedChildren(old(ChildrenMap()).value, ChildrenMap().value, (set u | u in urls), old(ChildClass()).value))
      ensures kind == BandKind && BandFields(old(attrs), soup).result.Err? ==>
        attrs == BandFields(old(attrs), soup).attrs && r == BandFields(old(attrs), soup).result
      ensures kind == BandKind && BandFields(old(attrs), soup).result.Ok? ==>
        var fields := BandFields(old(attrs), soup).attrs;
        var urls := StrValues(AlbumsUrls(soup.tags));
        && OthersUnchanged(fields, attrs)
        && (r.Ok? <==> urls == [] || old(ChildrenMap()).Ok?)
        && (r.Ok? ==> r == Ok(true))
        && (r.Err? ==> attrs == fields)
        && (r.Ok? && urls != [] ==>
              && ChildrenMap().Ok?
              && AddedChildren(old(ChildrenMap()).value, ChildrenMap().value, (set u | u in urls), AlbumKind))
    {
      match kind {
        case TrackKind =>
          r := UpdateTrackFromSoup(soup);
        case AlbumKind =>
          r := UpdateAlbumFromSoup(soup);
        case BandKind =>
          r := UpdateBandFromSoup(soup);
      }
    }

    /** `Track.update_from_dict`: every key of the stored JSON object
        becomes an attribute; a `parent` key raises from the property's
        setter, and so does a key `setattr` refuses. */
    method UpdateTrackFromDict(content: map<string, J.Json>) returns (r: Result<(), Exc>)
      requires kind == TrackKind
      modifies this
      ensures Settable(kind, content) ==> r == Ok(()) && attrs == old(attrs) + ContentAttrs(content)
      ensures !Settable(kind, content) ==> r.Err? && UpdateFailed(old(attrs), attrs, kind, content, r.error)
      ensures "parent" in content && Settable(kind, content - {"parent"}) ==> r == Err(AttributeError("of_type"))
    {
      r := Update(content);
      if "parent" in content && Settable(kind, content - {"parent"}) {
        assert forall j :: j in content && j != "parent" ==> j in content - {"parent"} && (content - {"parent"})[j] == content[j];
        var k :| k in content && SetAttrError(kind, k, content[k]) == Some(r.error);
        assert k == "parent";
      }
    }

    /** What `update_from_dict` of an album or a band promises once the keys
        are merged into `merged`: `adder`, the bound `add_childrens`, is
        called on the URLs listed under `key`, and the children are added;
        a stored value under `adder` or `add_children` cannot be called. */
    ghost predicate DictChildrenAdded(merged: map<string, Value>, content: map<string, J.Json>, key: string, adder: string, r: Result<(), Exc>)
      reads this, if ChildrenMap().Ok? then set k | k in ChildrenMap().value :: ChildrenMap().value[k] else {}
    {
      && OthersUnchanged(merged, attrs)
      && (key !in content ==> r == Err(KeyError(key)))
      && (key in content && CallError(merged, kind, adder).Some? ==> r == Err(CallError(merged, kind, adder).value))
      && (key in content && CallError(merged, kind, adder).None? && Iterate(Data(content[key])).Err? ==>
            r == Err(Iterate(Data(content[key])).error))
      && (r.Err? ==> attrs == merged)
      && (key in content && CallError(merged, kind, adder).None? && Iterate(Data(content[key])).Ok? ==>
            var urls := Iterate(Data(content[key])).value;
            && (urls != [] && ChildClassIn(merged, kind).Ok? && Shadowed(merged, "add_children") ==>
                  r == Err(TypeError("add_children is not callable")))
            && (r.Ok? <==> (urls == [] ||
                  (ChildClassIn(merged, kind).Ok? && !Shadowed(merged, "add_children") && ChildrenIn(merged, kind).Ok?)))
            && (r.Ok? && urls != [] ==>
                  && ChildrenMap().Ok?
                  && AddedChildren(ChildrenIn(merged, kind).value, ChildrenMap().value,
                                   (set u | u in urls), ChildClassIn(merged, kind).value)))
    }

    /** `Album.update_from_dict`: every key becomes an attribute, then a
        `children_class` object per URL in `tracks_urls`. */
    method UpdateAlbumFromDict(content: map<string, J.Json>) returns (r: Result<(), Exc>)
      requires kind == AlbumKind
      modifies this
      ensures Settable(kind, content) ==>
        DictChildrenAdded(old(attrs) + ContentAttrs(content), content, "tracks_urls", "add_tracks", r)
      ensures !Settable(kind, content) ==>
        r.Err? && UpdateFailed(old(attrs), attrs, kind, content, r.error)
    {
      r := Update(content);
      if r.Err? {
        return;
      }
      if "tracks_urls" !in content {
        return Err(KeyError("tracks_urls"));
      }
      var call := CallError(attrs, kind, "add_tracks");
      if call.Some? {
        return Err(call.value);
      }
      var urls := Iterate(Data(content["tracks_urls"]));
      if urls.Err? {
        return Err(urls.error);
      }
      if urls.value != [] && ChildClass().Ok? && Shadowed(attrs, "add_children") {
        return Err(TypeError("add_children is not callable"));
      }
      r := AddChildrens(urls.value);
    }

    /** `Band.update_from_dict`: every key becomes an attribute,
        `albums_urls` is assigned once more, then an `Album` per URL in it. */
    method UpdateBandFromDict(content: map<string, J.Json>) returns (r: Result<(), Exc>)
      requires kind == BandKind
      modifies this
      ensures Settable(kind, content) ==>
        DictChildrenAdded(old(attrs) + ContentAttrs(content), content, "albums_urls", "add_albums", r)
      ensures !Settable(kind, content) ==>
        r.Err? && UpdateFailed(old(attrs), attrs, kind, content, r.error)
    {
      r := Update(content);
      if r.Err? {
        return;
      }
      if "albums_urls" !in content {
        return Err(KeyError("albums_urls"));
      }
      ghost var merged := attrs;
      attrs := attrs["albums_urls" := Data(content["albums_urls"])];
      assert attrs == merged;
      var call := CallError(attrs, kind, "add_albums");
      if call.Some? {
        return Err(call.value);
      }
      var urls := Iterate(Data(content["albums_urls"]));
      if urls.Err? {
        return Err(urls.error);
      }
      if urls.value != [] && ChildClass().Ok? && Shadowed(attrs, "add_children") {
        return Err(TypeError("add_children is not callable"));
      }
      r := AddChildrens(urls.value);
    }

    /** `update_from_dict`, dispatched on the item's class. */
    method UpdateFromDict(content: map<string, J.Json>) returns (r: Result<(), Exc>)
      modifies this
      ensures kind == TrackKind && Settable(kind, content) ==> r == Ok(()) && attrs == old(attrs) + ContentAttrs(content)
      ensures kind == TrackKind && "parent" in content && Settable(kind, content - {"parent"}) ==>
        r == Err(AttributeError("of_type"))
      ensures !Settable(kind, content) ==>
        r.Err? && UpdateFailed(old(attrs), attrs, kind, content, r.error)
      ensures kind != TrackKind && Settable(kind, content) ==>
        DictChildrenAdded(old(attrs) + ContentAttrs(content), content,
                          if kind == AlbumKind then "tracks_urls" else "albums_urls",
                          if kind == AlbumKind then "add_tracks" else "add_albums", r)
    {
      match kind {
        case TrackKind =>
          r := UpdateTrackFromDict(content);
        case AlbumKind =>
          r := UpdateAlbumFromDict(content);
        case BandKind =>
          r := UpdateBandFromDict(content);
      }
    }

    /** `Track.to_dict`, `Album.to_dict`, `Band.to_dict` */
    method Serialize() returns (r: Result<map<string, Value>, Exc>)
      ensures r == Serialized(kind, attrs)
    {
      var d := ToDict();
      match kind {
      case TrackKind =>
        if "album" !in d {
          return Err(KeyError("album"));
        }
        d := d - {"album"};
      case AlbumKind =>
        if "band" !in d {
          return Err(KeyError("band"));
        }
        d := d - {"band"};
        if "tracks" in d && Truthy(d["tracks"]) {
          d := d - {"tracks"};
        }
        if "children" !in d {
          return Err(KeyError("children"));
        }
        d := d - {"children"};
      case BandKind =>
        if "albums" in d && Truthy(d["albums"]) {
          d := d - {"albums"};
        }
        if "children" !in d {
          return Err(KeyError("children"));
        }
        d := d - {"children"};
      }
      r := Ok(d);
    }
  }

  /** Iterating a stored dict visits each of its keys once, as strings. */
  lemma IterateDict(fields: map<string, J.Json>)
    ensures var r := Iterate(Data(J.Object(fields)));
      && r.Ok? && |r.value| == |fields|
      && (forall k :: 0 <= k < |r.value| ==> r.value[k].Data? && r.value[k].j.Str? && r.value[k].j.s in fields)
      && (forall key :: key in fields ==> StrValue(key) in r.value)
  {
    var xs := J.Elements(J.Object(fields)).value;
    var r := Iterate(Data(J.Object(fields))).value;
    assert forall k :: 0 <= k < |xs| ==> r[k] == Data(xs[k]);
    forall k | 0 <= k < |r|
      ensures r[k].Data? && r[k].j.Str? && r[k].j.s in fields
    {
      assert xs[k] in xs;
    }
    forall key | key in fields
      ensures StrValue(key) in r
    {
      assert J.Str(key) in xs;
      var k :| 0 <= k < |xs| && xs[k] == J.Str(key);
      assert r[k] == StrValue(key);
    }
  }

  /** Iterating a stored list of strings visits those strings. */
  lemma IterateStrList(xs: seq<string>)
    ensures Iterate(StrList(xs)) == Ok(StrValues(xs))
  {
    var v := StrList(xs);
    assert J.Elements(v.j) == Ok(v.j.items);
    var vs := Iterate(v).value;
    assert |vs| == |xs|;
    assert forall k :: 0 <= k < |xs| ==> vs[k] == StrValue(xs[k]);
    assert vs == StrValues(xs);
  }

  /** No class defines `parent_type`, so an item fresh from its constructor
      has none, and the parent setter of a track or an album can only raise. */
  lemma NoParentType(kind: Kind, url: Value)
    ensures Lookup(InitialAttrs(kind, url), kind, "parent_type") == Err(AttributeError("parent_type"))
  {
  }

  /** `Track(url)`, `Album(url)`, `Band(url)`: a band validates its URL first. */
  method New(kind: Kind, url: Value) returns (r: Result<Item, Exc>)
    ensures ConstructedUrl(kind, url).Err? ==> r == Err(ConstructedUrl(kind, url).error)
    ensures ConstructedUrl(kind, url).Ok? ==>
      r.Ok? && fresh(r.value) && r.value.kind == kind && r.value.attrs == InitialAttrs(kind, ConstructedUrl(kind, url).value)
  {
    var u := ConstructedUrl(kind, url);
    if u.Err? {
      return Err(u.error);
    }
    var item := new Item(kind, u.value);
    r := Ok(item);
  }
}
