# patricie: a Dafny model of the catalog client, the scrapers, the throttle and the players

patricie plays a band's music from bandcamp. It reads the band's music page,
then the albums on it, then each album's tracks. It downloads every track's
mp3 under a local data directory and plays the files one after another. This
project models the parts of the program that decide what happens:

- **The catalog client and its entities** (`src/bcp/bandcamp/main.py`,
  `src/bcp/bandcamp/items.py`):
  - the attribute-bag base classes `ItemBase`, `ItemWithChildren` and
    `ItemWithParent`;
  - `Track`, `Album` and `Band`, with what each reads from a parsed page or a
    stored dict, its URL filters, the album duration and `Band.validate_url`;
  - `BandCamp`: `download_content` with its retry loop, `get_item` with its
    item cache, `load_item`, `download_mp3`, `build_track_path_name` and
    `to_full_url`.
- **The scraper helpers in two revisions**: `src/bcp/bandcamplib.py` and the
  older `bcp/bandcamplib.py`. These cover:
  - URL types and the band-URL check;
  - the `/music` rewrite;
  - the album and track lists read from a page;
  - where mp3 files go, and the short-circuit when a file already exists;
  - the older revision's recursive generator `get_mp3s_from_url`.
- **The request throttle** of `src/bcp/utils.py`.
- **The two desktop `Player` classes** of the older revision (`bcp/player.py`,
  `bcp/main.py`). These cover play, pause, next and stop, the volume fades,
  and the volume controls.

## How the model is organised

The modules follow the program's structure. Each module is one file:

| file | module | models |
|---|---|---|
| `wrappers.dfy` | `Wrappers` | `Option`, `Result`, and the Python exceptions raised on the modelled paths |
| `strings.dfy` | `Strings` | `str.split`, `join`, `count`, `strip` (with Python's whitespace set), `startswith`, `isalpha` on ASCII letters only, `int()` of ASCII digits with `_` separators, and `str()` of integers |
| `json.dfy` | `Json` | decoded JSON values, with Python truthiness and subscription |
| `urls.dfy` | `Urls` | `urlparse`, `_replace` and `geturl`: the scheme, authority and path split of section 3 of RFC 3986, after the cleanup the WHATWG URL Standard prescribes (leading C0 controls and spaces dropped, tabs and line breaks removed), written the way CPython writes it back |
| `disk.dfy` | `Disk` | the files and directories on disk, `os.path.join` and `pathlib`'s `/` |
| `entities.dfy` | `Entities` | `items.py`, and `Track`, `Album` and `Band` from `main.py` |
| `client.dfy` | `Client` | the `BandCamp` class |
| `scraper.dfy` | `Scraper` | `src/bcp/bandcamplib.py` |
| `legacy_scraper.dfy` | `LegacyScraper` | `bcp/bandcamplib.py` |
| `throttle.dfy` | `Throttle` | `throttle()` and `_prev_call_time` |
| `media.dfy` | `Media` | the sound handle and the entries of the mp3 iterator, shared by both players |
| `playback.dfy` | `Playback` | `Player` of `bcp/player.py` |
| `main_playback.dfy` | `MainPlayback` | `Player` of `bcp/main.py` |

The code changes state in these places, and the model does the same with
classes:

- An item's instance dict is field `attrs` of class `Entities.Item`.
- The client's `items` dict is a field of `Client.BandCamp`.
- The disk is `Disk.FileSystem`.
- The HTTP session is `Client.Session`: a scripted sequence of answers. It
  records every URL requested and every cache entry invalidated.
- `_prev_call_time` is the field of `Throttle.Gate`.
- Each player is a class with the fields the Python code sets.
- Each sound handle is a `Media.Sound` that records every volume written to
  it.

Each method with a loop carries the loop as a `while` with its invariants; these
are the retry loop, the duration sum, the list-building loops and the fades. It
is proved against a function. Lemmas then state what that function promises.

The model follows what the code does, bugs included:

- `Band.validate_url` turns a bare name into `https://<name>.https://bandcamp.com`.
- A 5xx answer does not use up a retry.
- The `track` branch of the older generator names the undefined `tracks_urls`.

These are modelled as written and proved as such (`ValidateUrlBareName`,
`ServerErrorsAreFree`, `TrackBranchIsError`).

A few more behaviours of the code are easy to misread, and the model keeps
them as the code has them:

- `Band.validate_url` empties the path of the URL it returns, doubles the
  scheme for bare names, and accepts only `bandcamp.com` hosts. It never adds
  `/music`. `_validate_url` of `src/bcp/bandcamplib.py` also accepts
  `bcbits.com`, and returns its input unchanged.
- A track with no mp3 is not skipped: `get_item` raises `LoadItemException`
  when `Track.update_from_soup` is falsy.
- The players consume an mp3 iterator in direct calls. No task runner and no
  album or track index is involved.
- Not every retry is bounded: a 5xx answer is retried without being counted.

## Model

| member | source | states |
|---|---|---|
| Throttle.SleepFor | src/bcp/utils.py:46-50 | a call sleeps exactly when it comes no later than `r` seconds after the previous one; the sleep is never negative and ends exactly `r` seconds after the previous call |
| Throttle.CallsSpaced | src/bcp/utils.py:46-51 | whether or not it slept, a call finishes at least `r` seconds after the previous one finished |
| Throttle.FirstCallNeverSleeps | src/bcp/utils.py:18-19 | with the initial time of 2000-01-01 and `r` in [5, 15], the first call later than 2000-01-01 plus 15 s does not sleep |
| Throttle.Gate.Throttle | src/bcp/utils.py:42-51 | with DEBUG: no sleep and `_prev_call_time` unchanged; otherwise the sleep is `SleepFor`, `_prev_call_time` becomes the time after it, and that is at least 5 s after the old one |
| Json.Get | src/bcp/bandcamp/main.py:51-54 | `v[key]` succeeds exactly on a dict holding `key`, and gives that entry |
| Json.Elements | src/bcp/bandcamplib.py:121 | iterating a list visits exactly its elements, a string its characters, a dict each of its keys once; iterating anything else fails |
| Strings.JoinSplit | src/bcp/bandcamplib.py:42 | joining the parts of `s.split(sep)` with `sep` gives `s` back |
| Strings.SplitJoin | src/bcp/bandcamplib.py:42 | splitting the join of separator-free parts gives the parts back |
| Strings.Split | src/bcp/bandcamplib.py:42 | `str.split` with one separator character gives at least one part, and no part holds the separator |
| Strings.Find | src/bcp/bandcamplib.py:169 | the first index of a character, or the length when it is absent: no earlier index holds it |
| Strings.RFind | src/bcp/bandcamplib.py:42 | the last index of a character, or -1 when it is absent: no later index holds it |
| Strings.NatToString | src/bcp/bandcamp/main.py:132 | `str()` of a natural is a non-empty run of digits |
| Strings.SplitCount | src/bcp/bandcamp/main.py:211-213 | `s.split('.')` has one part more than `s` has dots |
| Strings.StripEmpty | src/bcp/bandcamplib.py:169 | `strip` gives "" exactly when every character is stripped |
| Strings.ParseIntToString | src/bcp/bandcamp/main.py:125 | `int(str(i)) == i` for every integer |
| Strings.ParseIntUnderscores | src/bcp/bandcamp/main.py:125 | `int()` reads "1_000" as 1000 and rejects a doubled, leading or trailing `_` |
| Strings.DigitsAreRun | src/bcp/bandcamp/main.py:125 | a non-empty run of plain digits is a valid digit run and loses nothing when the separators are taken out |
| Urls.Parse | src/bcp/bandcamplib.py:174 | `urlparse` of the cleaned URL: no part holds a tab, CR or LF, the host holds no '/', '?' or '#', and the path holds no '?' or '#' |
| Urls.Clean | src/bcp/bandcamplib.py:174 | the text `urlsplit` works on holds no tab, CR or LF and does not start with a C0 control or a space |
| Urls.CleanKeeps | src/bcp/bandcamplib.py:174 | text that starts with no C0 control or space and holds no tab, CR or LF is left as it is |
| Urls.CleanIdempotent | src/bcp/bandcamplib.py:174 | cleaning twice is cleaning once |
| Urls.RemoveUnsafe | src/bcp/bandcamplib.py:174 | the tab, CR and LF removal leaves every other character, and leaves text without them unchanged |
| Urls.ParseHostOnly | src/bcp/bandcamplib.py:174 | a scheme, "://" and a host followed only by tabs and line breaks parse as that scheme and host with everything else empty |
| Urls.ParseUnparse | src/bcp/bandcamplib.py:89 | `urlparse(geturl(p)) == p` for every well-formed `p` |
| Urls.WithPathKeepsSite | src/bcp/bandcamplib.py:87-89 | replacing the path keeps the scheme and host, and reads back with the new path when that is well formed |
| Disk.OsJoin | src/bcp/bandcamplib.py:140 | an absolute second part replaces the first |
| Disk.OsJoinPlain | src/bcp/bandcamplib.py:140 | a relative name joined to a directory that does not end in '/' gets exactly one '/' in between |
| Disk.FileSystem.MakeDirs | src/bcp/bandcamplib.py:60-61 | the directory exists afterwards and no file changes |
| Disk.FileSystem.Write | src/bcp/bandcamplib.py:157-158 | the file holds the content afterwards, and nothing else changes |
| Entities.ClassAttrs | src/bcp/bandcamp/main.py:76-77 | each class defines `of_type`; no class defines `children` or `parent_type` |
| Entities.Lookup | src/bcp/bandcamp/items.py:43-45 | attribute lookup: the `parent` property of a track or an album reads `_parent_obj`, and fails exactly when that is unset; any other non-property name is found in the instance dict first, and fails exactly when neither the instance nor its class has it |
| Entities.Properties | src/bcp/bandcamp/main.py:134-136 | the property names of each class: `parent` on a track and an album, `tracks` on an album, `download_url` on a band |
| Entities.SetAttrError | src/bcp/bandcamp/items.py:47-51 | `setattr` of a stored value fails exactly for a property name, `__class__`, `__weakref__`, and a `__dict__` that is not a dict; a property raises AttributeError, naming `of_type` for `parent` (its setter reads `item.of_type`) and the property itself when it has no setter; `__weakref__` raises AttributeError, and `__class__` or a non-dict `__dict__` raises TypeError; every other name is simply stored |
| Entities.CallError | src/bcp/bandcamp/main.py:101 | calling an attribute fails exactly when looking it up fails, with that error, or when it finds a value that is neither a method nor a class, which is a TypeError |
| Entities.UpdateFailedError | src/bcp/bandcamp/items.py:8-10 | a failed `update` raises an AttributeError or a TypeError |
| Entities.PublicAttrs | src/bcp/bandcamp/items.py:12-21 | `to_dict` keeps exactly the attributes whose name does not start with '_' and whose value is not a bound method, with their values |
| Entities.UpdateToDictRoundTrip | src/bcp/bandcamp/items.py:8-21 | for an item whose public attributes `x` also has, `update(to_dict(x))` leaves exactly the public attributes of `x` |
| Entities.ValidateUrlBareName | src/bcp/bandcamp/main.py:204-207 | an alphabetic name becomes exactly `https://<name>.https://bandcamp.com`, with the scheme twice |
| Entities.AcceptedHostIff | src/bcp/bandcamp/main.py:209-215 | the host test accepts exactly the hosts `<sub>.bandcamp.com` with a non-empty, dot-free `<sub>` |
| Entities.ValidateUrlAccepts | src/bcp/bandcamp/main.py:209-218 | a URL that is not a bare name is accepted exactly when the host `urlparse` finds in it is `<sub>.bandcamp.com` with a non-empty, dot-free `<sub>` |
| Entities.ValidateUrlDropsLineBreaks | src/bcp/bandcamp/main.py:209-218 | a band URL `https://<sub>.bandcamp.com` followed only by tabs and line breaks, as pasted from the clipboard, is accepted and comes back without them |
| Entities.ValidateUrlKeepsHost | src/bcp/bandcamp/main.py:216-218 | an accepted URL reads back with scheme https and the same host; without `params` it reads back as the input's parts with scheme https and an empty path |
| Entities.ValidateUrlRewrites | src/bcp/bandcamp/main.py:216-218 | an accepted URL is exactly its parts written back with scheme https and an empty path, and its host is not empty |
| Entities.BandDownloadUrl | src/bcp/bandcamp/main.py:199-201 | a band's download URL is the inherited one read back with path "/music", with scheme and host kept |
| Entities.MusicPath | src/bcp/bandcamp/main.py:201 | writing parts out with the relative path "music" reads back with "/music" |
| Entities.MetaContent | src/bcp/bandcamp/main.py:162-165 | reading an `og:` property fails exactly when the page has no such meta tag |
| Entities.TracksUrls | src/bcp/bandcamp/main.py:119 | the only failure is a KeyError for `href` |
| Entities.TracksUrlsMembers | src/bcp/bandcamp/main.py:106-119 | the track list succeeds exactly when every track-title anchor has an href, and holds exactly those hrefs |
| Entities.TracksUrlsAppend | src/bcp/bandcamp/main.py:119 | the track list of two runs of tags is the first's list then the second's: page order is kept |
| Entities.AlbumsUrlsMembers | src/bcp/bandcamp/main.py:180-190 | every album URL starts with "/album/", and the list holds exactly the hrefs of tags whose href starts with "/album/" |
| Entities.AlbumsUrls | src/bcp/bandcamp/main.py:180-190 | the album list is never longer than the tags it is read from |
| Entities.AlbumsUrlsAppend | src/bcp/bandcamp/main.py:189 | the album list of two runs of tags is the first's list then the second's: page order is kept |
| Entities.InSecondsOfMinutes | src/bcp/bandcamp/main.py:123-125 | `in_seconds("m:s")` for two naturals written out is `60·m + s` |
| Entities.InSecondsOfParts | src/bcp/bandcamp/main.py:124-125 | two colon-free parts that parse as integers `m` and `s` give `60·m + s` |
| Entities.SumOfSnoc | src/bcp/bandcamp/main.py:127-131 | adding one more div to the sum: the first error stays, otherwise the sum grows by that div's seconds |
| Entities.SumOfAppend | src/bcp/bandcamp/main.py:127-131 | the sum over two runs of divs is the sum of their sums, and the first error wins |
| Entities.SumOfNext | src/bcp/bandcamp/main.py:128-131 | the step of the accumulator loop: an error in the next div is the result, otherwise the running sum grows by its seconds |
| Entities.DivSecondsOfStripped | src/bcp/bandcamp/main.py:129-131 | a time span that `strip` leaves alone is parsed as written |
| Entities.DivSecondsOfSpan | src/bcp/bandcamp/main.py:129-131 | a div whose time span reads `m:s` contributes `60·m + s` |
| Entities.TimedeltaReadsBack | src/bcp/bandcamp/main.py:132 | under a day, `str(timedelta(seconds=d))` has three colon-separated fields that parse back to `d / 3600`, `d / 60 % 60` and `d % 60` |
| Entities.ClockUnderDay | src/bcp/bandcamp/main.py:132 | under a day, the text is `H:MM:SS` with two-digit minutes and seconds |
| Entities.AddUp | src/bcp/bandcamp/main.py:127-131 | the accumulator loop computes the sum of the divs' seconds, as `SumOf` defines it, stopping at the first error |
| Entities.AlbumDuration | src/bcp/bandcamp/main.py:121-132 | `get_album_duration` gives the `timedelta` text of that sum, or the first error in it |
| Entities.TrackFromSoup | src/bcp/bandcamp/main.py:44-64 | True only when a `data-tralbum` script exists and `trackinfo[0].file` is not null, and then `mp3_url` is `file["mp3-128"]`; without the script nothing changes; when the file is null, `mp3_url` is left as it was; only the track's own fields change |
| Entities.TrackFromSoupPlayable | src/bcp/bandcamp/main.py:51-64 | conversely, a page with the script, a non-null file and all the fields read gives True |
| Entities.AlbumName | src/bcp/bandcamp/main.py:91 | the album name is read exactly when `#name-section` exists and has an `h2` |
| Entities.AlbumFields | src/bcp/bandcamp/main.py:89-94 | the album fields fail exactly when the name, `og:type`, a time span or a track href is missing; on success `tracks_urls` is set and only the album's fields change |
| Entities.BandFields | src/bcp/bandcamp/main.py:160-167 | the band fields fail exactly when one of the four `og:` tags is missing; on success `albums_urls` is set and only the band's fields change |
| Entities.Serialized | src/bcp/bandcamp/main.py:138-145 | `to_dict` holds only public attributes with their values and every public one except `children`, `album`, `band`, `tracks` and `albums`; a track drops `album`, an album drops `band` and `children`, a band drops `children`; a KeyError arises exactly when one of the deleted keys is missing |
| Entities.SerializedInitial | src/bcp/bandcamp/items.py:12-21 | a freshly built item of any class serialises to `{"url": url}` |
| Entities.SerializedInitialTrack | src/bcp/bandcamp/main.py:69-72 | a fresh track serialises to `{"url": url}`; `_parent_obj` is never written |
| Entities.SerializedInitialAlbum | src/bcp/bandcamp/main.py:138-145 | a fresh album serialises to `{"url": url}` |
| Entities.PublicInitialAlbum | src/bcp/bandcamp/main.py:79-87 | the public attributes of a fresh album are `url`, the empty `children` and `band = None`; the bound methods and `_parent_obj` are not among them |
| Entities.SerializedInitialBand | src/bcp/bandcamp/main.py:192-197 | a fresh band serialises to `{"url": url}` |
| Entities.PublicInitialBand | src/bcp/bandcamp/main.py:152-158 | the public attributes of a fresh band are `url` and the empty `children` |
| Entities.Iterate | src/bcp/bandcamp/items.py:29 | iterating a stored list visits its elements in order; iterating an item, a class or an item's children map fails |
| Entities.IterateStrList | src/bcp/bandcamp/items.py:29 | iterating a list of strings visits those strings in order |
| Entities.IterateDict | src/bcp/bandcamp/items.py:29 | iterating a stored dict visits each of its keys exactly once, as a string |
| Entities.ChildrenIn | src/bcp/bandcamp/items.py:26 | the children map is read only from an existing `children` attribute |
| Entities.ChildClassIn | src/bcp/bandcamp/main.py:77 | without an instance override, an album's children are tracks and a band's are albums; a track has no `children_class` |
| Entities.ContentAttrs | src/bcp/bandcamp/items.py:9-10 | a stored dict becomes attributes with exactly its keys and values |
| Entities.NoParentType | src/bcp/bandcamp/items.py:49 | no class or fresh instance defines `parent_type`, so reading it fails with AttributeError |
| Entities.New | src/bcp/bandcamp/main.py:152-156 | building an item stores its URL; a band validates it first, and a URL rejected there leaves no item |
| Entities.Item.ChildrenMap | src/bcp/bandcamp/items.py:26 | a children map read successfully is the one stored in `children` |
| Entities.Item.Update | src/bcp/bandcamp/items.py:8-10 | `update` succeeds exactly when `setattr` takes every stored key (`Settable`: none is a property, `__class__` or `__weakref__`, and `__dict__` holds a dict); then every key is set to its value and every other attribute is left as it was; otherwise it raises one refused key's `SetAttrError`, with some of the accepted keys stored and nothing else changed |
| Entities.Item.ToDict | src/bcp/bandcamp/items.py:12-21 | the result is the public part of the attributes |
| Entities.Item.AddChildren | src/bcp/bandcamp/items.py:32-33 | the child is stored under its URL, replacing an earlier entry there, and no other entry changes; a track has no `add_children`; a missing URL or children map fails and changes nothing |
| Entities.Item.AddNewChild | src/bcp/bandcamp/items.py:30 | a new child of the given class is built for the URL and stored under it |
| Entities.Item.AddNew | src/bcp/bandcamp/items.py:29-30 | after the loop, every URL of the list maps to a new child of that class built from it, the other entries are kept, and no other attribute changes |
| Entities.Item.AddChildrens | src/bcp/bandcamp/items.py:28-30 | the same, with the class's `children_class`; a track has no `add_childrens`, and an empty list changes nothing |
| Entities.Item.GetChildren | src/bcp/bandcamp/items.py:35-36 | `get_children(u)` finds an entry exactly when `u` is a key of the children map |
| Entities.Item.GetAddedChildren | src/bcp/bandcamp/items.py:28-36 | after `add_childrens(urls)`, `get_children(u)` is a child of the right class with URL `u` for every `u` in `urls`; any other URL gives what was there before, `None` if nothing |
| Entities.Item.Parent | src/bcp/bandcamp/items.py:43-45 | the getter gives `_parent_obj`, and fails only when that is unset; a band has no parent property and reads a plain `parent` attribute |
| Entities.Item.SetParent | src/bcp/bandcamp/items.py:47-51 | with no `parent_type` the setter fails; a parent of another `of_type` raises ValueError and leaves the parent unchanged; otherwise the getter then returns that item |
| Entities.Item.UpdateTrackFromSoup | src/bcp/bandcamp/main.py:44-64 | a track's `update_from_soup` makes the attribute changes and gives the result that `TrackFromSoup` states |
| Entities.Item.UpdateAlbumFromSoup | src/bcp/bandcamp/main.py:89-97 | an album's: the fields of `AlbumFields`, then one new track child per track URL; the result is True unless reading a field or adding the children fails |
| Entities.Item.UpdateBandFromSoup | src/bcp/bandcamp/main.py:160-170 | a band's: the fields of `BandFields`, then one new album child per album URL |
| Entities.Item.UpdateFromSoup | src/bcp/bandcamp/main.py:44-170 | `update_from_soup` as each of the three classes defines it |
| Entities.Item.UpdateTrackFromDict | src/bcp/bandcamp/main.py:66-67 | a track takes the stored dict as its attributes exactly when `setattr` takes every key; otherwise it raises a refused key's error after some keys are stored; a stored `parent` among otherwise accepted keys raises the setter's AttributeError on `of_type` |
| Entities.Item.UpdateAlbumFromDict | src/bcp/bandcamp/main.py:99-101 | an album takes the stored dict, then adds a track child for every stored track URL; a key `setattr` refuses (`parent`, `tracks`, a dunder) raises before any child is added; then a missing `tracks_urls` is a KeyError, a stored `add_tracks` that cannot be called a TypeError, a `tracks_urls` that cannot be iterated its error, and a stored `add_children` that cannot be called a TypeError once the first child is built; it succeeds exactly on an empty list or a usable `children_class`, `add_children` and children map |
| Entities.Item.UpdateBandFromDict | src/bcp/bandcamp/main.py:172-175 | a band takes the stored dict, then adds an album child for every stored album URL; a stored `download_url` key raises AttributeError, since that property has no setter, and a dunder key its `SetAttrError`; then the errors and the success condition are the album's, with `albums_urls` and `add_albums` |
| Entities.Item.UpdateFromDict | src/bcp/bandcamp/main.py:66-175 | `update_from_dict` as each of the three classes defines it: it fails with a refused key's error exactly when `setattr` refuses a stored key, and otherwise as the class's own method states |
| Entities.Item.Serialize | src/bcp/bandcamp/main.py:69-72 | `to_dict` as each class overrides it, as `Serialized` states |
| Client.DownloadOf | src/bcp/bandcamp/main.py:331-361 | the download never consumes more answers than there are |
| Client.ServerErrorsAreFree | src/bcp/bandcamp/main.py:347-355 | any run of HTTP errors other than 410 and 4xx (the 5xx answers) in front of the script leaves the outcome as it was and only adds to the answers taken: they use up no attempt, so nothing bounds the number of requests on that path |
| Client.ThreeTransportErrors | src/bcp/bandcamp/main.py:356-361 | three transport errors from the first attempt end the loop with no content, after exactly three answers |
| Client.BoundedWithoutServerErrors | src/bcp/bandcamp/main.py:334-358 | with no 5xx answers, the loop takes at most the 3 attempts' worth of answers, and with that many answers it always reaches an outcome |
| Client.ContentIsAnswered | src/bcp/bandcamp/main.py:338-346 | content comes back only as the body of a scripted answer whose final URL is the URL requested: a redirect never yields content |
| Client.Session.Get | src/bcp/bandcamp/main.py:338 | each request takes the next scripted answer and records the URL; an exhausted script answers nothing and records nothing |
| Client.Session.Invalidate | src/bcp/bandcamp/main.py:317 | invalidating records the URL and changes nothing else |
| Client.DownloadContent | src/bcp/bandcamp/main.py:331-361 | the retry loop gives the outcome `DownloadOf` states: content, none, or link expired; it consumes that many answers and requests the URL that many times |
| Client.SoupOf | src/bcp/bandcamp/main.py:326-329 | a page is parsed exactly when content came back, and an expired link raises LinkExpiredException |
| Client.GetSoup | src/bcp/bandcamp/main.py:326-329 | `get_soup` downloads as above and parses the content |
| Client.AttrOf | src/bcp/bandcamp/main.py:303-304 | reading an attribute of something that is not an item fails |
| Client.ToFullUrl | src/bcp/bandcamp/main.py:381-385 | `to_full_url` gives the band's URL with its path replaced, and fails exactly when the band has no string URL |
| Client.TrackPathShape | src/bcp/bandcamp/main.py:310 | the track path is `tracks/<band>/<album>/<title>.mp3` |
| Client.AlbumDirShape | src/bcp/bandcamp/main.py:305 | the album directory is `<data dir>/tracks/<band>/<album>` |
| Client.TrackPathInAlbumDir | src/bcp/bandcamp/main.py:305-310 | the track path made absolute is the album directory joined with `<title>.mp3`, so the file lies in the directory `build_track_path_name` creates |
| Client.KindNamed | src/bcp/bandcamp/main.py:270-279 | `of_type` "band", "album" and "song" name the three classes, and nothing else names one |
| Client.LoadItem | src/bcp/bandcamp/main.py:264-281 | a dict without `of_type` is a KeyError, an unknown one a ValueError; a loaded item is new, of the class named, was built from a dict whose every key `setattr` takes, and has every stored key other than `children` set to its stored value; a dict with a key `setattr` refuses raises; a track without a stored `parent` is exactly its initial attributes updated with the dict, and one with it is the setter's AttributeError |
| Client.ItemsSerializer | src/bcp/bandcamp/main.py:226-232 | an item serialises as `Serialized` states for its class; anything else is a TypeError |
| Client.BandCamp.LoadFresh | src/bcp/bandcamp/main.py:317-321 | the fetch invalidates the URL's cache entry and builds a new item of the class asked for; a track is kept only when its page was downloaded and is playable, and then it has an `mp3_url` |
| Client.BandCamp.GetItem | src/bcp/bandcamp/main.py:313-324 | a stored item that has not expired is returned with no request; otherwise the URL is invalidated, a new item is stored under the URL it ends up with and mirrored to storage, and a failure leaves `items` and storage unchanged |
| Client.BandCamp.BuildTrackPathName | src/bcp/bandcamp/main.py:302-311 | a missing album, band or name is its error with the disk unchanged; otherwise exactly the album directory is added, when absent, nothing else on disk changes, a missing title is its error, and the result is `tracks/<band>/<album>/<title>.mp3` |
| Client.BandCamp.DownloadMp3 | src/bcp/bandcamp/main.py:363-375 | an existing file gives True with no request; a missing or non-string `mp3_url` fails with nothing changed; otherwise `mp3_url` is requested as many times as the download loop takes answers, nothing is invalidated, content is written to the file and gives False, and no content raises StopCurrentTaskExeption and writes nothing |
| Scraper.UrlType | src/bcp/bandcamplib.py:162-170 | the URL type never holds a '/' |
| Scraper.UrlTypeEmpty | src/bcp/bandcamplib.py:169 | the type is "" exactly when the path is made of slashes only, and is otherwise the stripped path up to its first '/' |
| Scraper.UrlTypeOfItemPath | src/bcp/bandcamplib.py:162-170 | a URL with path `/<kind>/<name>` has type `<kind>` |
| Scraper.ValidateUrl | src/bcp/bandcamplib.py:173-182 | fewer than three host labels fail with "No band subdomain"; labels 1 and 2 other than `bandcamp.com` and `bcbits.com` fail with "Not a bandcamp URL"; a scheme other than https fails with "No https"; it succeeds exactly otherwise and returns the input unchanged |
| Scraper.BandHostLabels | src/bcp/bandcamplib.py:175-178 | a host `<band>.bandcamp.com...` has labels `<band>`, `bandcamp` and `com` first |
| Scraper.ValidateBandUrl | src/bcp/bandcamplib.py:173-182 | every https URL on a band's bandcamp host passes unchanged |
| Scraper.BandUrlParts | src/bcp/bandcamplib.py:173-175 | an https URL on `<band>.bandcamp.com` parses with scheme https and that host |
| Scraper.BandHostAccepted | src/bcp/bandcamplib.py:175-178 | labels 1 and 2 of a band's bandcamp host are `bandcamp` and `com`, and there are at least three |
| Scraper.JoinAllButLast | src/bcp/bandcamplib.py:42 | joining all '/'-segments but the last gives the URL up to its last '/' |
| Scraper.MusicUrlShape | src/bcp/bandcamplib.py:39-42 | the band URL is rewritten to everything before its last '/' followed by "/music", so it always ends in "/music" |
| Scraper.Web.FetchPage | src/bcp/bandcamplib.py:132-135 | a page fetch gives the page for the URL and records the request |
| Scraper.Web.FetchContent | src/bcp/bandcamplib.py:153-154 | a content fetch gives the bytes for the URL, or none, and records the request |
| Scraper.ItemHref | src/bcp/bandcamplib.py:105 | an `li`'s href is read exactly when it has an anchor with an href |
| Scraper.ItemHrefs | src/bcp/bandcamplib.py:105 | the hrefs of the `li`s, one per item in order; this fails exactly when one lacks it |
| Scraper.PageUrls | src/bcp/bandcamplib.py:102 | the `page_url`s of the JSON items, one per item in order; this fails exactly when one lacks it |
| Scraper.AlbumHrefsKeep | src/bcp/bandcamplib.py:106-113 | the filter keeps exactly the hrefs that start with "/album/", and fails on a non-string |
| Scraper.AlbumHrefsAppend | src/bcp/bandcamplib.py:107-111 | the filter keeps order |
| Scraper.AlbumsUrlsFromHtml | src/bcp/bandcamplib.py:94-113 | the result is `AlbumPaths` of the page: no `ol#music-grid` gives []; otherwise the JSON `page_url`s are preferred over the `li` hrefs, then filtered to album paths |
| Scraper.WithPaths | src/bcp/bandcamplib.py:88-90 | one album URL per path |
| Scraper.WithPathsKeepSite | src/bcp/bandcamplib.py:87-91 | every album URL keeps the scheme and host of the music URL and reads back with its exact path |
| Scraper.PutPaths | src/bcp/bandcamplib.py:88-90 | the append loop gives exactly `WithPaths` |
| Scraper.Appended | src/bcp/bandcamplib.py:88-90 | the append loop puts one result per input, in order |
| Scraper.AlbumsUrlsFromUrl | src/bcp/bandcamplib.py:82-91 | the music page is fetched once, and the result is its album paths put on the music URL, in order; parse errors propagate |
| Scraper.GetBand | src/bcp/bandcamplib.py:39-46 | the page fetched is the `/music` rewrite of the URL, and `albums` and `albums_urls` are the same list |
| Scraper.TrackOfEntry | src/bcp/bandcamplib.py:122-127 | an entry becomes `{url: file["mp3-128"], title, duration}` only when its `id` and `file` are truthy; a falsy one is dropped |
| Scraper.EntriesTracks | src/bcp/bandcamplib.py:121-128 | no more tracks than entries |
| Scraper.EntriesTracksAppend | src/bcp/bandcamplib.py:121-128 | the tracks of two runs of entries are the first's then the second's, and the first error wins |
| Scraper.EntriesTracksOne | src/bcp/bandcamplib.py:122-128 | one entry adds its track, nothing, or its error |
| Scraper.ScriptsTracksKeys | src/bcp/bandcamplib.py:123-127 | every track read has exactly the keys url, title and duration |
| Scraper.AppendEntries | src/bcp/bandcamplib.py:121-128 | the inner append loop adds exactly the tracks of the entries |
| Scraper.TracksFromHtml | src/bcp/bandcamplib.py:116-129 | `_get_tracks_from_html` gives the tracks of every `data-tralbum` script, in order |
| Scraper.CollectTracks | src/bcp/bandcamplib.py:119-128 | the outer loop over scripts gives exactly the tracks of all of them |
| Scraper.ScriptsTracksPrefixErr | src/bcp/bandcamplib.py:119-121 | the first script that fails ends the loop with its error |
| Scraper.AlbumPlaceOfItemUrl | src/bcp/bandcamplib.py:55-58 | the artist is the first host label and the album is segment 2 of the path |
| Scraper.ParseHttpsUrl | src/bcp/bandcamplib.py:55 | an https URL with a plain path parses into exactly its host and path |
| Scraper.TagTrack | src/bcp/bandcamplib.py:62-69 | tagging sets artist, album and album_path; every other field is kept |
| Scraper.TagTracks | src/bcp/bandcamplib.py:54-70 | one tagged track per track |
| Scraper.PlaceAlbum | src/bcp/bandcamplib.py:59-61 | the album directory is added when nothing but a directory is at its path; something other than a directory there raises FileExistsError and changes nothing; an earlier error passes through |
| Scraper.TagAlbumTracks | src/bcp/bandcamplib.py:54-71 | the tagging loop gives exactly `AlbumOutcome`: every track tagged, and the album directory in place |
| Scraper.GetAlbum | src/bcp/bandcamplib.py:49-72 | the album page is fetched once; its tracks are read and tagged as above; a read error propagates and touches no disk |
| Scraper.AlbumOutcomeTags | src/bcp/bandcamplib.py:54-70 | on success, every track carries the artist and album read from the URL and the album path, keeps all other fields, and the album directory exists |
| Scraper.StrField | src/bcp/bandcamplib.py:149 | a track field is read exactly when it is a string |
| Scraper.Mp3PathInAlbumPath | src/bcp/bandcamplib.py:138-141 | the mp3 path is `album_path/slug(title).mp3` |
| Scraper.TaggedMp3Path | src/bcp/bandcamplib.py:138-141 | for a tagged track, the mp3 path joins the album path and the slugged title |
| Scraper.Mp3File | src/bcp/bandcamplib.py:148-159 | an existing path gives True with no fetch; otherwise no content raises NoMP3ContentError and writes nothing, and content is written to the path and gives False |
| Scraper.GetMp3 | src/bcp/bandcamplib.py:75-79 | `get_mp3` sets `path` and `cached` as `_get_mp3_file` decides |
| LegacyScraper.AllHrefs | bcp/bandcamplib.py:63-68 | every `li` href, unfiltered and in order; a page without the grid fails |
| LegacyScraper.AlbumsUrlsFromUrl | bcp/bandcamplib.py:51-60 | the music page is fetched once, and its hrefs are put on its URL |
| LegacyScraper.TrackOfEntry | bcp/bandcamplib.py:76-80 | an entry with a truthy `id` becomes `{url: file["mp3-128"], title}`; a falsy `id` drops it |
| LegacyScraper.NullFileEntry | bcp/bandcamplib.py:77-79 | an entry with a null `file` is dropped by the newer revision but is a TypeError in this one |
| LegacyScraper.TracksFromHtml | bcp/bandcamplib.py:71-81 | `_get_tracks_from_html` gives the tracks of every script, in order |
| LegacyScraper.SaveMp3Writes | bcp/bandcamplib.py:88-97 | the song path is `album_path/slug(title).mp3`; the album directory exists afterwards; an existing file is not overwritten; otherwise the content is written |
| LegacyScraper.SaveMp3Path | bcp/bandcamplib.py:89-93 | the song path is `tracks/<artist>/<album>/<slug(title)>.mp3` |
| LegacyScraper.TrackCall | bcp/bandcamplib.py:34-39 | the recursive call for a track carries its URL with the artist and album of the album URL and its title |
| LegacyScraper.RootIsMusic | bcp/bandcamplib.py:22-29 | an empty URL type is read as "music", on the URL with "music" appended |
| LegacyScraper.RootWithoutSlash | bcp/bandcamplib.py:22-25 | for `https://<host>` the appended "music" lands in the host: the music page requested is on host `<host>music` |
| LegacyScraper.RootMusicHost | bcp/bandcamplib.py:25 | `https://<host>` with "music" appended parses with host `<host>music` |
| LegacyScraper.RootWithSlash | bcp/bandcamplib.py:22-26 | for `https://<host>/` the URL becomes `https://<host>/music` on the same host |
| LegacyScraper.SlashRootIsEmpty | bcp/bandcamplib.py:100-109 | the path "/" has the empty type |
| LegacyScraper.MusicPageType | bcp/bandcamplib.py:100-109 | `https://<host>/music` has type "music" |
| LegacyScraper.RunAllAppend | bcp/bandcamplib.py:28-29 | a loop of `yield from`s over two runs of items yields the first's paths then the second's, unless the first stops it |
| LegacyScraper.RunAlbumsAppend | bcp/bandcamplib.py:28-29 | the same for the loop over album URLs |
| LegacyScraper.RunAllEach | bcp/bandcamplib.py:33-40 | when each step yields one path and fetches one URL, the loop yields those paths and fetches those URLs, in order |
| LegacyScraper.TypedDispatch | bcp/bandcamplib.py:22-46 | a non-empty URL type selects its branch on the URL as given |
| LegacyScraper.TrackIsTrackBranch | bcp/bandcamplib.py:41-45 | a track URL takes the track branch |
| LegacyScraper.TrackDispatched | bcp/bandcamplib.py:41-45 | the `track` kind runs the track branch |
| LegacyScraper.StreamDispatched | bcp/bandcamplib.py:46-48 | the `stream` kind runs the saving branch with the info passed down |
| LegacyScraper.TrackBranchIsError | bcp/bandcamplib.py:41-45 | the track branch fetches its page, yields nothing, touches no disk, and once the tracks are read stops with NameError on `tracks_urls` |
| LegacyScraper.StreamIsSaved | bcp/bandcamplib.py:46-48 | a stream URL takes the saving branch |
| LegacyScraper.StreamAlwaysFetches | bcp/bandcamplib.py:46-48 | a stream URL is always fetched once, even when its file exists already; then, with the album directory usable, no file changes |
| LegacyScraper.StreamTracksSaved | bcp/bandcamplib.py:30-40 | with stream URLs for tracks, the album loop yields one song path per track and fetches each track's URL, in order, and never stops early |
| LegacyScraper.StreamTrackStep | bcp/bandcamplib.py:33-40 | one pass of the album loop yields the track's song path and keeps the album directory usable for the next |
| LegacyScraper.StreamOneTrack | bcp/bandcamplib.py:46-48 | a stream URL with its info yields its song path, fetches it once, and creates the album directory |
| Media.Sound.SetVolume | bcp/player.py:117 | a volume write sets the volume and is recorded |
| Media.Sound.Play | bcp/player.py:65 | resuming sets the handle playing and keeps its volume |
| Media.Sound.Pause | bcp/player.py:73 | pausing sets the handle paused and keeps its volume |
| Media.Sound.Stop | bcp/player.py:81 | stopping sets the handle stopped and keeps its volume |
| Media.FirstToPlay | bcp/player.py:47-53 | the entry played is the first that is not skipped: every entry before it is downloaded and skipping is on, and it is not skipped |
| Media.NoSkipPlaysFirst | bcp/player.py:50 | without skipping, `play` starts the next entry whatever it is |
| Media.SkipDownloadedPrefix | bcp/player.py:50-53 | downloaded entries in front only shift the entry played |
| Media.LastConsumed | bcp/player.py:47 | the track shown is the last entry taken from the iterator, kept when none is taken |
| Playback.Capped | bcp/player.py:91-94 | a fade-in write is at most 1 and at most `user_volume`, and a level under both is written as is |
| Playback.FadeInWrites | bcp/player.py:89-96 | a fade-in makes exactly `count` writes |
| Playback.FadeInWritesAt | bcp/player.py:89-96 | the k-th fade-in write is the k-th level, capped |
| Playback.FadeInClosedForm | bcp/player.py:89-96 | the k-th fade-in write is min(start + k·0.01, 1, `user_volume`) |
| Playback.FadeInRising | bcp/player.py:86-97 | every fade-in write is at most 1 and at most `user_volume`, and the writes never fall |
| Playback.FadeInUserCapInert | bcp/player.py:93-94 | a `user_volume` of 1 or more, like the initial 100, caps nothing |
| Playback.FadeInFromSilence | bcp/player.py:56-57 | a fade-in from silence ends at min(1, `user_volume`) |
| Playback.Floored | bcp/player.py:132-133 | a fade-out write is never below 0, and a level of 0 or more is written as is |
| Playback.FadeOutWrites | bcp/player.py:130-135 | a fade-out makes exactly `count` writes |
| Playback.FadeOutWritesAt | bcp/player.py:130-135 | the k-th fade-out write is the k-th level, floored |
| Playback.FadeOutClosedForm | bcp/player.py:130-135 | the k-th fade-out write is max(start − k·0.01, 0) |
| Playback.FadeOutFalling | bcp/player.py:127-136 | every fade-out write is at least 0, and the writes never rise |
| Playback.FadeOutToSilence | bcp/player.py:127-136 | from any volume up to 1, a fade-out ends at 0 |
| Playback.Raised | bcp/player.py:102-104 | `volume_up` never sets a volume above 1, and adds the step exactly when that stays at or under 1 |
| Playback.Lowered | bcp/player.py:110-112 | `volume_down` never sets a volume below 0, and subtracts the step exactly when that stays at or over 0 |
| Playback.Player.Setup | bcp/player.py:33-39 | `setup` resets track, playing, handle and `do_stop`, sets `user_volume` to 100 and starts a new iterator |
| Playback.Player.Play | bcp/player.py:42-67 | after `stop` nothing changes; with a handle it resumes with a fade-in from its volume and sets `playing`; otherwise it plays the first entry left that is not skipped on a new handle, faded in from silence, and an exhausted iterator plays nothing and leaves `playing` |
| Playback.Player.PlayedAfterSkip | bcp/player.py:50-53 | skipping one downloaded entry and playing from the rest is playing from all of them |
| Playback.Player.Pause | bcp/player.py:70-74 | only while playing: fades out, pauses the handle and clears `playing`; with no handle it raises AttributeError |
| Playback.Player.Next | bcp/player.py:77-83 | no handle: nothing changes; otherwise the handle is faded out and stopped, and unless stop was requested meanwhile `play` picks the next entry |
| Playback.Player.FadeIn | bcp/player.py:86-97 | 100 writes starting one step above the current volume, rising, capped at 1 and at `user_volume`; the handle ends at the last write |
| Playback.Player.FadeOut | bcp/player.py:127-136 | 100 writes starting one step below the current volume, falling, floored at 0; the handle ends at the last write |
| Playback.Player.VolumeUp | bcp/player.py:100-105 | with a handle, the volume is raised and capped at 1 and recorded as `user_volume`; without one, nothing changes |
| Playback.Player.VolumeDown | bcp/player.py:108-113 | with a handle, the volume is lowered and floored at 0 and recorded as `user_volume`; without one, nothing changes |
| Playback.Player.VolumeSet | bcp/player.py:115-119 | with a handle, the volume is written and recorded as `user_volume` when asked; without one, nothing changes |
| Playback.Player.Stop | bcp/player.py:121-125 | `do_stop` is set; a handle is faded out and stopped |
| Playback.Player.GetVolume | bcp/player.py:138-141 | the handle's volume, or 0.5 without a handle |
| Playback.Player.GetTime | bcp/player.py:143-147 | the handle's time, or 0 without a handle |
| Playback.Player.GetDuration | bcp/player.py:149-153 | the track's duration, or 0 without a track |
| Playback.Player.GetArtist | bcp/player.py:155-158 | the track's artist, or "" without a track |
| Playback.Player.GetAlbum | bcp/player.py:160-163 | the track's album, or "" without a track |
| Playback.Player.GetTitle | bcp/player.py:165-168 | the track's title, or "" without a track |
| Playback.StopThenPlay | bcp/player.py:43-44 | after `stop`, two `play` calls change neither the handle, the iterator, the track nor `playing` |
| MainPlayback.FadeInVolumes | bcp/main.py:79-80 | a fade-in is exactly 100 writes |
| MainPlayback.FadeOutVolumes | bcp/main.py:84-85 | a fade-out is exactly 100 writes |
| MainPlayback.FadeInNeverFull | bcp/main.py:77-81 | the writes rise strictly from 0 to 0.99 and never reach 1 |
| MainPlayback.FadeOutNeverSilent | bcp/main.py:83-86 | the writes fall strictly from 1 to 0.01 and never reach 0 |
| MainPlayback.Player.Setup | bcp/main.py:33-36 | `setup` resets the track and `playing` and starts a new iterator, but keeps the handle |
| MainPlayback.Player.Play | bcp/main.py:39-59 | with a handle it resumes with the fixed fade-in and sets `playing`; otherwise it plays the first entry left that is not skipped on a new handle with the fixed fade-in, and an exhausted iterator raises StopIteration |
| MainPlayback.Player.PlayedAfterSkip | bcp/main.py:42-45 | skipping one downloaded entry and playing from the rest is playing from all of them |
| MainPlayback.Player.Pause | bcp/main.py:62-66 | only while playing: fades out, pauses the handle and clears `playing`; with no handle, AttributeError |
| MainPlayback.Player.Next | bcp/main.py:69-75 | no handle: nothing changes; otherwise the handle is faded out and stopped, and `play` picks the next entry, with StopIteration when none is left |
| MainPlayback.Player.FadeIn | bcp/main.py:78-81 | the fixed 100 rising writes; without a handle, AttributeError |
| MainPlayback.Player.FadeOut | bcp/main.py:83-86 | the fixed 100 falling writes; without a handle, AttributeError |
| MainPlayback.Player.GetTime | bcp/main.py:88-92 | the handle's time, or 0 without a handle |
| MainPlayback.Player.GetDuration | bcp/main.py:94-98 | the track's duration, or 0 without a track |
| MainPlayback.Player.GetArtist | bcp/main.py:100-103 | the track's artist, or "" without a track |
| MainPlayback.Player.GetAlbum | bcp/main.py:105-108 | the track's album, or "" without a track |
| MainPlayback.Player.GetTitle | bcp/main.py:110-113 | the track's title, or "" without a track |

## Left out

- Entities.AlbumsUrls: its own contract only bounds the length; `AlbumsUrlsMembers` and `AlbumsUrlsAppend` state the contents and the order.
- Client.DownloadOf: its own contract only bounds the answers taken; `ServerErrorsAreFree`, `ThreeTransportErrors`, `BoundedWithoutServerErrors` and `ContentIsAnswered` state the retry behaviour.
- Scraper.EntriesTracks: its own contract only bounds the length; `EntriesTracksOne`, `EntriesTracksAppend` and `ScriptsTracksKeys` state the contents.
- Scraper.WithPaths: its own contract only fixes the length; `WithPathsKeepSite` states what each URL is.
- Scraper.TagTracks: its own contract only fixes the length; `TagAlbumTracks` and `AlbumOutcomeTags` state every tagged field.
- Playback.FadeInWrites: its own contract only fixes the number of writes; `FadeInWritesAt`, `FadeInClosedForm` and `FadeInRising` state the volumes.
- Playback.FadeOutWrites: its own contract only fixes the number of writes; `FadeOutWritesAt`, `FadeOutClosedForm` and `FadeOutFalling` state the volumes.
- MainPlayback.FadeInVolumes: its own contract only fixes the number of writes; `FadeInNeverFull` states the volumes.
- MainPlayback.FadeOutVolumes: its own contract only fixes the number of writes; `FadeOutNeverSilent` states the volumes.
- Networking is replaced by data. In the client the answers are a scripted sequence (`Client.Session`); in the scrapers they are functions from URL to parsed page or bytes. HTML parsing (BeautifulSoup) and JSON decoding come before the model: pages are records of what the code reads from them.
- `utils.Session` does not match its use. `main.py` imports `HTTPSession`, `Storage` and `StopCurrentTaskExeption` from `utils`, which does not define them. The cache calls (`invalidate`, `disable`, `cache_disabled`) are modelled only as far as the code depends on them: an invalidation is recorded, and a disabled cache makes a real request.
- `BandCamp.__init__` loads items from `Storage` and wires bands, albums and tracks in nested loops. `Storage` is not part of this model, so the client starts with no items. `get_bands`, `get_albums`, `get_band`, `get_album`, `get_track` and `get_mp3_path` are one-line forwards to modelled operations.
- `expired` and the base `download_url` are used on items but defined by no shown class. They are parameters of `GetItem` and `LoadFresh`.
- `items.py` defines `ItemBase.__init__(self, url)`, but the subclasses call `super().__init__()` with no argument and set `url` themselves. Likewise, their `super().update_from_soup(soup)` names a method no base class defines. The model follows what the subclasses evidently intend: the constructor stores the URL, and the base `update_from_soup` step does nothing.
- Aliasing between items: a child item is a separate `Entities.Item` referred to from the children map. The model does not follow what changing one item does to another through shared references.
- Directories are a set of paths. `makedirs` adds the named directory but not its missing parents, and file permissions and OS errors are not modelled. `slugify` is a parameter.
- Time and randomness are parameters: `datetime.now()`, `random.randint` and `time.sleep`. The throttle's sleep is not performed; the method returns how long it would sleep. Times and volumes are exact reals, not IEEE floats, so `0.99` and `0.01` are exact.
- Threads: the `@threaded` wrappers and the concurrency they cause are left out. Player methods are sequential calls that run to completion, and a fade is its sequence of writes.
- The players' mp3 iterator is the sequence of `(track, downloaded)` entries it would yield. The shown `bandcamplib` yields bare paths, which the players could not unpack into a pair. The iterator is built in `setup` from the URL and is an input here.
- `arcade` is reduced to the sound handle: `load_sound`, the handle's play, pause and stop, and its volume. Neither `push_handlers`/`pop_handlers` nor the end-of-stream callback is modelled.
- `to_fade_out` in `bcp/main.py` is computed and never used, so it is not modelled.
- Calling a player operation before `setup` is not modelled: the constructors include the `setup` call the view makes right after construction.
- `LegacyScraper.Mp3s`: the recursion of `get_mp3s_from_url` runs on a fuel bound. Hrefs may lead back to pages already visited, so the generator has no termination argument of its own. When the fuel runs out, the model stops with `OutOfFuel`, an outcome the Python code does not have.
- The generator is modelled run to its end: the paths yielded, the exception that stopped it, the URLs fetched, and the disk afterwards. A consumer that stops early sees a prefix of this.
- `Urls.Parse`: `urlparse` raises ValueError on an invalid IPv6 host, and this is not modelled. Nor are the scheme-specific rules for `params`, other than the `;` split the shown URLs do not use.
- Strings.IsAlpha: `str.isalpha` is Python's Unicode letter test; the model knows only the ASCII letters, because the Unicode letter tables are not part of this model.
- ValidateUrlBareName: covers bare names made of ASCII letters only; a name such as "café", which Python also takes as bare, is parsed as a URL here (see `Strings.IsAlpha`).
- ValidateUrlAccepts: its "exactly when" is about names that are not bare in the ASCII sense; a non-ASCII alphabetic name takes Python's bare-name branch instead (see `Strings.IsAlpha`).
- Strings.ParseInt: Python's `int()` also reads the decimal digits of other scripts; the model reads the ASCII digits only, with `_` separators.
- AlbumDuration: a time span written with non-ASCII decimal digits, which Python's `int()` reads, is an error here (see `Strings.ParseInt`).
- Entities.Lookup: getting `tracks` on an album or `download_url` on a band runs a computing property; `Lookup` reads those names as plain attributes, and the model reaches them only through `ToDict`, `Serialize` and `DownloadUrl`.
- Entities.Item.Update: when `setattr` refuses a stored key, `update` raises after storing the keys that come before it in the dict's order; a decoded object keeps no order here, so the model says only that some of the accepted keys were stored. A stored `__dict__` holding a JSON object replaces the whole instance dict in Python; the model stores it as a plain attribute.
- ChildrenIn: a stored `children` holding a JSON object is a dict in Python, so `add_children` and `get_children` work on it; here only a children map built by the item counts, and any other stored `children` is a TypeError. `to_dict` writes `children` only as a dict of items, which JSON cannot hold, so no stored dict the program writes carries one.
- ChildrenMap: inherits the `ChildrenIn` gap for a stored JSON-object `children`.
- GetChildren: `.get` on a stored JSON-object `children` works in Python and is a TypeError here (see `ChildrenIn`); and `.get` with a list or dict URL, which Python refuses as unhashable, is looked up like any other key here.
- AddChildren: Python refuses a list or dict URL as an unhashable key with TypeError; the model stores it. URLs read from pages are strings, and `to_dict` writes URL lists of strings. A stored JSON-object `children` is refused (see `ChildrenIn`).
- AddNewChild: the same two gaps as `AddChildren`, for the child built from the URL.
- AddNew: the same two gaps over the loop: a list or dict among the URLs is stored rather than raising TypeError, and a stored JSON-object `children` is refused.
- AddChildrens: the same two gaps as `AddNew`.
- UpdateTrackFromDict: a stored `__dict__` holding a JSON object replaces the whole instance dict in Python; the model stores it as a plain attribute.
- UpdateFromDict: inherits the gaps of `UpdateTrackFromDict`, `UpdateAlbumFromDict` and `UpdateBandFromDict`.
- UpdateAlbumFromDict: inherits the `__dict__` gap of `UpdateTrackFromDict` and the `AddNew` gaps for the track URLs.
- UpdateBandFromDict: inherits the `__dict__` gap of `UpdateTrackFromDict` and the `AddNew` gaps for the album URLs.
- LoadItem: inherits the gaps of `UpdateFromDict`. Stored content is assumed to be what `to_dict` writes wherever those gaps apply.
- Entities.Iterate: Python iterates an item's children map by its URLs; no modelled path iterates one, and the model fails it with TypeError.
- Json.Elements: iterating a dict visits its keys in insertion order; a decoded object keeps no order here, so the keys come in code-point order (`Entities.Iterate` inherits this).
- The presentation layer is out of scope: views, widgets, the `MyView` and `main` parts of both player files, `src/bcp/player.py`, the log sink and the tests.
