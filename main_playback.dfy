/** The desktop player of `bcp/main.py`, the earlier of the two: no stop
    flag and no user volume; its fades write the volumes 0.00 to 0.99 and
    1.00 down to 0.01, and nothing guards the handle, so an exhausted
    iterator or a missing handle ends a call with an exception. The methods
    run one after the other; the threads and sleeps are not modelled. */
module MainPlayback {
  import opened Wrappers
  import opened Media

  /** The number of writes of a fade. */
  const FadeWrites: nat := 100

  /** `for volume in range(100)`: volume / 100 for volume from 0 up to 99. */
  function FadeInVolumes(): (ws: seq<real>)
    ensures |ws| == FadeWrites
  {
    seq(FadeWrites, i requires 0 <= i < FadeWrites => i as real / 100.0)
  }

  /** `for volume in range(100, 0, -1)`: volume / 100 for volume from 100
      down to 1. */
  function FadeOutVolumes(): (ws: seq<real>)
    ensures |ws| == FadeWrites
  {
    seq(FadeWrites, i requires 0 <= i < FadeWrites => (FadeWrites - i) as real / 100.0)
  }

  /** The fade-in rises strictly from silence and peaks at 0.99: full volume
      is never written. */
  lemma FadeInNeverFull()
    ensures var ws := FadeInVolumes();
      && ws[0] == 0.0 && ws[FadeWrites - 1] == 0.99
      && (forall k :: 0 <= k < FadeWrites - 1 ==> ws[k] < ws[k + 1])
      && (forall k :: 0 <= k < FadeWrites ==> 0.0 <= ws[k] < 1.0)
  {
    var ws := FadeInVolumes();
    assert ws[FadeWrites - 1] == 99.0 / 100.0;
  }

  /** The fade-out falls strictly from full volume and ends at 0.01:
      silence is never written. */
  lemma FadeOutNeverSilent()
    ensures var ws := FadeOutVolumes();
      && ws[0] == 1.0 && ws[FadeWrites - 1] == 0.01
      && (forall k :: 0 <= k < FadeWrites - 1 ==> ws[k] > ws[k + 1])
      && (forall k :: 0 <= k < FadeWrites ==> 0.0 < ws[k] <= 1.0)
  {
    var ws := FadeOutVolumes();
    assert ws[0] == 100.0 / 100.0;
    assert ws[FadeWrites - 1] == 1.0 / 100.0;
  }

  class Player {
    const skipDownloaded: bool
    var track: Option<Track>
    var playing: bool
    /** What the mp3 iterator has still to yield. */
    var pending: seq<Entry>
    var mediaPlayer: Sound?

    /** `Player(handler, skip_downloaded)` followed by `setup(url)`, where
        `entries` is what the iterator for `url` yields. */
    constructor (skipDownloaded: bool, entries: seq<Entry>)
      ensures this.skipDownloaded == skipDownloaded
      ensures track == None && !playing && pending == entries && mediaPlayer == null
    {
      this.skipDownloaded := skipDownloaded;
      track := None;
      playing := false;
      pending := entries;
      mediaPlayer := null;
    }

    /** `setup(url)`: a new iterator; the handle, if any, is kept, so the next
        `play` resumes it rather than starting the new entries. */
    method Setup(entries: seq<Entry>)
      modifies this
      ensures track == None && !playing && pending == entries && mediaPlayer == old(mediaPlayer)
    {
      track := None;
      playing := false;
      pending := entries;
    }

    /** The state `play` leaves after starting from no handle, with the
        entries `p`, the track `t0` and the flag `playing0` it found: the
        entries up to the first to play are consumed and the track shown is
        the last consumed; that entry plays on a new handle, faded in; when
        there is none, the iterator's StopIteration ends the call. */
    predicate PlayedFrom(p: seq<Entry>, t0: Option<Track>, playing0: bool, err: Option<Exc>)
      reads this, mediaPlayer
    {
      var i := FirstToPlay(p, skipDownloaded);
      && pending == (if i < |p| then p[i + 1..] else [])
      && track == LastConsumed(p, i, t0)
      && (i < |p| ==>
            && err == None && playing
            && mediaPlayer != null && mediaPlayer.source == p[i].track.path && mediaPlayer.state == Playing
            && mediaPlayer.writes == FadeInVolumes())
      && (i == |p| ==> err == Some(StopIteration) && mediaPlayer == null && playing == playing0)
    }

    /** `play()`: resumes the handle when there is one; otherwise takes
        entries from the iterator, past the downloaded ones when skipping,
        and plays the first left on a new handle. */
    method Play() returns (err: Option<Exc>)
      modifies this, mediaPlayer
      decreases |pending|
      ensures old(mediaPlayer) == null ==>
        PlayedFrom(old(pending), old(track), old(playing), err) && (mediaPlayer != null ==> fresh(mediaPlayer))
      ensures old(mediaPlayer) != null ==>
        && err == None && mediaPlayer == old(mediaPlayer) && pending == old(pending) && track == old(track) && playing
        && mediaPlayer.state == Playing
        && mediaPlayer.writes == old(mediaPlayer.writes) + FadeInVolumes()
    {
      if mediaPlayer == null {
        if pending == [] {
          return Some(StopIteration);
        }
        var entry := pending[0];
        ghost var p := pending;
        ghost var t0 := track;
        pending := pending[1..];
        track := Some(entry.track);
        if skipDownloaded && entry.downloaded {
          err := Play();
          PlayedAfterSkip(p, t0, err);
          return;
        }
        var handle := new Sound(entry.track.path);
        mediaPlayer := handle;
        err := FadeIn();
        playing := true;
      } else {
        mediaPlayer.Play();
        err := FadeIn();
        playing := true;
      }
    }

    /** Skipping one downloaded entry and then playing from the rest is
        playing from all of them. */
    lemma PlayedAfterSkip(p: seq<Entry>, t0: Option<Track>, err: Option<Exc>)
      requires p != [] && skipDownloaded && p[0].downloaded
      requires PlayedFrom(p[1..], Some(p[0].track), playing, err)
      ensures PlayedFrom(p, t0, playing, err)
    {
      var j := FirstToPlay(p[1..], skipDownloaded);
      assert FirstToPlay(p, skipDownloaded) == j + 1;
      if j < |p[1..]| {
        assert p[1..][j + 1..] == p[j + 2..];
        assert p[1..][j] == p[j + 1];
      }
    }

    /** `pause()`: while playing, fades out and pauses the handle; while
        playing without a handle, the fade fails on the missing handle. */
    method Pause() returns (err: Option<Exc>)
      modifies this, mediaPlayer
      ensures mediaPlayer == old(mediaPlayer) && track == old(track) && pending == old(pending)
      ensures !old(playing) ==> err == None && !playing && (mediaPlayer != null ==> unchanged(mediaPlayer))
      ensures old(playing) && mediaPlayer == null ==> err == Some(AttributeError("volume")) && playing
      ensures old(playing) && mediaPlayer != null ==>
        && err == None && !playing && mediaPlayer.state == Paused
        && mediaPlayer.writes == old(mediaPlayer.writes) + FadeOutVolumes()
    {
      if playing {
        err := FadeOut();
        if err.Some? {
          return;
        }
        mediaPlayer.Pause();
        playing := false;
      }
      return None;
    }

    /** `next()`: without a handle nothing; otherwise fades the handle out,
        stops it, drops it and plays from the iterator. */
    method Next() returns (err: Option<Exc>)
      modifies this, mediaPlayer
      ensures old(mediaPlayer) == null ==> err == None && unchanged(this)
      ensures old(mediaPlayer) != null ==>
        && old(mediaPlayer).state == Stopped
        && old(mediaPlayer).writes == old(mediaPlayer.writes) + FadeOutVolumes()
        && PlayedFrom(old(pending), old(track), old(playing), err) && (mediaPlayer != null ==> fresh(mediaPlayer))
    {
      if mediaPlayer == null {
        return None;
      }
      var _ := FadeOut();
      var handle := mediaPlayer;
      handle.Stop();
      mediaPlayer := null;
      err := Play();
    }

    /** `fade_in()`: writes 0.00, 0.01, ..., 0.99 to the handle; there must
        be one. */
    method FadeIn() returns (err: Option<Exc>)
      modifies mediaPlayer
      ensures mediaPlayer == null ==> err == Some(AttributeError("volume"))
      ensures mediaPlayer != null ==>
        && err == None
        && mediaPlayer.writes == old(mediaPlayer.writes) + FadeInVolumes()
        && mediaPlayer.state == old(mediaPlayer.state)
    {
      if mediaPlayer == null {
        return Some(AttributeError("volume"));
      }
      ghost var before := mediaPlayer.writes;
      ghost var ws := FadeInVolumes();
      for volume := 0 to FadeWrites
        invariant |mediaPlayer.writes| == |before| + volume
        invariant mediaPlayer.writes[..|before|] == before
        invariant forall k :: 0 <= k < volume ==> mediaPlayer.writes[|before| + k] == ws[k]
        invariant mediaPlayer.state == old(mediaPlayer.state)
      {
        mediaPlayer.SetVolume(volume as real / 100.0);
      }
      assert mediaPlayer.writes == before + ws;
      return None;
    }

    /** `fade_out()`: writes 1.00, 0.99, ..., 0.01 to the handle; there must
        be one. */
    method FadeOut() returns (err: Option<Exc>)
      modifies mediaPlayer
      ensures mediaPlayer == null ==> err == Some(AttributeError("volume"))
      ensures mediaPlayer != null ==>
        && err == None
        && mediaPlayer.writes == old(mediaPlayer.writes) + FadeOutVolumes()
        && mediaPlayer.state == old(mediaPlayer.state)
    {
      if mediaPlayer == null {
        return Some(AttributeError("volume"));
      }
      ghost var before := mediaPlayer.writes;
      ghost var ws := FadeOutVolumes();
      var volume := FadeWrites;
      while volume > 0
        invariant 0 <= volume <= FadeWrites
        invariant |mediaPlayer.writes| == |before| + (FadeWrites - volume)
        invariant mediaPlayer.writes[..|before|] == before
        invariant forall k :: 0 <= k < FadeWrites - volume ==> mediaPlayer.writes[|before| + k] == ws[k]
        invariant mediaPlayer.state == old(mediaPlayer.state)
      {
        mediaPlayer.SetVolume(volume as real / 100.0);
        volume := volume - 1;
      }
      assert mediaPlayer.writes == before + ws;
      return None;
    }

    /** `get_time()` */
    function GetTime(): (t: real)
      reads this, mediaPlayer
      ensures mediaPlayer == null ==> t == 0.0
      ensures mediaPlayer != null ==> t == mediaPlayer.time
    {
      if mediaPlayer != null then mediaPlayer.time else 0.0
    }

    /** `get_duration()` */
    function GetDuration(): (d: real)
      reads this
      ensures track == None ==> d == 0.0
      ensures track.Some? ==> d == track.value.duration
    {
      if track.Some? then track.value.duration else 0.0
    }

    /** `get_artist()` */
    function GetArtist(): (s: string)
      reads this
      ensures track == None ==> s == ""
      ensures track.Some? ==> s == track.value.artist
    {
      if track.Some? then track.value.artist else ""
    }

    /** `get_album()` */
    function GetAlbum(): (s: string)
      reads this
      ensures track == None ==> s == ""
      ensures track.Some? ==> s == track.value.album
    {
      if track.Some? then track.value.album else ""
    }

    /** `get_title()` */
    function GetTitle(): (s: string)
      reads this
      ensures track == None ==> s == ""
      ensures track.Some? ==> s == track.value.title
    {
      if track.Some? then track.value.title else ""
    }
  }
}
