/** The desktop player of `bcp/player.py`: it plays the entries of an mp3
    iterator one at a time, optionally skipping the downloaded ones, fades
    the volume in and out in 100 steps, and keeps the volume the user chose
    as a cap for the fades. The methods run one after the other; the threads
    the source starts for them and its sleeps are not modelled. */
module Playback {
  import opened Wrappers
  import opened Media

  /** `VOLUME_DELTA`: the default step of `volume_up` and `volume_down`. */
  const VolumeDelta: real := 0.1
  /** The step of each fade write. */
  const FadeStep: real := 0.01
  /** The number of writes of a fade. */
  const FadeWrites: nat := 100
  /** `user_volume` after `setup`. */
  const InitialUserVolume: real := 100.0
  /** What `get_volume` gives without a handle. */
  const NoHandleVolume: real := 0.5

  // ---------------------------------------------------------------------
  // The fades, as the sequences of volumes they write
  // ---------------------------------------------------------------------

  /** One fade-in write: `new_vol` capped at 1 and then at the user volume. */
  function Capped(n: real, userVolume: real): (w: real)
    ensures w <= 1.0 && w <= userVolume
    ensures n <= 1.0 && n <= userVolume ==> w == n
    ensures w == n || w == 1.0 || w == userVolume
  {
    var a := if n > 1.0 then 1.0 else n;
    if a > userVolume then userVolume else a
  }

  /** `new_vol` at the start of step `k` of `fade_in` when it was `start`
      before the first step: the previous write plus one step. */
  function FadeInLevel(start: real, userVolume: real, k: nat): real {
    if k == 0 then start else Capped(FadeInLevel(start, userVolume, k - 1), userVolume) + FadeStep
  }

  /** The first `count` volumes `fade_in` writes. */
  function FadeInWrites(start: real, userVolume: real, count: nat): (ws: seq<real>)
    ensures |ws| == count
  {
    if count == 0 then [] else FadeInWrites(start, userVolume, count - 1) + [Capped(FadeInLevel(start, userVolume, count - 1), userVolume)]
  }

  /** Write `k` of a fade-in is the capped level of step `k`. */
  lemma {:induction false} FadeInWritesAt(start: real, userVolume: real, count: nat)
    ensures forall k :: 0 <= k < count ==>
      FadeInWrites(start, userVolume, count)[k] == Capped(FadeInLevel(start, userVolume, k), userVolume)
  {
    if count > 0 {
      FadeInWritesAt(start, userVolume, count - 1);
    }
  }

  function Min(a: real, b: real): real {
    if a <= b then a else b
  }

  /** Write `k` of a fade-in is `start + k` steps, capped at 1 and at the
      user volume. */
  lemma {:induction false} FadeInClosedForm(start: real, userVolume: real, k: nat)
    ensures Capped(FadeInLevel(start, userVolume, k), userVolume) == Min(Min(start + k as real * FadeStep, 1.0), userVolume)
  {
    if k > 0 {
      FadeInClosedForm(start, userVolume, k - 1);
    }
  }

  /** Every fade-in write is at most 1 and at most the user volume, and the
      writes never go down. */
  lemma FadeInRising(start: real, userVolume: real, count: nat)
    ensures var ws := FadeInWrites(start, userVolume, count);
      && (forall k :: 0 <= k < count ==> ws[k] <= 1.0 && ws[k] <= userVolume)
      && (forall k :: 0 <= k < count - 1 ==> ws[k] <= ws[k + 1])
  {
    var ws := FadeInWrites(start, userVolume, count);
    FadeInWritesAt(start, userVolume, count);
    forall k | 0 <= k < count - 1
      ensures ws[k] <= ws[k + 1]
    {
      FadeInClosedForm(start, userVolume, k);
      FadeInClosedForm(start, userVolume, k + 1);
    }
  }

  /** A user volume of 1 or more, such as the 100 `setup` leaves, caps
      nothing: the fade is the one capped at 1 alone. */
  lemma FadeInUserCapInert(start: real, userVolume: real, count: nat)
    requires userVolume >= 1.0
    ensures FadeInWrites(start, userVolume, count) == FadeInWrites(start, 1.0, count)
  {
    var a := FadeInWrites(start, userVolume, count);
    var b := FadeInWrites(start, 1.0, count);
    FadeInWritesAt(start, userVolume, count);
    FadeInWritesAt(start, 1.0, count);
    forall k | 0 <= k < count
      ensures a[k] == b[k]
    {
      FadeInClosedForm(start, userVolume, k);
      FadeInClosedForm(start, 1.0, k);
    }
  }

  /** Starting a track from volume 0, the fade ends exactly at the smaller of
      1 and the user volume. */
  lemma FadeInFromSilence(userVolume: real)
    ensures FadeInWrites(0.0 + FadeStep, userVolume, FadeWrites)[FadeWrites - 1] == Min(1.0, userVolume)
  {
    FadeInWritesAt(0.0 + FadeStep, userVolume, FadeWrites);
    FadeInClosedForm(0.0 + FadeStep, userVolume, FadeWrites - 1);
  }

  /** One fade-out write: `new_vol` raised to 0 when below it. */
  function Floored(n: real): (w: real)
    ensures w >= 0.0
    ensures n >= 0.0 ==> w == n
    ensures n < 0.0 ==> w == 0.0
  {
    if n < 0.0 then 0.0 else n
  }

  /** `new_vol` at the start of step `k` of `fade_out`. */
  function FadeOutLevel(start: real, k: nat): real {
    if k == 0 then start else Floored(FadeOutLevel(start, k - 1)) - FadeStep
  }

  /** The first `count` volumes `fade_out` writes. */
  function FadeOutWrites(start: real, count: nat): (ws: seq<real>)
    ensures |ws| == count
  {
    if count == 0 then [] else FadeOutWrites(start, count - 1) + [Floored(FadeOutLevel(start, count - 1))]
  }

  /** Write `k` of a fade-out is the floored level of step `k`. */
  lemma {:induction false} FadeOutWritesAt(start: real, count: nat)
    ensures forall k :: 0 <= k < count ==> FadeOutWrites(start, count)[k] == Floored(FadeOutLevel(start, k))
  {
    if count > 0 {
      FadeOutWritesAt(start, count - 1);
    }
  }

  /** Write `k` of a fade-out is `start` less `k` steps, but never below 0. */
  lemma {:induction false} FadeOutClosedForm(start: real, k: nat)
    ensures Floored(FadeOutLevel(start, k)) == Floored(start - k as real * FadeStep)
  {
    if k > 0 {
      FadeOutClosedForm(start, k - 1);
    }
  }

  /** Every fade-out write is at least 0, and the writes never go up. */
  lemma FadeOutFalling(start: real, count: nat)
    ensures var ws := FadeOutWrites(start, count);
      && (forall k :: 0 <= k < count ==> ws[k] >= 0.0)
      && (forall k :: 0 <= k < count - 1 ==> ws[k] >= ws[k + 1])
  {
    var ws := FadeOutWrites(start, count);
    FadeOutWritesAt(start, count);
    forall k | 0 <= k < count - 1
      ensures ws[k] >= ws[k + 1]
    {
      FadeOutClosedForm(start, k);
      FadeOutClosedForm(start, k + 1);
    }
  }

  /** From a volume of at most 1, the fade-out ends in silence. */
  lemma FadeOutToSilence(volume: real)
    requires volume <= 1.0
    ensures FadeOutWrites(volume - FadeStep, FadeWrites)[FadeWrites - 1] == 0.0
  {
    FadeOutWritesAt(volume - FadeStep, FadeWrites);
    FadeOutClosedForm(volume - FadeStep, FadeWrites - 1);
  }

  /** `volume_up`'s new volume: raised by `delta`, but not above 1. */
  function Raised(volume: real, delta: real): (r: real)
    ensures r <= 1.0
    ensures volume + delta <= 1.0 ==> r == volume + delta
    ensures volume + delta > 1.0 ==> r == 1.0
  {
    var v := volume + delta;
    if v > 1.0 then 1.0 else v
  }

  /** `volume_down`'s new volume: lowered by `delta`, but not below 0. */
  function Lowered(volume: real, delta: real): (r: real)
    ensures r >= 0.0
    ensures volume - delta >= 0.0 ==> r == volume - delta
    ensures volume - delta < 0.0 ==> r == 0.0
  {
    var v := volume - delta;
    if v < 0.0 then 0.0 else v
  }

  // ---------------------------------------------------------------------
  // The player
  // ---------------------------------------------------------------------

  class Player {
    const skipDownloaded: bool
    var track: Option<Track>
    var playing: bool
    /** What the mp3 iterator has still to yield. */
    var pending: seq<Entry>
    var mediaPlayer: Sound?
    var doStop: bool
    var userVolume: real

    /** `Player(handler, skip_downloaded)` followed by `setup(url)`, where
        `entries` is what the iterator for `url` yields. */
    constructor (skipDownloaded: bool, entries: seq<Entry>)
      ensures this.skipDownloaded == skipDownloaded
      ensures track == None && !playing && pending == entries && mediaPlayer == null
      ensures !doStop && userVolume == InitialUserVolume
    {
      this.skipDownloaded := skipDownloaded;
      track := None;
      playing := false;
      pending := entries;
      mediaPlayer := null;
      doStop := false;
      userVolume := InitialUserVolume;
    }

    /** `setup(url)`: forgets the handle without stopping it, and starts a new
        iterator. */
    method Setup(entries: seq<Entry>)
      modifies this
      ensures track == None && !playing && pending == entries && mediaPlayer == null
      ensures !doStop && userVolume == InitialUserVolume
    {
      track := None;
      playing := false;
      pending := entries;
      mediaPlayer := null;
      doStop := false;
      userVolume := InitialUserVolume;
    }

    /** The state `play` leaves after starting from no handle, with the
        entries `p`, the track `t0` and the flag `playing0` it found: the
        entries up to the first to play are consumed and the track shown is
        the last consumed; that entry plays on a new handle, faded in from
        silence; when there is none, no handle is made and `playing` is kept. */
    predicate PlayedFrom(p: seq<Entry>, t0: Option<Track>, playing0: bool)
      reads this, mediaPlayer
    {
      var i := FirstToPlay(p, skipDownloaded);
      && pending == (if i < |p| then p[i + 1..] else [])
      && track == LastConsumed(p, i, t0)
      && (i < |p| ==>
            && mediaPlayer != null && mediaPlayer.source == p[i].track.path && mediaPlayer.state == Playing
            && mediaPlayer.writes == [0.0] + FadeInWrites(0.0 + FadeStep, userVolume, FadeWrites)
            && mediaPlayer.volume == mediaPlayer.writes[FadeWrites]
            && playing)
      && (i == |p| ==> mediaPlayer == null && playing == playing0)
    }

    /** `play()`: nothing once stopped; resumes the handle when there is one;
        otherwise takes entries from the iterator, past the downloaded ones
        when skipping, and plays the first left on a new handle. An exhausted
        iterator ends it quietly. */
    method Play()
      modifies this, mediaPlayer
      decreases |pending|
      ensures doStop == old(doStop) && userVolume == old(userVolume)
      ensures old(doStop) ==> unchanged(this) && (old(mediaPlayer) != null ==> unchanged(old(mediaPlayer)))
      ensures !old(doStop) && old(mediaPlayer) == null ==>
        PlayedFrom(old(pending), old(track), old(playing)) && (mediaPlayer != null ==> fresh(mediaPlayer))
      ensures !old(doStop) && old(mediaPlayer) != null ==>
        && mediaPlayer == old(mediaPlayer) && pending == old(pending) && track == old(track) && playing
        && mediaPlayer.state == Playing
        && mediaPlayer.writes == old(mediaPlayer.writes) + FadeInWrites(old(mediaPlayer.volume) + FadeStep, userVolume, FadeWrites)
    {
      if doStop {
        return;
      }
      if mediaPlayer == null {
        if pending == [] {
          return;
        }
        var entry := pending[0];
        ghost var p := pending;
        ghost var t0 := track;
        pending := pending[1..];
        track := Some(entry.track);
        if skipDownloaded && entry.downloaded {
          Play();
          PlayedAfterSkip(p, t0);
          return;
        }
        var handle := new Sound(entry.track.path);
        mediaPlayer := handle;
        handle.SetVolume(0.0);
        FadeIn();
        playing := true;
      } else {
        mediaPlayer.Play();
        FadeIn();
        playing := true;
      }
    }

    /** Skipping one downloaded entry and then playing from the rest is
        playing from all of them. */
    lemma PlayedAfterSkip(p: seq<Entry>, t0: Option<Track>)
      requires p != [] && skipDownloaded && p[0].downloaded
      requires PlayedFrom(p[1..], Some(p[0].track), playing)
      ensures PlayedFrom(p, t0, playing)
    {
      var j := FirstToPlay(p[1..], skipDownloaded);
      assert FirstToPlay(p, skipDownloaded) == j + 1;
      if j < |p[1..]| {
        assert p[1..][j + 1..] == p[j + 2..];
        assert p[1..][j] == p[j + 1];
      }
    }

    /** `pause()`: while playing, fades out and pauses the handle. When
        playing is set but the handle is gone (after `next` found nothing
        more to play), the handle's `pause` fails. */
    method Pause() returns (err: Option<Exc>)
      modifies this, mediaPlayer
      ensures mediaPlayer == old(mediaPlayer) && track == old(track) && pending == old(pending)
      ensures doStop == old(doStop) && userVolume == old(userVolume)
      ensures !old(playing) ==> err == None && !playing && (mediaPlayer != null ==> unchanged(mediaPlayer))
      ensures old(playing) && mediaPlayer == null ==> err == Some(AttributeError("pause")) && playing
      ensures old(playing) && mediaPlayer != null ==>
        && err == None && !playing && mediaPlayer.state == Paused
        && mediaPlayer.writes == old(mediaPlayer.writes) + FadeOutWrites(old(mediaPlayer.volume) - FadeStep, FadeWrites)
    {
      if playing {
        FadeOut();
        if mediaPlayer == null {
          return Some(AttributeError("pause"));
        }
        mediaPlayer.Pause();
        playing := false;
      }
      return None;
    }

    /** `next()`: without a handle nothing; otherwise fades the handle out,
        stops it, drops it and plays from the iterator. */
    method Next()
      modifies this, mediaPlayer
      ensures doStop == old(doStop) && userVolume == old(userVolume)
      ensures old(mediaPlayer) == null ==> unchanged(this)
      ensures old(mediaPlayer) != null ==>
        && old(mediaPlayer).state == Stopped
        && old(mediaPlayer).writes == old(mediaPlayer.writes) + FadeOutWrites(old(mediaPlayer.volume) - FadeStep, FadeWrites)
        && (!doStop ==> PlayedFrom(old(pending), old(track), old(playing)) && (mediaPlayer != null ==> fresh(mediaPlayer)))
        && (doStop ==> mediaPlayer == null && pending == old(pending) && track == old(track) && playing == old(playing))
    {
      if mediaPlayer == null {
        return;
      }
      FadeOut();
      var handle := mediaPlayer;
      handle.Stop();
      mediaPlayer := null;
      Play();
    }

    /** `fade_in()`: with a handle, 100 writes from its volume plus one step
        upwards, each capped at 1 and at the user volume. */
    method FadeIn()
      modifies mediaPlayer
      ensures mediaPlayer != null ==>
        && mediaPlayer.writes == old(mediaPlayer.writes) + FadeInWrites(old(mediaPlayer.volume) + FadeStep, userVolume, FadeWrites)
        && mediaPlayer.volume == mediaPlayer.writes[|mediaPlayer.writes| - 1]
        && mediaPlayer.state == old(mediaPlayer.state)
    {
      if mediaPlayer != null {
        var newVol := mediaPlayer.volume + FadeStep;
        ghost var start := newVol;
        ghost var before := mediaPlayer.writes;
        for i := 0 to FadeWrites
          invariant mediaPlayer.writes == before + FadeInWrites(start, userVolume, i)
          invariant newVol == FadeInLevel(start, userVolume, i)
          invariant i > 0 ==> mediaPlayer.volume == mediaPlayer.writes[|mediaPlayer.writes| - 1]
          invariant mediaPlayer.state == old(mediaPlayer.state)
        {
          if newVol > 1.0 {
            newVol := 1.0;
          }
          if newVol > userVolume {
            newVol := userVolume;
          }
          VolumeSet(newVol, false);
          assert before + FadeInWrites(start, userVolume, i) + [newVol] == before + FadeInWrites(start, userVolume, i + 1);
          newVol := newVol + FadeStep;
        }
      }
    }

    /** `fade_out()`: with a handle, 100 writes from its volume less one step
        downwards, none below 0. */
    method FadeOut()
      modifies mediaPlayer
      ensures mediaPlayer != null ==>
        && mediaPlayer.writes == old(mediaPlayer.writes) + FadeOutWrites(old(mediaPlayer.volume) - FadeStep, FadeWrites)
        && mediaPlayer.volume == mediaPlayer.writes[|mediaPlayer.writes| - 1]
        && mediaPlayer.state == old(mediaPlayer.state)
    {
      if mediaPlayer != null {
        var newVol := mediaPlayer.volume - FadeStep;
        ghost var start := newVol;
        ghost var before := mediaPlayer.writes;
        for i := 0 to FadeWrites
          invariant mediaPlayer.writes == before + FadeOutWrites(start, i)
          invariant newVol == FadeOutLevel(start, i)
          invariant i > 0 ==> mediaPlayer.volume == mediaPlayer.writes[|mediaPlayer.writes| - 1]
          invariant mediaPlayer.state == old(mediaPlayer.state)
        {
          if newVol < 0.0 {
            newVol := 0.0;
          }
          VolumeSet(newVol, false);
          assert before + FadeOutWrites(start, i) + [newVol] == before + FadeOutWrites(start, i + 1);
          newVol := newVol - FadeStep;
        }
      }
    }

    /** `volume_up(value)`: with a handle, raises its volume by `value` but
        not above 1, and records it as the user volume. */
    method VolumeUp(value: real := VolumeDelta)
      modifies this, mediaPlayer
      ensures mediaPlayer == old(mediaPlayer) && track == old(track) && playing == old(playing)
      ensures pending == old(pending) && doStop == old(doStop)
      ensures mediaPlayer == null ==> userVolume == old(userVolume)
      ensures mediaPlayer != null ==>
        && mediaPlayer.volume == Raised(old(mediaPlayer.volume), value) && userVolume == mediaPlayer.volume
        && mediaPlayer.writes == old(mediaPlayer.writes) + [mediaPlayer.volume]
        && mediaPlayer.state == old(mediaPlayer.state)
    {
      if mediaPlayer != null {
        var newVol := mediaPlayer.volume + value;
        if newVol > 1.0 {
          newVol := 1.0;
        }
        VolumeSet(newVol, true);
      }
    }

    /** `volume_down(value)`: with a handle, lowers its volume by `value`
        but not below 0, and records it as the user volume. */
    method VolumeDown(value: real := VolumeDelta)
      modifies this, mediaPlayer
      ensures mediaPlayer == old(mediaPlayer) && track == old(track) && playing == old(playing)
      ensures pending == old(pending) && doStop == old(doStop)
      ensures mediaPlayer == null ==> userVolume == old(userVolume)
      ensures mediaPlayer != null ==>
        && mediaPlayer.volume == Lowered(old(mediaPlayer.volume), value) && userVolume == mediaPlayer.volume
        && mediaPlayer.writes == old(mediaPlayer.writes) + [mediaPlayer.volume]
        && mediaPlayer.state == old(mediaPlayer.state)
    {
      if mediaPlayer != null {
        var newVol := mediaPlayer.volume - value;
        if newVol < 0.0 {
          newVol := 0.0;
        }
        VolumeSet(newVol, true);
      }
    }

    /** `volume_set(value, set_user_volume)`: with a handle, writes the
        volume, and records it as the user volume when asked to. */
    method VolumeSet(value: real, setUserVolume: bool)
      modifies mediaPlayer
      modifies if setUserVolume then {this} else {}
      ensures mediaPlayer == old(mediaPlayer) && track == old(track) && playing == old(playing)
      ensures pending == old(pending) && doStop == old(doStop)
      ensures userVolume == (if mediaPlayer != null && setUserVolume then value else old(userVolume))
      ensures mediaPlayer != null ==>
        && mediaPlayer.volume == value && mediaPlayer.writes == old(mediaPlayer.writes) + [value]
        && mediaPlayer.state == old(mediaPlayer.state)
    {
      if mediaPlayer != null {
        mediaPlayer.SetVolume(value);
        if setUserVolume {
          userVolume := value;
        }
      }
    }

    /** `stop()`: no more playing from now on; a handle is faded out and
        stopped, and kept. */
    method Stop()
      modifies this, mediaPlayer
      ensures doStop
      ensures mediaPlayer == old(mediaPlayer) && track == old(track) && playing == old(playing)
      ensures pending == old(pending) && userVolume == old(userVolume)
      ensures mediaPlayer != null ==>
        && mediaPlayer.state == Stopped
        && mediaPlayer.writes == old(mediaPlayer.writes) + FadeOutWrites(old(mediaPlayer.volume) - FadeStep, FadeWrites)
    {
      doStop := true;
      if mediaPlayer != null {
        FadeOut();
        mediaPlayer.Stop();
      }
    }

    /** `get_volume()` */
    function GetVolume(): (v: real)
      reads this, mediaPlayer
      ensures mediaPlayer == null ==> v == NoHandleVolume
      ensures mediaPlayer != null ==> v == mediaPlayer.volume
    {
      if mediaPlayer != null then mediaPlayer.volume else NoHandleVolume
    }

    /** `get_time()` */
    function GetTime(): (t: real)
      reads this, mediaPlayer
      ensures mediaPlayer == null ==> t == 0.0
      ensures mediaPlayer != null ==> t == mediaPlayer.time
    {
      if mediaPlayer != null then mediaPlayer.time else 0.0
    }

    /** `get_duration()` */
    function GetDuration(): (d: real)
      reads this
      ensures track == None ==> d == 0.0
      ensures track.Some? ==> d == track.value.duration
    {
      if track.Some? then track.value.duration else 0.0
    }

    /** `get_artist()` */
    function GetArtist(): (s: string)
      reads this
      ensures track == None ==> s == ""
      ensures track.Some? ==> s == track.value.artist
    {
      if track.Some? then track.value.artist else ""
    }

    /** `get_album()` */
    function GetAlbum(): (s: string)
      reads this
      ensures track == None ==> s == ""
      ensures track.Some? ==> s == track.value.album
    {
      if track.Some? then track.value.album else ""
    }

    /** `get_title()` */
    function GetTitle(): (s: string)
      reads this
      ensures track == None ==> s == ""
      ensures track.Some? ==> s == track.value.title
    {
      if track.Some? then track.value.title else ""
    }
  }

  /** Once stopped, a player ignores `play`: nothing about it or its handle
      changes, however often it is called. */
  method StopThenPlay(player: Player)
    modifies player, player.mediaPlayer
    ensures player.doStop
    ensures player.mediaPlayer == old(player.mediaPlayer) && player.pending == old(player.pending)
    ensures player.track == old(player.track) && player.playing == old(player.playing)
  {
    player.Stop();
    player.Play();
    player.Play();
  }
}
