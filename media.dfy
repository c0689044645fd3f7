/** What the two desktop players of the older revision share: the entries
    their mp3 iterator yields, and the sound handle returned by playing a
    streamed sound, whose volume the players write. */
module Media {
  import opened Wrappers

  /** The track dict a player shows: where its mp3 is and what to display. */
  datatype Track = Track(path: string, artist: string, album: string, title: string, duration: real)

  /** One item of the mp3 iterator: a track and whether it was on disk
      already. */
  datatype Entry = Entry(track: Track, downloaded: bool)

  /** Where a handle is: playing, paused, or stopped for good. */
  datatype HandleState = Playing | Paused | Stopped

  /** `arcade.load_sound(path, streaming=True).play()`: a media player for one
      sound. Every volume written to it is recorded, in order. */
  class Sound {
    const source: string
    var volume: real
    var writes: seq<real>
    var state: HandleState
    /** `media_player.time`, advanced by the playback backend. */
    var time: real

    /** A freshly started handle plays at full volume from the start. */
    constructor (source: string)
      ensures this.source == source && volume == 1.0 && writes == [] && state == Playing && time == 0.0
    {
      this.source := source;
      volume := 1.0;
      writes := [];
      state := Playing;
      time := 0.0;
    }

    /** `media_player.volume = v` */
    method SetVolume(v: real)
      modifies this
      ensures volume == v && writes == old(writes) + [v]
      ensures state == old(state) && time == old(time)
    {
      volume := v;
      writes := writes + [v];
    }

    /** `media_player.play()` */
    method Play()
      modifies this
      ensures state == Playing
      ensures volume == old(volume) && writes == old(writes) && time == old(time)
    {
      state := Playing;
    }

    /** `media_player.pause()` */
    method Pause()
      modifies this
      ensures state == Paused
      ensures volume == old(volume) && writes == old(writes) && time == old(time)
    {
      state := Paused;
    }

    /** `my_music.stop(media_player)` */
    method Stop()
      modifies this
      ensures state == Stopped
      ensures volume == old(volume) && writes == old(writes) && time == old(time)
    {
      state := Stopped;
    }
  }

  /** The index of the entry `play` starts: with `skipDownloaded`, the first
      entry not downloaded before; otherwise the first entry; `|entries|`
      when there is none. */
  function FirstToPlay(entries: seq<Entry>, skipDownloaded: bool): (i: nat)
    ensures i <= |entries|
    ensures i < |entries| ==> !(skipDownloaded && entries[i].downloaded)
    ensures forall k :: 0 <= k < i ==> skipDownloaded && entries[k].downloaded
  {
    if entries == [] then 0
    else if skipDownloaded && entries[0].downloaded then 1 + FirstToPlay(entries[1..], skipDownloaded)
    else 0
  }

  /** Without skipping, `play` starts the next entry whatever it is. */
  lemma NoSkipPlaysFirst(entries: seq<Entry>)
    requires entries != []
    ensures FirstToPlay(entries, false) == 0
  {
  }

  /** Skipping over a prefix of downloaded entries: the entry played is the
      first one not downloaded, so prepending downloaded entries only shifts
      it. */
  lemma {:induction false} SkipDownloadedPrefix(done: seq<Entry>, rest: seq<Entry>)
    requires forall k :: 0 <= k < |done| ==> done[k].downloaded
    ensures FirstToPlay(done + rest, true) == |done| + FirstToPlay(rest, true)
    decreases |done|
  {
    if done != [] {
      assert (done + rest)[0] == done[0];
      assert (done + rest)[1..] == done[1..] + rest;
      SkipDownloadedPrefix(done[1..], rest);
    } else {
      assert done + rest == rest;
    }
  }

  /** The track a player shows after `play` consumed `entries` up to and
      including the one at `i`, or all of them when `i` is past the end: the
      last entry consumed, if any. */
  function LastConsumed(entries: seq<Entry>, i: nat, before: Option<Track>): (t: Option<Track>)
    ensures i < |entries| ==> t == Some(entries[i].track)
    ensures i >= |entries| && entries != [] ==> t == Some(entries[|entries| - 1].track)
    ensures entries == [] ==> t == before
  {
    if i < |entries| then Some(entries[i].track)
    else if entries == [] then before
    else Some(entries[|entries| - 1].track)
  }
}
