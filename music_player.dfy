/**
 * The MusicPlayer component (src/MusicPlayer.jsx): the same queue cursor as AudioPlayer, plus a
 * local playing flag mirrored to the shared state and a duration label.
 */
module MusicPlayerUi {
  import opened PlayQueue
  import opened TimeFormat

  class MusicPlayer {
    const song: NowPlaying
    const audio: Audio
    const baseUrl: string
    var queue: seq<Track>
    var currentSongIndex: nat
    var isPlaying: bool
    var duration: Duration

    constructor (song: NowPlaying, audio: Audio, baseUrl: string, queue: seq<Track>)
      ensures this.song == song && this.audio == audio && this.baseUrl == baseUrl && this.queue == queue
      ensures currentSongIndex == 0 && !isPlaying && duration == Whole(0)
    {
      this.song, this.audio, this.baseUrl, this.queue := song, audio, baseUrl, queue;
      currentSongIndex, isPlaying, duration := 0, false, Whole(0);
    }

    /** The queue context delivers a new queue; the component keeps its own cursor. */
    method QueueChanged(q: seq<Track>)
      modifies this`queue
      ensures queue == q
    {
      queue := q;
    }

    /** The effect on a new `audio.duration`: keep its whole seconds (NaN stays NaN). The text
     *  under the progress bar's right end is then `DurationLabel(duration)`. */
    method DurationChanged(d: Duration)
      modifies this`duration
      ensures duration == d
    {
      duration := d;
    }

    /** togglePlayPause: flip the local flag, play or pause the audio to match, and mirror the
     *  new value to the shared state. There is no guard on an empty URL. */
    method TogglePlayPause()
      modifies this`isPlaying, song, audio
      ensures isPlaying == !old(isPlaying)
      ensures song.isPlaying == isPlaying && audio.paused == !isPlaying
      ensures song.songName == old(song.songName) && song.artistName == old(song.artistName)
      ensures song.songUrl == old(song.songUrl)
      ensures audio.src == old(audio.src) && audio.currentTime == old(audio.currentTime)
    {
      var prevValue := isPlaying;
      isPlaying := !prevValue;
      if !prevValue {
        audio.paused := false;
      } else {
        audio.paused := true;
      }
      song.isPlaying := !prevValue;
    }

    /** nextSong (also the "ended" handler): nothing on an empty queue; otherwise play the entry
     *  after the cursor, wrapping to the first, with the local and the shared flag both set. */
    method NextSong()
      modifies this`currentSongIndex, this`isPlaying, song, audio
      ensures |queue| == 0 ==>
        currentSongIndex == old(currentSongIndex) && isPlaying == old(isPlaying) && unchanged(song) && unchanged(audio)
      ensures |queue| > 0 ==>
        && currentSongIndex == NextIndex(old(currentSongIndex), |queue|)
        && currentSongIndex < |queue|
        && isPlaying
        && NowPlays(song, audio, baseUrl, queue[currentSongIndex])
        && audio.currentTime == 0.0
    {
      if |queue| == 0 {
        return;
      }
      var nextIndex := NextIndex(currentSongIndex, |queue|);
      PlayTrack(song, audio, baseUrl, queue[nextIndex]);
      isPlaying := true;
      currentSongIndex := nextIndex;
    }

    /** previousSong: nothing on an empty queue; otherwise play the entry before the cursor,
     *  wrapping to the last. A cursor left more than one past the end of a shrunken queue names
     *  no entry: the audio is paused and reading the entry's title throws. */
    method PreviousSong()
      modifies this`currentSongIndex, this`isPlaying, song, audio
      ensures |queue| == 0 ==>
        currentSongIndex == old(currentSongIndex) && isPlaying == old(isPlaying) && unchanged(song) && unchanged(audio)
      ensures |queue| > 0 && old(currentSongIndex) <= |queue| ==>
        && currentSongIndex == PrevIndex(old(currentSongIndex), |queue|)
        && currentSongIndex < |queue|
        && isPlaying
        && NowPlays(song, audio, baseUrl, queue[currentSongIndex])
        && audio.currentTime == 0.0
      ensures |queue| > 0 && old(currentSongIndex) > |queue| ==>
        && currentSongIndex == old(currentSongIndex) && isPlaying == old(isPlaying) && unchanged(song)
        && audio.paused && audio.src == old(audio.src) && audio.currentTime == old(audio.currentTime)
    {
      if |queue| == 0 {
        return;
      }
      var prevIndex := PrevIndex(currentSongIndex, |queue|);
      if prevIndex >= |queue| {
        audio.paused := true;
        return;
      }
      PlayTrack(song, audio, baseUrl, queue[prevIndex]);
      isPlaying := true;
      currentSongIndex := prevIndex;
    }
  }

  /** Toggling twice restores the local flag, and leaves the shared flag and the audio element
   *  agreeing with it. */
  method ToggleTwice(p: MusicPlayer)
    modifies p, p.song, p.audio
    ensures p.isPlaying == old(p.isPlaying)
    ensures p.song.isPlaying == p.isPlaying && p.audio.paused == !p.isPlaying
    ensures p.song.songUrl == old(p.song.songUrl) && p.audio.src == old(p.audio.src)
  {
    p.TogglePlayPause();
    p.TogglePlayPause();
  }
}
