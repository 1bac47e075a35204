/**
 * The AudioPlayer component (src/utils/AudioPlayer.jsx): a cursor over the queue with wrapping
 * skips, a play/pause toggle guarded by an empty URL, and a progress bar whose time updates are
 * meant to freeze while it is dragged.
 */
module AudioPlayerUi {
  import opened PlayQueue

  class AudioPlayer {
    const song: NowPlaying
    const audio: Audio
    const baseUrl: string
    var queue: seq<Track>
    var currentSongIndex: nat
    var currentTime: real
    var isDragging: bool

    constructor (song: NowPlaying, audio: Audio, baseUrl: string, queue: seq<Track>)
      ensures this.song == song && this.audio == audio && this.baseUrl == baseUrl && this.queue == queue
      ensures currentSongIndex == 0 && currentTime == 0.0 && !isDragging
    {
      this.song, this.audio, this.baseUrl, this.queue := song, audio, baseUrl, queue;
      currentSongIndex, currentTime, isDragging := 0, 0.0, false;
    }

    /** The queue context delivers a new queue; the component keeps its own cursor. */
    method QueueChanged(q: seq<Track>)
      modifies this`queue
      ensures queue == q
    {
      queue := q;
    }

    /** togglePlayPause: nothing without a song URL; otherwise flip the audio element and the
     *  shared playing flag, each from its own old value. */
    method TogglePlayPause()
      modifies song, audio
      ensures old(song.songUrl) == "" ==> unchanged(song) && unchanged(audio)
      ensures old(song.songUrl) != "" ==>
        && song.isPlaying == !old(song.isPlaying) && audio.paused == !old(audio.paused)
        && song.songName == old(song.songName) && song.artistName == old(song.artistName)
        && song.songUrl == old(song.songUrl)
        && audio.src == old(audio.src) && audio.currentTime == old(audio.currentTime)
    {
      if song.songUrl == "" {
        return;
      }
      audio.paused := !audio.paused;
      song.isPlaying := !song.isPlaying;
    }

    /** handleProgressChange: the slider position becomes the displayed time. */
    method HandleProgressChange(value: real)
      modifies this`currentTime
      ensures currentTime == value
    {
      currentTime := value;
    }

    /** handleProgressStart: a drag begins. */
    method HandleProgressStart()
      modifies this`isDragging
      ensures isDragging
    {
      isDragging := true;
    }

    /** handleProgressEnd: the drag ends, the audio seeks to the displayed time and resumes if the
     *  shared state says a song is playing. */
    method HandleProgressEnd()
      modifies this`isDragging, audio
      ensures !isDragging
      ensures audio.currentTime == currentTime
      ensures audio.paused == (old(audio.paused) && !song.isPlaying)
      ensures audio.src == old(audio.src)
    {
      isDragging := false;
      audio.currentTime := currentTime;
      if song.isPlaying {
        audio.paused := false;
      }
    }

    /** The intended "timeupdate" handler: copy the audio position unless a drag is under way. */
    method TimeUpdate()
      modifies this`currentTime
      ensures isDragging ==> currentTime == old(currentTime)
      ensures !isDragging ==> currentTime == audio.currentTime
    {
      if !isDragging {
        currentTime := audio.currentTime;
      }
    }

    /** handleNextSong (also the "ended" handler): nothing on an empty queue; otherwise play the
     *  entry after the cursor, wrapping to the first. */
    method HandleNextSong()
      modifies this`currentSongIndex, song, audio
      ensures |queue| == 0 ==> currentSongIndex == old(currentSongIndex) && unchanged(song) && unchanged(audio)
      ensures |queue| > 0 ==>
        && currentSongIndex == NextIndex(old(currentSongIndex), |queue|)
        && currentSongIndex < |queue|
        && NowPlays(song, audio, baseUrl, queue[currentSongIndex])
        && audio.currentTime == 0.0
    {
      if |queue| == 0 {
        return;
      }
      var nextIndex := NextIndex(currentSongIndex, |queue|);
      PlayTrack(song, audio, baseUrl, queue[nextIndex]);
      currentSongIndex := nextIndex;
    }

    /** handlePreviousSong: nothing on an empty queue; otherwise play the entry before the cursor,
     *  wrapping to the last. A cursor left more than one past the end of a shrunken queue names no
     *  entry: the audio is paused and reading the entry's title throws, so nothing else changes. */
    method HandlePreviousSong()
      modifies this`currentSongIndex, song, audio
      ensures |queue| == 0 ==> currentSongIndex == old(currentSongIndex) && unchanged(song) && unchanged(audio)
      ensures |queue| > 0 && old(currentSongIndex) <= |queue| ==>
        && currentSongIndex == PrevIndex(old(currentSongIndex), |queue|)
        && currentSongIndex < |queue|
        && NowPlays(song, audio, baseUrl, queue[currentSongIndex])
        && audio.currentTime == 0.0
      ensures |queue| > 0 && old(currentSongIndex) > |queue| ==>
        && currentSongIndex == old(currentSongIndex) && unchanged(song)
        && audio.paused && audio.src == old(audio.src) && audio.currentTime == old(audio.currentTime)
    {
      if |queue| == 0 {
        return;
      }
      var prevIndex := PrevIndex(currentSongIndex, |queue|);
      if prevIndex >= |queue| {
        audio.paused := true;
        return;
      }
      PlayTrack(song, audio, baseUrl, queue[prevIndex]);
      currentSongIndex := prevIndex;
    }
  }

  /** The "timeupdate" handling as written. The effect registering the listener re-runs whenever
   *  one of its dependencies changes and never removes the listener it added, so each registered
   *  listener keeps the `isDragging` of the render that added it; `captured` lists those flags in
   *  registration order. Every listener whose flag is false copies the audio position. */
  function ListenersApply(captured: seq<bool>, current: real, audioTime: real): (r: real)
    ensures r == current || r == audioTime
    ensures (forall k :: 0 <= k < |captured| ==> captured[k]) ==> r == current
  {
    if captured == [] then current
    else ListenersApply(captured[1..], if !captured[0] then audioTime else current, audioTime)
  }

  /** As written, the displayed time follows the audio exactly when some listener was registered
   *  while no drag was under way, whatever `isDragging` is now. */
  lemma {:induction false} ListenersApplyIff(captured: seq<bool>, current: real, audioTime: real)
    ensures ListenersApply(captured, current, audioTime)
         == if exists k :: 0 <= k < |captured| && !captured[k] then audioTime else current
  {
    if captured != [] {
      ListenersApplyIff(captured[1..], if !captured[0] then audioTime else current, audioTime);
      if !captured[0] {
        ListenersApplyIff(captured[1..], audioTime, audioTime);
        assert ListenersApply(captured[1..], audioTime, audioTime) == audioTime;
      } else if exists k :: 0 <= k < |captured| && !captured[k] {
        var k :| 0 <= k < |captured| && !captured[k];
        assert !captured[1..][k - 1];
      } else {
        forall k | 0 <= k < |captured[1..]| ensures captured[1..][k] {
          assert captured[1..][k] == captured[k + 1];
        }
      }
    }
  }

  /** The listener added on mount captured `isDragging == false`, so it is never frozen: after a
   *  drag starts (a second listener with `true`), a time update still moves the displayed time
   *  from 5 to 7. */
  lemma DragDoesNotFreezeAsWritten()
    ensures ListenersApply([false, true], 5.0, 7.0) == 7.0
  {
  }

  /** With the mount-time listener in place, no later registration can freeze the time. */
  lemma MountListenerAlwaysUpdates(captured: seq<bool>, current: real, audioTime: real)
    requires |captured| > 0 && !captured[0]
    ensures ListenersApply(captured, current, audioTime) == audioTime
  {
    ListenersApplyIff(captured, current, audioTime);
  }

  /** A whole drag with the intended guard: press, move the slider to `v`, a time update arrives
   *  mid-drag, release. The release seeks to the dragged position, not to where the audio was. */
  method DragAndRelease(p: AudioPlayer, v: real)
    modifies p, p.audio
    ensures p.currentTime == v && p.audio.currentTime == v && !p.isDragging
    ensures p.audio.paused == (old(p.audio.paused) && !p.song.isPlaying)
    ensures p.audio.src == old(p.audio.src)
  {
    p.HandleProgressStart();
    p.HandleProgressChange(v);
    p.TimeUpdate();
    p.HandleProgressEnd();
  }
}
