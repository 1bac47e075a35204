/**
 * State shared by the two client players: the queue cursor arithmetic, the shared
 * "now playing" state (SongContext) and the HTML audio element.
 */
module PlayQueue {
  import Wrappers
  import SongCatalog

  /** A queue entry as the song cards dispatch it. */
  datatype Track = Track(title: string, artistName: string, songSrc: string)

  /** The URL a track is streamed from: `${__URL__}/api/v1/stream/${songSrc}`. */
  function StreamUrl(baseUrl: string, songSrc: string): string
  {
    baseUrl + "/api/v1/stream/" + songSrc
  }

  /** The path a player requests reaches the server's stream route with the track's `songSrc`
   *  as its filename, so streamSong opens the blob stored under that name. Stored names are
   *  multer's generated ones: non-empty and free of '/'. */
  lemma StreamUrlNamesTrack(baseUrl: string, songSrc: string)
    requires songSrc != "" && '/' !in songSrc
    ensures SongCatalog.StreamRoute(StreamUrl(baseUrl, songSrc)[|baseUrl|..]) == Wrappers.Some(songSrc)
    ensures SongCatalog.StreamSong(SongCatalog.StreamRoute(StreamUrl(baseUrl, songSrc)[|baseUrl|..]))
         == SongCatalog.StreamByName(songSrc)
  {
  }

  /** `(currentSongIndex + 1) % queue.length`: always a valid position, wrapping to 0. */
  function NextIndex(i: nat, n: nat): (j: nat)
    requires n > 0
    ensures j < n
    ensures i < n ==> j == if i == n - 1 then 0 else i + 1
  {
    (i + 1) % n
  }

  /** `currentSongIndex === 0 ? queue.length - 1 : currentSongIndex - 1`: valid whenever the
   *  cursor is at most one past the end of the queue. */
  function PrevIndex(i: nat, n: nat): (j: nat)
    requires n > 0
    ensures i <= n ==> j < n
    ensures i > n ==> j >= n
  {
    if i == 0 then n - 1 else i - 1
  }

  /** Previous undoes next, and next undoes previous, on every position of the queue. */
  lemma SkipsAreInverse(i: nat, n: nat)
    requires i < n
    ensures PrevIndex(NextIndex(i, n), n) == i
    ensures NextIndex(PrevIndex(i, n), n) == i
  {
  }

  /** Skipping forward `k` times from `i` lands on `(i + k) % n`: the queue is a cycle. */
  function SkipForward(i: nat, n: nat, k: nat): (j: nat)
    requires n > 0
  {
    if k == 0 then i else NextIndex(SkipForward(i, n, k - 1), n)
  }

  /** Within one lap the cursor advances by `k`, wrapping once past the end. */
  lemma {:induction false} SkipForwardWraps(i: nat, n: nat, k: nat)
    requires i < n && k <= n
    ensures SkipForward(i, n, k) == if i + k < n then i + k else i + k - n
  {
    if k > 0 {
      SkipForwardWraps(i, n, k - 1);
    }
  }

  /** `n` skips forward (for instance `n` "ended" events in a row) return to the same track. */
  lemma QueueIsCycle(i: nat, n: nat)
    requires i < n
    ensures SkipForward(i, n, n) == i
  {
    SkipForwardWraps(i, n, n);
  }

  /** The shared "now playing" state of SongContext. */
  class NowPlaying {
    var songName: string
    var artistName: string
    var songUrl: string
    var isPlaying: bool

    constructor ()
      ensures songName == "" && artistName == "" && songUrl == "" && !isPlaying
    {
      songName, artistName, songUrl, isPlaying := "", "", "", false;
    }
  }

  /** The parts of the audio element the players drive; time is opaque. */
  class Audio {
    var src: string
    var paused: bool
    var currentTime: real

    constructor ()
      ensures src == "" && paused && currentTime == 0.0
    {
      src, paused, currentTime := "", true, 0.0;
    }
  }

  /** The shared state and the audio element are both on `t`, and it is playing. */
  ghost predicate NowPlays(song: NowPlaying, audio: Audio, baseUrl: string, t: Track)
    reads song, audio
  {
    && song.songName == t.title
    && song.artistName == t.artistName
    && song.songUrl == StreamUrl(baseUrl, t.songSrc)
    && audio.src == song.songUrl
    && song.isPlaying
    && !audio.paused
  }

  /** The body both players run on a skip: pause, publish the track's title, artist and URL,
   *  point the audio element at the URL, load, play, and mark the shared state as playing. */
  method PlayTrack(song: NowPlaying, audio: Audio, baseUrl: string, t: Track)
    modifies song, audio
    ensures NowPlays(song, audio, baseUrl, t)
    ensures audio.currentTime == 0.0
  {
    audio.paused := true;
    song.songName := t.title;
    song.artistName := t.artistName;
    song.songUrl := StreamUrl(baseUrl, t.songSrc);
    audio.src := StreamUrl(baseUrl, t.songSrc);
    audio.currentTime := 0.0;
    audio.paused := false;
    song.isPlaying := true;
  }
}
