/**
 * Records of the music-streaming API (API/controllers/songController.js) and the pure parts
 * of its song handlers: field validation, the song lookups, the stream-name check and the
 * `$pull` that removes a deleted song from the playlists.
 */
module SongCatalog {
  import opened Wrappers

  /** Song ids (`_id` of the songs collection) and blob ids (GridFS file ids) are ObjectIds. */
  type SongId = nat
  type BlobId = nat
  type UserId = string

  /** A text field of a request body or a stored record; None is an absent field (or null). */
  type Field = Option<string>

  /** The four metadata fields a client sends to upload or edit a song. */
  datatype Metadata = Metadata(title: Field, artist: Field, album: Field, description: Field)

  /** A document of the songs collection. */
  datatype Song = Song(
    title: Field,
    artist: Field,
    album: Field,
    description: Field,
    uploadedBy: UserId,  // id of the requester who uploaded it
    song: string,        // stored filename, the key clients stream by
    file: BlobId         // id of the GridFS file holding the audio
  )

  /** An entry of a playlist's `songs` array: a copy of song fields taken when it was added. */
  datatype Entry = Entry(songId: Option<SongId>, title: string, artistName: string, songSrc: string)

  datatype Playlist = Playlist(playlistName: string, userId: UserId, songs: seq<Entry>)

  /** JavaScript truthiness of a body field: present and not the empty string. */
  predicate Present(f: Field)
  {
    f.Some? && f.value != ""
  }

  /** The upload guard: every one of title, artist, album and description is truthy. */
  predicate AllFieldsPresent(m: Metadata)
  {
    Present(m.title) && Present(m.artist) && Present(m.album) && Present(m.description)
  }

  /** The metadata a stored record carries. */
  function MetadataOf(s: Song): Metadata
  {
    Metadata(s.title, s.artist, s.album, s.description)
  }

  /** The record after `$set` of the four metadata fields. */
  function WithMetadata(s: Song, m: Metadata): (r: Song)
    ensures MetadataOf(r) == m
    ensures r.uploadedBy == s.uploadedBy && r.song == s.song && r.file == s.file
  {
    s.(title := m.title, artist := m.artist, album := m.album, description := m.description)
  }

  /** Setting the metadata leaves the record unchanged exactly when the values are the stored ones. */
  lemma WithMetadataUnchangedIff(s: Song, m: Metadata)
    ensures WithMetadata(s, m) == s <==> m == MetadataOf(s)
  {
  }

  // ---------------------------------------------------------------- referential invariants

  /** Every catalog record names a blob that exists. */
  ghost predicate BlobsPresent(catalog: map<SongId, Song>, blobs: map<BlobId, string>)
  {
    forall id :: id in catalog ==> catalog[id].file in blobs
  }

  /** No two catalog records share a blob: each upload writes a blob of its own. */
  ghost predicate DistinctBlobs(catalog: map<SongId, Song>)
  {
    forall i, j :: i in catalog && j in catalog && i != j ==> catalog[i].file != catalog[j].file
  }

  /** Every playlist entry that carries a song id names a song of the catalog. */
  ghost predicate PlaylistRefsResolve(catalog: map<SongId, Song>, playlists: seq<Playlist>)
  {
    forall i, k :: 0 <= i < |playlists| && 0 <= k < |playlists[i].songs| && playlists[i].songs[k].songId.Some?
      ==> playlists[i].songs[k].songId.value in catalog
  }

  // ---------------------------------------------------------------- lookups

  datatype SongList = NoSongsFound | Songs(songs: map<SongId, Song>)

  /** getSongs: every record, or "No songs found" (404) when the collection is empty. */
  function GetSongs(catalog: map<SongId, Song>): (r: SongList)
    ensures r.NoSongsFound? <==> |catalog| == 0
    ensures r.Songs? ==> r.songs.Keys == catalog.Keys && forall id :: id in catalog ==> r.songs[id] == catalog[id]
  {
    if |catalog| == 0 then NoSongsFound else Songs(catalog)
  }

  datatype SongLookup = NoIdProvided | SongNotFound | Found(song: Song) {
    function Status(): (code: nat)
      ensures code == 200 <==> Found?
    {
      match this
      case NoIdProvided => 400
      case SongNotFound => 404
      case Found(_) => 200
    }
  }

  /** getSongDetails: the record stored under the id, 404 when there is none, 400 without an id. */
  function GetSongDetails(catalog: map<SongId, Song>, id: Option<SongId>): (r: SongLookup)
    ensures r.NoIdProvided? <==> id.None?
    ensures r.SongNotFound? <==> id.Some? && id.value !in catalog
    ensures r.Found? ==> id.Some? && id.value in catalog && r.song == catalog[id.value]
  {
    match id
    case None => NoIdProvided
    case Some(sid) => if sid in catalog then Found(catalog[sid]) else SongNotFound
  }

  datatype StreamRequest = NoFileName | StreamByName(filename: string)

  /** The `:filename` parameter of the route `/api/v1/stream/:filename`: one non-empty path
   *  segment after the prefix. Any other path does not reach streamSong. */
  function StreamRoute(path: string): Field
  {
    var prefix := "/api/v1/stream/";
    if |path| > |prefix| && path[..|prefix|] == prefix && '/' !in path[|prefix|..] then
      Some(path[|prefix|..])
    else
      None
  }

  /** streamSong's guard: a missing or empty filename is refused before any blob is opened. */
  function StreamSong(filename: Field): (r: StreamRequest)
    ensures r.NoFileName? <==> !Present(filename)
    ensures r.StreamByName? ==> Some(r.filename) == filename && r.filename != ""
  {
    if Present(filename) then StreamByName(filename.value) else NoFileName
  }

  // ---------------------------------------------------------------- the playlist $pull

  /** The `$pull` condition `{ songId: id }`: an entry without a song id never matches. */
  predicate Refers(e: Entry, id: SongId)
  {
    e.songId == Some(id)
  }

  /** The `updateMany` filter `{ "songs.songId": id }`. */
  predicate Mentions(songs: seq<Entry>, id: SongId)
  {
    exists k :: 0 <= k < |songs| && Refers(songs[k], id)
  }

  /** `$pull: { songs: { songId: id } }` on one array: drop every entry referring to `id`. */
  function PullEntries(songs: seq<Entry>, id: SongId): (r: seq<Entry>)
    ensures |r| <= |songs|
    ensures forall k :: 0 <= k < |r| ==> !Refers(r[k], id) && r[k] in songs
  {
    if songs == [] then []
    else if Refers(songs[0], id) then PullEntries(songs[1..], id)
    else [songs[0]] + PullEntries(songs[1..], id)
  }

  function Pulled(p: Playlist, id: SongId): Playlist
  {
    p.(songs := PullEntries(p.songs, id))
  }

  /** The playlists once the update has gone through the first `done` of them; those without
   *  the song stay as they are. */
  function PullPrefix(playlists: seq<Playlist>, id: SongId, done: nat): (r: seq<Playlist>)
    ensures |r| == |playlists|
    ensures forall j :: 0 <= j < |r| && j < done ==> !Mentions(r[j].songs, id)
    ensures forall j :: done <= j < |r| ==> r[j] == playlists[j]
  {
    seq(|playlists|, j requires 0 <= j < |playlists| => if j < done then Pulled(playlists[j], id) else playlists[j])
  }

  /** The playlists after the whole `updateMany`. */
  function PullAll(playlists: seq<Playlist>, id: SongId): (r: seq<Playlist>)
    ensures |r| == |playlists|
    ensures forall j :: 0 <= j < |r| ==> !Mentions(r[j].songs, id)
  {
    PullPrefix(playlists, id, |playlists|)
  }

  /** The pull keeps the relative order of the entries it keeps: it distributes over concatenation. */
  lemma {:induction false} PullEntriesAppend(a: seq<Entry>, b: seq<Entry>, id: SongId)
    ensures PullEntries(a + b, id) == PullEntries(a, id) + PullEntries(b, id)
  {
    if a == [] {
      assert a + b == b;
    } else {
      assert (a + b)[0] == a[0];
      assert (a + b)[1..] == a[1..] + b;
      PullEntriesAppend(a[1..], b, id);
    }
  }

  /** Every entry that does not refer to `id` survives the pull as often as it occurred. */
  lemma {:induction false} PullEntriesKeepsOthers(songs: seq<Entry>, id: SongId, e: Entry)
    requires !Refers(e, id)
    ensures multiset(PullEntries(songs, id))[e] == multiset(songs)[e]
  {
    if songs != [] {
      assert songs == [songs[0]] + songs[1..];
      PullEntriesKeepsOthers(songs[1..], id, e);
    }
  }

  /** The pull changes an array exactly when the array mentions the song. */
  lemma {:induction false} PullEntriesUnchangedIff(songs: seq<Entry>, id: SongId)
    ensures PullEntries(songs, id) == songs <==> !Mentions(songs, id)
  {
    if songs == [] {
    } else {
      PullEntriesUnchangedIff(songs[1..], id);
      if Refers(songs[0], id) {
        assert |PullEntries(songs, id)| < |songs|;
      } else if Mentions(songs[1..], id) {
        var k :| 0 <= k < |songs[1..]| && Refers(songs[1..][k], id);
        assert Refers(songs[k + 1], id);
      } else {
        forall k | 0 <= k < |songs| ensures !Refers(songs[k], id) {
          if k > 0 { assert songs[k] == songs[1..][k - 1]; }
        }
      }
    }
  }

  /** After the whole update no playlist mentions the song, and one that did not is unchanged. */
  lemma PullAllCleans(playlists: seq<Playlist>, id: SongId)
    ensures forall j :: 0 <= j < |playlists| ==> !Mentions(PullAll(playlists, id)[j].songs, id)
    ensures forall j :: 0 <= j < |playlists| && !Mentions(playlists[j].songs, id) ==> PullAll(playlists, id)[j] == playlists[j]
  {
    forall j | 0 <= j < |playlists| && !Mentions(playlists[j].songs, id)
      ensures PullAll(playlists, id)[j] == playlists[j]
    {
      PullEntriesUnchangedIff(playlists[j].songs, id);
    }
  }

  /** Each document is rewritten atomically: after any prefix of the update, every playlist is
   *  either exactly as it was or exactly its pulled version. */
  lemma PullPrefixPerDocument(playlists: seq<Playlist>, id: SongId, done: nat)
    ensures forall j :: 0 <= j < |playlists| ==>
      PullPrefix(playlists, id, done)[j] in {playlists[j], Pulled(playlists[j], id)}
    ensures forall j :: 0 <= j < |playlists| ==> PullPrefix(playlists, id, done)[j].playlistName == playlists[j].playlistName
  {
  }

  /** A pull keeps every song reference resolvable once the song has left the catalog. */
  lemma PullAllKeepsRefsResolvable(catalog: map<SongId, Song>, playlists: seq<Playlist>, id: SongId)
    requires PlaylistRefsResolve(catalog, playlists)
    ensures PlaylistRefsResolve(catalog - {id}, PullAll(playlists, id))
  {
  }
}
