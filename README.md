# Song catalog, deletion coordination and playback queue — a Dafny model

This project models two parts of a music-streaming web application.

**The song API** (`API/controllers/songController.js`). Its handlers work on three stores:

- the `songs` collection, the catalog: a map from song id to a record with title, artist,
  album, description, uploader, stored filename and blob id;
- the GridFS bucket `uploads`: blob ids, each with its stored filename;
- the `playlists` collection: a sequence of playlists, each with an ordered `songs` array.

The class `SongController.SongStore` holds the three stores, with one method per store call:

- `UploadBlob`: the GridFS upload stream;
- `InsertOne`: `insertOne`;
- `DeleteOne`: `deleteOne`;
- `DeleteBlob`: `bucket.delete`;
- `PullFromPlaylists`: `updateMany` with `$pull`, one playlist document at a time.

The handlers `AddSong`, `DeleteSong` and `EditSong` call these methods in the source's order.
A store step that can fail takes its outcome from an injected fault record (`AddFaults`,
`DeleteFaults`). A multi-document playlist update may fail after any number of playlists, because
that update is not transactional. The driver assigns fresh ObjectIds (the record `_id`, the GridFS
file id); the model takes them from two counters.

The pure parts live in `SongCatalog`:

- the upload field guard;
- the lookups `getSongs` and `getSongDetails`;
- the missing-filename guard of `streamSong`;
- the `$pull` filter, with lemmas that it removes exactly the matching entries and keeps the rest
  in order.

`SongStore.Valid()` is the store invariant that every handler keeps. Ids come from the counters,
and no two records share a blob. The referential property "every record's blob exists"
(`BlobsPresent`) is kept by adding and editing. Deleting keeps it unless the request's `file`
parameter names the blob of a different record. The server does not check that parameter, so the
handlers do not assume the property: they accept any store their own operations can produce.

**The client players** (`src/utils/AudioPlayer.jsx`, `src/MusicPlayer.jsx`). Both keep a cursor
`currentSongIndex` over a queue of tracks. Next and previous wrap around the queue. On a skip,
both publish the new track to the shared "now playing" state (`SongContext`) and load it into the
audio element; `PlayQueue.PlayTrack` models that shared skip body once. The classes
`AudioPlayerUi.AudioPlayer` and `MusicPlayerUi.MusicPlayer` model the two components. Both
components define the same `calculateTime` (`src/utils/AudioPlayer.jsx:105-111` and
`src/MusicPlayer.jsx:49-55` are the same text), so it is modelled once, as `TimeFormat.CalculateTime`.
It is modelled over whole non-negative seconds and comes with its inverse `ParseTime`.

Points of the code's behaviour that a reader might not expect:

- deleteSong checks that the song exists (404) before it checks the admin flag (401);
- deleteSong deletes the blob named by the request's `file` query parameter, not the blob the
  record references;
- editSong checks the admin flag before any lookup, and does not validate the fields it sets;
- on these two routes the router's `adminMiddleware` (`API/middlewares/authMiddleware.js:25-27`)
  already answers 403 to a non-admin. The handlers' own 401 branches are modelled as written,
  with the admin flag as a plain input.

## Model

| member | source | states |
|---|---|---|
| `SongCatalog.WithMetadata` | API/controllers/songController.js:269-279 | `$set` gives the record exactly the four sent metadata values and keeps `uploadedBy`, `song` and `file` |
| `SongCatalog.AllFieldsPresent` | API/controllers/songController.js:14-17 | no contract of its own: the guard of :14 as written (every one of the four fields present and non-empty), which `SongController.SongStore.AddSong`'s contract uses for its 400 outcome |
| `SongCatalog.WithMetadataUnchangedIff` | API/controllers/songController.js:288-293 | setting the metadata leaves the record unchanged if and only if the sent values equal the stored ones (modifiedCount 0) |
| `SongCatalog.GetSongs` | API/controllers/songController.js:154-168 | "No songs found" exactly when the catalog is empty; otherwise every record, under its id |
| `SongCatalog.GetSongDetails` | API/controllers/songController.js:207-239 | 400 exactly without an id, 404 exactly for an id not in the catalog, otherwise the record stored under the id |
| `SongCatalog.StreamSong` | API/controllers/songController.js:174-180 | a missing or empty filename is refused before any blob is opened; otherwise the stream key is that filename |
| `SongCatalog.PullEntries` | API/controllers/songController.js:120-123 | the pulled array is no longer, holds no entry with the song id, and holds only entries of the original |
| `SongCatalog.PullEntriesAppend` | API/controllers/songController.js:120-123 | the pull distributes over concatenation, so the kept entries keep their relative order |
| `SongCatalog.PullPrefix` | API/controllers/songController.js:118-130 | after the update has gone through the first `done` playlists, none of those mentions the song, and every later one is as it was |
| `SongCatalog.PullAll` | API/controllers/songController.js:120-123 | after the whole update no playlist mentions the song, and the number of playlists is unchanged |
| `SongCatalog.PullEntriesKeepsOthers` | API/controllers/songController.js:120-123 | every entry without the song id occurs after the pull exactly as often as before |
| `SongCatalog.PullEntriesUnchangedIff` | API/controllers/songController.js:120-123 | the pull changes an array if and only if the array has an entry with the song id |
| `SongCatalog.PullAllCleans` | API/controllers/songController.js:119-123 | after the full update no playlist has an entry with the song id, and a playlist that had none is unchanged |
| `SongCatalog.PullPrefixPerDocument` | API/controllers/songController.js:118-130 | after any partial update each playlist is either as it was or fully pulled, and keeps its name |
| `SongCatalog.PullAllKeepsRefsResolvable` | API/controllers/songController.js:100-123 | if every playlist reference named a catalog song before, it still does after the record is removed and the playlists are pulled |
| `SongCatalog.SongLookup.Status` | API/controllers/songController.js:210-232 | a lookup answers 200 exactly when it found the song |
| `SongController.DeleteResult.Status` | API/controllers/songController.js:84-141 | a deletion answers 200 only on full success, and 500 exactly when the audio-file delete or the playlist update failed |
| `SongController.DeleteMessagesDistinct` | API/controllers/songController.js:86-140 | every deletion outcome has its own message, so the partial failures can be told apart |
| `SongController.DeleteResult.Message` | API/controllers/songController.js:86-139 | "Song deleted successfully" exactly on full success, "Song not found" exactly for an unknown id |
| `SongController.AddResult.Status` | API/controllers/songController.js:14-56 | 201 exactly when the song was added, 400 exactly for missing fields, and no response when the upload or the insert failed inside a stream callback |
| `SongController.EditResult.Status` | API/controllers/songController.js:250-302 | 200 exactly when updated, 401 exactly for a non-admin, 404 exactly for an unknown id, 400 for a missing id or no changes |
| `SongController.SongStore.UploadBlob` | API/controllers/songController.js:27-38 | a finished upload stores the file under a fresh blob id; a failed one changes nothing |
| `SongController.SongStore.InsertOne` | API/controllers/songController.js:40-48 | a successful insert adds the record under a fresh id; a failed one changes nothing |
| `SongController.SongStore.DeleteOne` | API/controllers/songController.js:101-105 | the record is deleted exactly when the step succeeds and the id is present, and nothing else changes |
| `SongController.SongStore.DeleteBlob` | API/controllers/songController.js:107-115 | the named blob is removed exactly when the step succeeds and a parameter naming an existing blob was given |
| `SongController.SongStore.PullFromPlaylists` | API/controllers/songController.js:118-130 | success exactly without an injected failure; the playlists are the pulled prefix up to the failure point, or all pulled |
| `SongController.SongStore.AddSong` | API/controllers/songController.js:8-63 | "Please add all fields" exactly when a field is missing or empty, and then no store changes; a record is inserted only after a finished upload, and it holds the four fields, the requester, the stored filename and the new blob id; a failed upload changes no store; a failed insert leaves the new blob without a record; the invariant is kept, and so is "every record's blob exists" when it held before |
| `SongController.SongStore.DeleteSong` | API/controllers/songController.js:68-149 | no id gives 400; an unknown id gives 404 before the admin check; a non-admin gets 401; a failed record delete changes nothing; a failed blob delete leaves the record gone and the blobs and playlists untouched; a failed playlist update leaves record and blob gone and a prefix of the playlists pulled; full success removes the record, the blob named by the `file` parameter, and every entry with the song id; resolvable playlist references stay resolvable; the invariant is always kept, and "every record's blob exists" is kept unless the parameter names another record's blob |
| `SongController.SongStore.EditSong` | API/controllers/songController.js:245-311 | no id gives 400; a non-admin gets 401 before any lookup; an unknown id gives 404; values equal to the stored ones give "No changes made" and leave the catalog unchanged; otherwise only the four metadata fields of that record change, and the updated record is returned; the invariant and "every record's blob exists" are kept |
| `SongController.DeleteTwice` | API/controllers/songController.js:84-90 | once a deletion has removed the record, even with a later step failing, a second deletion of the same id answers "Song not found", whatever its admin flag and `file` parameter |
| `PlayQueue.NextIndex` | src/utils/AudioPlayer.jsx:74 | the next position always lies inside the queue; it is one on, and wraps from the last track to 0 |
| `PlayQueue.PrevIndex` | src/utils/AudioPlayer.jsx:91 | the previous position lies inside the queue whenever the cursor is at most one past its end, and outside it otherwise |
| `PlayQueue.SkipsAreInverse` | src/utils/AudioPlayer.jsx:74-91 | for every position of a non-empty queue, previous after next and next after previous return to it |
| `PlayQueue.SkipForwardWraps` | src/utils/AudioPlayer.jsx:33-85 | within one lap, k skips forward (or "ended" events) advance the cursor by k and wrap once past the end |
| `PlayQueue.QueueIsCycle` | src/utils/AudioPlayer.jsx:33-85 | n skips forward on a queue of n tracks return to the same track |
| `PlayQueue.PlayTrack` | src/utils/AudioPlayer.jsx:77-84 | after a skip, title, artist and URL (stream prefix + `songSrc`) come from the track, the audio source is that URL, and it is playing from the start |
| `PlayQueue.StreamUrl` | src/utils/AudioPlayer.jsx:80-81 | no contract of its own: the URL template as written; what it promises is `PlayQueue.StreamUrlNamesTrack` |
| `SongCatalog.StreamRoute` | API/server.js:27 | no contract of its own: the route's `:filename` parameter, one non-empty path segment |
| `PlayQueue.StreamUrlNamesTrack` | src/utils/AudioPlayer.jsx:80-81 | the path a player requests reaches the stream route of API/server.js with the track's `songSrc` as its filename, and streamSong streams the blob stored under that name |
| `AudioPlayerUi.AudioPlayer.constructor` | src/utils/AudioPlayer.jsx:11-16 | a mounted player starts at position 0, time 0, not dragging |
| `AudioPlayerUi.AudioPlayer.QueueChanged` | src/utils/AudioPlayer.jsx:11 | the queue context may deliver a new queue; the cursor is kept |
| `AudioPlayerUi.AudioPlayer.TogglePlayPause` | src/utils/AudioPlayer.jsx:40-45 | with an empty song URL nothing changes; otherwise the audio element and the shared playing flag each flip, and nothing else changes |
| `AudioPlayerUi.AudioPlayer.HandleProgressChange` | src/utils/AudioPlayer.jsx:52-55 | the slider value becomes the displayed time |
| `AudioPlayerUi.AudioPlayer.HandleProgressStart` | src/utils/AudioPlayer.jsx:57-59 | a drag sets the dragging flag |
| `AudioPlayerUi.AudioPlayer.HandleProgressEnd` | src/utils/AudioPlayer.jsx:61-69 | release clears the flag, seeks the audio to the displayed time, and resumes it if the shared state is playing |
| `AudioPlayerUi.AudioPlayer.TimeUpdate` | src/utils/AudioPlayer.jsx:25-30 | corrected handler: while dragging the displayed time is unchanged; otherwise it becomes the audio position |
| `AudioPlayerUi.AudioPlayer.HandleNextSong` | src/utils/AudioPlayer.jsx:71-86 | an empty queue changes nothing; otherwise the cursor becomes `(i+1) mod n` and that entry is now playing |
| `AudioPlayerUi.AudioPlayer.HandlePreviousSong` | src/utils/AudioPlayer.jsx:88-103 | an empty queue changes nothing; otherwise the cursor becomes `n-1` from 0 and `i-1` elsewhere, and that entry is now playing; a cursor more than one past the end of a shrunken queue only pauses the audio |
| `AudioPlayerUi.ListenersApplyIff` | src/utils/AudioPlayer.jsx:20-38 | as written, a time update moves the displayed time exactly when some registered listener was added while not dragging |
| `AudioPlayerUi.ListenersApply` | src/utils/AudioPlayer.jsx:20-38 | as written, every registered listener runs; the displayed time ends as it was or as the audio position, and as it was when every listener captured a drag |
| `AudioPlayerUi.MountListenerAlwaysUpdates` | src/utils/AudioPlayer.jsx:20-38 | as written, with the listener added on mount still in place, every time update moves the displayed time |
| `AudioPlayerUi.DragAndRelease` | src/utils/AudioPlayer.jsx:25-69 | with the corrected guard, a drag to `v` with a time update arriving mid-drag ends with the audio seeking to `v` |
| `AudioPlayerUi.DragDoesNotFreezeAsWritten` | src/utils/AudioPlayer.jsx:25-30 | as written, a time update during a drag still moves the displayed time (5 becomes 7) |
| `TimeFormat.Decimal` | src/utils/AudioPlayer.jsx:107 | the rendered number is all digits with no leading zero from 10 on; it is one digit exactly below 10 and at most two below 100 |
| `TimeFormat.ParseDecimalOfDecimal` | src/utils/AudioPlayer.jsx:107 | reading a rendered number back gives the number |
| `TimeFormat.ParseDecimalLeadingZero` | src/utils/AudioPlayer.jsx:107 | a leading zero does not change the value read |
| `TimeFormat.Pad2Reads` | src/utils/AudioPlayer.jsx:107-109 | a padded field reads back as its number |
| `TimeFormat.Pad2` | src/utils/AudioPlayer.jsx:107-109 | a padded field is all digits, at least two of them, exactly two below 100, and the plain number from 10 on |
| `TimeFormat.CalculateTime` | src/utils/AudioPlayer.jsx:105-111 | the label has a colon third from the end and digits everywhere else, and is five characters long below 100 minutes |
| `TimeFormat.CalculateTimeShape` | src/utils/AudioPlayer.jsx:105-111 | the text before the colon is `secs div 60` padded, and the last two characters are `secs mod 60` padded |
| `TimeFormat.CalculateTimeRoundTrip` | src/utils/AudioPlayer.jsx:105-111 | reading the label back gives the seconds it was made from |
| `TimeFormat.CalculateTimeInjective` | src/utils/AudioPlayer.jsx:105-111 | distinct second counts give distinct labels |
| `TimeFormat.DurationLabel` | src/MusicPlayer.jsx:135 | "..." exactly when the duration is NaN or 0; otherwise a label that reads back as the duration |
| `MusicPlayerUi.MusicPlayer.constructor` | src/MusicPlayer.jsx:17-21 | a mounted player starts at position 0, not playing, duration 0 |
| `MusicPlayerUi.MusicPlayer.QueueChanged` | src/MusicPlayer.jsx:17 | the queue context may deliver a new queue; the cursor is kept |
| `MusicPlayerUi.MusicPlayer.DurationChanged` | src/MusicPlayer.jsx:36-39 | the whole-second duration (or NaN) is kept for the label |
| `MusicPlayerUi.MusicPlayer.TogglePlayPause` | src/MusicPlayer.jsx:23-34 | the local flag flips with no URL guard, the audio element follows it, the shared flag mirrors it, and nothing else changes |
| `MusicPlayerUi.MusicPlayer.NextSong` | src/MusicPlayer.jsx:77-93 | an empty queue changes nothing; otherwise the cursor becomes `(i+1) mod n`, that entry is now playing, and the local and shared flags are both true |
| `MusicPlayerUi.MusicPlayer.PreviousSong` | src/MusicPlayer.jsx:96-112 | an empty queue changes nothing; otherwise the cursor wraps from 0 to `n-1` and else steps back, that entry is now playing, and both flags are true; a cursor more than one past the end of a shrunken queue only pauses the audio |
| `MusicPlayerUi.ToggleTwice` | src/MusicPlayer.jsx:23-34 | toggling twice restores the local flag and leaves the shared flag and the audio element agreeing with it |

## Left out

- The byte transfer itself is I/O and is not modelled: piping the multer temp file into GridFS,
  piping a download to the response, and the temp file. An upload is a finished or failed outcome,
  and `streamSong` is only its missing-filename guard. A name with no blob raises a stream error
  that the handler does not catch, so that case is not modelled either.
- Which HTTP response an error thrown inside the upload stream's callbacks produces is not
  modelled. Those errors escape the surrounding `try`. The model keeps only their effect on the
  stores.
- Database errors thrown by `findOne`, `deleteOne` and `updateOne` are not modelled; the handler
  answers 500 with the error message. A failed record delete is modelled once, as the
  deletedCount-0 answer "Error deleting song". A GridFS delete that fails part-way is modelled as
  changing nothing.
- Malformed id strings are not modelled: `new ObjectId(id)` throws on them. Ids are already-parsed
  ObjectIds, and a missing one is `None`. A missing `file` parameter makes `new ObjectId()` build a
  fresh id; the model treats it as naming no blob.
- Request bodies are modelled as strings or absent fields. Other JSON values and their truthiness
  are not modelled. An absent field sent to editSong is stored as null, which the model writes as
  `None`.
- Identity is left out: token verification, password hashing, the auth controller and the routes
  are not modelled. The requester's id and admin flag are plain inputs.
- The playlist controller, and the client code that adds or removes playlist entries, are not
  part of this model.
- Concurrency between requests is left out: each handler runs alone. The stores have no locking,
  so interleavings are unguarded in the source too.
- Floating-point media state is not modelled: `audio.duration`, volume, progress-bar
  percentages and `requestAnimationFrame` (`whilePlaying`, `changeRange`). Time is an opaque
  `real`. `calculateTime` is modelled on whole non-negative seconds only, and an infinite duration
  is not modelled.
- The React re-render machinery is not modelled: state setters take effect immediately. The
  listener list is modelled only by the function `ListenersApply`, for the finding below.
- SongController.SongStore.DeleteSong: keeps "every record's blob exists" only when the `file`
  parameter does not name another record's blob. The client sends the record's own blob id, but
  the server does not check it.
- PlayQueue.StreamUrlNamesTrack: holds for stored names without '/', as multer generates them.
  URL percent-encoding, and Express decoding the parameter, are not modelled.
- TimeFormat.CalculateTime: takes unbounded whole seconds. JavaScript numbers are doubles, so the
  source is exact only below 2^53 seconds, and from 10^21 minutes on a template literal switches
  to exponential notation. The model does not capture either limit.

## Findings

| source | as written | input that shows it | evidently intended | confidence | as-written member | corrected member |
|---|---|---|---|---|---|---|
| src/utils/AudioPlayer.jsx:20-38 | every run of the effect adds a "timeupdate" listener holding that render's `isDragging`, and the cleanup removes only the "ended" listener; the listener added on mount holds `false` and never goes away | mount, then start a drag (the effect re-runs and adds a second listener holding `true`); a time update with the audio at 7 s while the display shows 5 s sets the display to 7 s during the drag | while the slider is dragged, time updates leave the displayed time alone, so the release seeks to the dragged position | not executed; medium (follows from React's effect and closure rules) | `AudioPlayerUi.DragDoesNotFreezeAsWritten` | `AudioPlayerUi.AudioPlayer.TimeUpdate` |
