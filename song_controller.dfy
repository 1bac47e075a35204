/**
 * The song handlers of API/controllers/songController.js as step-by-step updates of three
 * stores: the songs collection (catalog), the GridFS bucket (blobs, by id, with the stored
 * filename) and the playlists collection. A store step that can fail takes its outcome from
 * an injected fault record; fresh ObjectIds come from two counters.
 */
module SongController {
  import opened Wrappers
  import opened SongCatalog

  /** The file multer stored for an upload request (`req.file`). */
  datatype UploadedFile = UploadedFile(path: string, filename: string)

  /** Which store steps of an upload fail: the GridFS write, then the catalog insert. */
  datatype AddFaults = AddFaults(uploadFails: bool, insertFails: bool)

  /** Which store steps of a deletion fail. `pullFailsAfter == Some(k)`: the multi-document
   *  playlist update reports an error once it has gone through the first k playlists (those
   *  without the song stay as they are). */
  datatype DeleteFaults = DeleteFaults(catalogDeleteFails: bool, blobDeleteFails: bool, pullFailsAfter: Option<nat>)

  datatype AddResult =
    | MissingFields            // 400 "Please add all fields"
    | NoFileUploaded           // `req.file.path` throws; the error message is answered
    | UploadFailed             // the upload stream emitted "error"
    | InsertFailed             // the catalog insert in the "finish" handler rejected
    | SongAdded(id: SongId)    // 201 "Song added successfully"
  {
    /** The status answered; None where the error escapes from a stream callback and no
     *  response is sent. The missing-file error is answered without setting a status. */
    function Status(): (code: Option<nat>)
      ensures code == Some(201) <==> SongAdded?
      ensures code == Some(400) <==> MissingFields?
      ensures code.None? <==> UploadFailed? || InsertFailed?
    {
      match this
      case MissingFields => Some(400)
      case NoFileUploaded => Some(200)
      case UploadFailed => None
      case InsertFailed => None
      case SongAdded(_) => Some(201)
    }
  }

  datatype DeleteResult =
    | DeleteNoId
    | DeleteNotFound
    | DeleteNotAdmin
    | NothingDeleted
    | AudioFileNotDeleted
    | PlaylistsNotUpdated
    | SongDeleted
  {
    function Status(): (code: nat)
      ensures code == 200 <==> SongDeleted?
      ensures code == 500 <==> AudioFileNotDeleted? || PlaylistsNotUpdated?
    {
      match this
      case DeleteNoId => 400
      case DeleteNotFound => 404
      case DeleteNotAdmin => 401
      case NothingDeleted => 400
      case AudioFileNotDeleted => 500
      case PlaylistsNotUpdated => 500
      case SongDeleted => 200
    }

    function Message(): (m: string)
      ensures m == "Song deleted successfully" <==> SongDeleted?
      ensures m == "Song not found" <==> DeleteNotFound?
    {
      match this
      case DeleteNoId => "No id provided"
      case DeleteNotFound => "Song not found"
      case DeleteNotAdmin => "Unauthorized - Only admin can delete songs"
      case NothingDeleted => "Error deleting song"
      case AudioFileNotDeleted => "Song record deleted but failed to delete audio file"
      case PlaylistsNotUpdated => "Song deleted but failed to update playlists"
      case SongDeleted => "Song deleted successfully"
    }
  }

  /** Each outcome of a deletion is answered with a message of its own. */
  lemma DeleteMessagesDistinct(a: DeleteResult, b: DeleteResult)
    requires a != b
    ensures a.Message() != b.Message()
  {
  }

  datatype EditResult =
    | EditNoId            // 400 "No id provided"
    | EditNotAdmin        // 401 "Unauthorized - Only admin can edit songs"
    | EditNotFound        // 404 "Song not found"
    | NoChanges           // 400 "No changes made to the song"
    | Updated(song: Song) // 200 with the record read back
  {
    function Status(): (code: nat)
      ensures code == 200 <==> Updated?
      ensures code == 401 <==> EditNotAdmin?
      ensures code == 404 <==> EditNotFound?
      ensures code == 400 <==> EditNoId? || NoChanges?
    {
      match this
      case EditNoId => 400
      case EditNotAdmin => 401
      case EditNotFound => 404
      case NoChanges => 400
      case Updated(_) => 200
    }
  }

  /** The blob parameter of a deletion names the blob of a record other than the one deleted. */
  ghost predicate NamesAnotherSongsBlob(catalog: map<SongId, Song>, id: Option<SongId>, file: Option<BlobId>)
  {
    id.Some? && file.Some? && exists j :: j in catalog && j != id.value && catalog[j].file == file.value
  }

  class SongStore {
    var catalog: map<SongId, Song>
    var blobs: map<BlobId, string>
    var playlists: seq<Playlist>
    var nextSongId: nat
    var nextBlobId: nat

    /** Ids come from the counters, and every record names a blob of its own. Whether that blob
     *  still exists is not part of it: a deletion may remove the blob of another record. */
    ghost predicate Valid()
      reads this
    {
      && (forall id :: id in catalog ==> id < nextSongId)
      && (forall b :: b in blobs ==> b < nextBlobId)
      && (forall id :: id in catalog ==> catalog[id].file < nextBlobId)
      && DistinctBlobs(catalog)
    }

    constructor (playlists: seq<Playlist>)
      ensures Valid()
      ensures catalog == map[] && blobs == map[] && this.playlists == playlists
    {
      catalog := map[];
      blobs := map[];
      this.playlists := playlists;
      nextSongId := 0;
      nextBlobId := 0;
    }

    // ------------------------------------------------------------ store primitives

    /** `bucket.openUploadStream(filename)` fed to completion: the blob exists under a fresh id. */
    method UploadBlob(filename: string, fails: bool) returns (blob: Option<BlobId>)
      modifies this`blobs, this`nextBlobId
      ensures blob.Some? <==> !fails
      ensures blob.Some? ==> blob.value == old(nextBlobId) && blobs == old(blobs)[blob.value := filename]
      ensures blob.Some? ==> nextBlobId == old(nextBlobId) + 1
      ensures blob.None? ==> blobs == old(blobs) && nextBlobId == old(nextBlobId)
    {
      if fails {
        return None;
      }
      blob := Some(nextBlobId);
      blobs := blobs[nextBlobId := filename];
      nextBlobId := nextBlobId + 1;
    }

    /** `collection.insertOne(record)` under a fresh `_id`. */
    method InsertOne(record: Song, fails: bool) returns (id: Option<SongId>)
      modifies this`catalog, this`nextSongId
      ensures id.Some? <==> !fails
      ensures id.Some? ==> id.value == old(nextSongId) && catalog == old(catalog)[id.value := record]
      ensures id.Some? ==> nextSongId == old(nextSongId) + 1
      ensures id.None? ==> catalog == old(catalog) && nextSongId == old(nextSongId)
    {
      if fails {
        return None;
      }
      id := Some(nextSongId);
      catalog := catalog[nextSongId := record];
      nextSongId := nextSongId + 1;
    }

    /** `collection.deleteOne({ _id })`: reports whether a record was deleted. */
    method DeleteOne(id: SongId, fails: bool) returns (deleted: bool)
      modifies this`catalog
      ensures deleted <==> !fails && id in old(catalog)
      ensures catalog == if deleted then old(catalog) - {id} else old(catalog)
    {
      deleted := !fails && id in catalog;
      if deleted {
        catalog := catalog - {id};
      }
    }

    /** `bucket.delete(new ObjectId(file))`. A missing parameter makes a fresh ObjectId, and GridFS
     *  throws when no file has the id, so both fail like a store error. */
    method DeleteBlob(file: Option<BlobId>, fails: bool) returns (ok: bool)
      modifies this`blobs
      ensures ok <==> !fails && file.Some? && file.value in old(blobs)
      ensures blobs == if ok then old(blobs) - {file.value} else old(blobs)
    {
      ok := !fails && file.Some? && file.value in blobs;
      if ok {
        blobs := blobs - {file.value};
      }
    }

    /** `updateMany({ "songs.songId": id }, { $pull: { songs: { songId: id } } })`, one playlist
     *  document at a time; with `failsAfter == Some(k)` it reports an error once k are done. */
    method PullFromPlaylists(id: SongId, failsAfter: Option<nat>) returns (ok: bool)
      modifies this`playlists
      ensures ok <==> failsAfter.None?
      ensures playlists == PullPrefix(old(playlists), id, if ok then |old(playlists)| else failsAfter.value)
    {
      ghost var before := playlists;
      var i := 0;
      while i < |playlists|
        invariant 0 <= i <= |playlists| == |before|
        invariant failsAfter.Some? ==> i <= failsAfter.value
        invariant playlists == PullPrefix(before, id, i)
      {
        if failsAfter == Some(i) {
          return false;
        }
        if Mentions(playlists[i].songs, id) {
          playlists := playlists[i := Pulled(playlists[i], id)];
        } else {
          PullEntriesUnchangedIff(playlists[i].songs, id);
        }
        i := i + 1;
      }
      ok := failsAfter.None?;
      assert PullPrefix(before, id, i) == PullPrefix(before, id, if ok then |before| else failsAfter.value);
    }

    // ------------------------------------------------------------ handlers

    /** addSong: validate the fields, write the blob, and insert the record only once the
     *  write has finished. */
    method AddSong(body: Metadata, requesterId: UserId, file: Option<UploadedFile>, faults: AddFaults)
      returns (r: AddResult)
      requires Valid()
      modifies this
      ensures Valid()
      ensures old(BlobsPresent(catalog, blobs)) ==> BlobsPresent(catalog, blobs)
      ensures r.MissingFields? <==> !AllFieldsPresent(body)
      ensures r.NoFileUploaded? <==> AllFieldsPresent(body) && file.None?
      ensures r.UploadFailed? <==> AllFieldsPresent(body) && file.Some? && faults.uploadFails
      ensures r.InsertFailed? <==> AllFieldsPresent(body) && file.Some? && !faults.uploadFails && faults.insertFails
      ensures r.SongAdded? ==>
        && r.id !in old(catalog)
        && catalog == old(catalog)[r.id := Song(body.title, body.artist, body.album, body.description,
                                                requesterId, file.value.filename, old(nextBlobId))]
        && old(nextBlobId) !in old(blobs)
      ensures !r.SongAdded? ==> catalog == old(catalog)
      ensures r.SongAdded? || r.InsertFailed? ==> blobs == old(blobs)[old(nextBlobId) := file.value.filename]
      ensures !(r.SongAdded? || r.InsertFailed?) ==> blobs == old(blobs)
      ensures playlists == old(playlists)
    {
      if !AllFieldsPresent(body) {
        return MissingFields;
      }
      if file.None? {
        return NoFileUploaded;
      }
      var blob := UploadBlob(file.value.filename, faults.uploadFails);
      if blob.None? {
        return UploadFailed;
      }
      var record := Song(body.title, body.artist, body.album, body.description,
                         requesterId, file.value.filename, blob.value);
      var id := InsertOne(record, faults.insertFails);
      if id.None? {
        return InsertFailed;
      }
      r := SongAdded(id.value);
    }

    /** deleteSong: look up, check the admin flag, then delete the record, the blob named by the
     *  request's `file` parameter and every playlist reference, stopping at the first failure. */
    method DeleteSong(id: Option<SongId>, isAdmin: bool, file: Option<BlobId>, faults: DeleteFaults)
      returns (r: DeleteResult)
      requires Valid()
      modifies this
      ensures Valid()
      ensures old(BlobsPresent(catalog, blobs)) && !NamesAnotherSongsBlob(old(catalog), id, file) ==> BlobsPresent(catalog, blobs)
      ensures nextSongId == old(nextSongId) && nextBlobId == old(nextBlobId)
      ensures r.DeleteNoId? <==> id.None?
      ensures r.DeleteNotFound? <==> id.Some? && id.value !in old(catalog)
      ensures r.DeleteNotAdmin? <==> id.Some? && id.value in old(catalog) && !isAdmin
      ensures r.NothingDeleted? <==> id.Some? && id.value in old(catalog) && isAdmin && faults.catalogDeleteFails
      ensures r.AudioFileNotDeleted? <==>
        && id.Some? && id.value in old(catalog) && isAdmin && !faults.catalogDeleteFails
        && !(!faults.blobDeleteFails && file.Some? && file.value in old(blobs))
      ensures r.PlaylistsNotUpdated? <==>
        && id.Some? && id.value in old(catalog) && isAdmin && !faults.catalogDeleteFails
        && !faults.blobDeleteFails && file.Some? && file.value in old(blobs) && faults.pullFailsAfter.Some?
      ensures r.SongDeleted? <==>
        && id.Some? && id.value in old(catalog) && isAdmin && !faults.catalogDeleteFails
        && !faults.blobDeleteFails && file.Some? && file.value in old(blobs) && faults.pullFailsAfter.None?
      // stores untouched by a refused request
      ensures r in {DeleteNoId, DeleteNotFound, DeleteNotAdmin, NothingDeleted} ==>
        catalog == old(catalog) && blobs == old(blobs) && playlists == old(playlists)
      // earlier steps stay committed when a later one fails
      ensures r in {AudioFileNotDeleted, PlaylistsNotUpdated, SongDeleted} ==> catalog == old(catalog) - {id.value}
      ensures r.AudioFileNotDeleted? ==> blobs == old(blobs) && playlists == old(playlists)
      ensures r in {PlaylistsNotUpdated, SongDeleted} ==> blobs == old(blobs) - {file.value} && file.value in old(blobs)
      ensures r.PlaylistsNotUpdated? ==> playlists == PullPrefix(old(playlists), id.value, faults.pullFailsAfter.value)
      ensures r.SongDeleted? ==> playlists == PullAll(old(playlists), id.value)
      ensures r.SongDeleted? && PlaylistRefsResolve(old(catalog), old(playlists)) ==> PlaylistRefsResolve(catalog, playlists)
    {
      if id.None? {
        return DeleteNoId;
      }
      var sid := id.value;
      if sid !in catalog {
        return DeleteNotFound;
      }
      if !isAdmin {
        return DeleteNotAdmin;
      }
      var deleted := DeleteOne(sid, faults.catalogDeleteFails);
      if !deleted {
        return NothingDeleted;
      }
      var blobDeleted := DeleteBlob(file, faults.blobDeleteFails);
      if !blobDeleted {
        return AudioFileNotDeleted;
      }
      ghost var pre := playlists;
      var pulled := PullFromPlaylists(sid, faults.pullFailsAfter);
      if !pulled {
        return PlaylistsNotUpdated;
      }
      if PlaylistRefsResolve(old(catalog), pre) {
        PullAllKeepsRefsResolvable(old(catalog), pre, sid);
      }
      r := SongDeleted;
    }

    /** editSong: admin only, then `$set` of the four metadata fields on the record, classified
     *  by the matched and modified counts. */
    method EditSong(id: Option<SongId>, isAdmin: bool, body: Metadata) returns (r: EditResult)
      requires Valid()
      modifies this`catalog
      ensures Valid()
      ensures old(BlobsPresent(catalog, blobs)) ==> BlobsPresent(catalog, blobs)
      ensures r.EditNoId? <==> id.None?
      ensures r.EditNotAdmin? <==> id.Some? && !isAdmin
      ensures r.EditNotFound? <==> id.Some? && isAdmin && id.value !in old(catalog)
      ensures r.NoChanges? <==> id.Some? && isAdmin && id.value in old(catalog) && body == MetadataOf(old(catalog)[id.value])
      ensures r.Updated? ==>
        && id.Some? && id.value in old(catalog) && id.value in catalog
        && r.song == catalog[id.value]
        && MetadataOf(r.song) == body
        && r.song.uploadedBy == old(catalog)[id.value].uploadedBy
        && r.song.song == old(catalog)[id.value].song
        && r.song.file == old(catalog)[id.value].file
      ensures catalog == if r.Updated? then old(catalog)[id.value := r.song] else old(catalog)
    {
      if id.None? {
        return EditNoId;
      }
      if !isAdmin {
        return EditNotAdmin;
      }
      var sid := id.value;
      if sid !in catalog {
        return EditNotFound;
      }
      var updated := WithMetadata(catalog[sid], body);
      if updated == catalog[sid] {
        return NoChanges;
      }
      catalog := catalog[sid := updated];
      r := Updated(catalog[sid]);
    }
  }

  /** A deletion that removed the record leaves nothing for a second attempt to find, whatever
   *  happened to the blob and the playlists. */
  method DeleteTwice(store: SongStore, id: SongId, file: Option<BlobId>, first: DeleteFaults,
                     secondIsAdmin: bool, secondFile: Option<BlobId>, second: DeleteFaults)
    returns (r1: DeleteResult, r2: DeleteResult)
    requires store.Valid()
    modifies store
    ensures r1 in {AudioFileNotDeleted, PlaylistsNotUpdated, SongDeleted} ==> r2 == DeleteNotFound
  {
    r1 := store.DeleteSong(Some(id), true, file, first);
    r2 := store.DeleteSong(Some(id), secondIsAdmin, secondFile, second);
  }
}
