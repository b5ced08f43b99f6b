/** The resumable upload protocol (`server/app/routers/uploads.py`):
    `create_upload` opens a session, `head_upload` reports its progress, and
    `patch_upload` accepts one chunk at the session's offset and, once the
    offset reaches the declared length, moves the staged file into place,
    checks its digest and either publishes a `StoredFile` or fails.

    Each handler is a method over the store and the file system. The chunk
    handler is also given as a function from the state before a request to
    the response and the state after it (`Patch`), which the method is
    proved to follow and about which the protocol's properties are proved.
    `patch_upload` commits twice (after advancing the offset, and after
    finalizing); the state between the two commits is `Received`. */
module Uploads {
  import opened Base
  import opened Digest
  import opened Models
  import opened Schemas
  import opened Storage
  import opened Store

  const TripOrSegmentNotFound := HttpError(404, "Trip or segment not found")
  const UploadNotFound := HttpError(404, "Upload not found")
  const AlreadyComplete := HttpError(409, "Upload already complete")
  const OffsetMismatch := HttpError(409, "Offset mismatch")
  const ChecksumMismatch := HttpError(422, "Checksum mismatch")

  /** The persisted state a request sees: the tables and the file system. */
  datatype World = World(db: Tables, fs: FsState)

  /** A chunk submission: the `Upload-Offset` header and the request body. */
  datatype PatchRequest = PatchRequest(offset: int, body: Bytes)

  /** A request's outcome: the response (on success, the `Upload-Offset`
      header of the 204) and the state it leaves behind. */
  datatype Step = Step(response: Result<int>, world: World)

  // ---------------------------------------------------------------- create

  /** The condition under which `create_upload` opens a session: trip and
      segment exist, the segment belongs to the trip, and the trip is the
      caller's own (an administrator gets no exception). */
  predicate MayCreateUpload(t: Tables, caller: User, p: UploadCreateRequest) {
    && p.tripId in t.trips
    && p.segmentId in t.segments
    && t.segments[p.segmentId].tripId == t.trips[p.tripId].id
    && t.trips[p.tripId].userId == caller.id
  }

  /** The session `create_upload` stores for a request. */
  function SessionFor(id: Uuid, p: UploadCreateRequest, now: Timestamp): UploadSession {
    NewUploadSession(id, p.tripId, p.segmentId, p.filename, p.fileType, p.sha256, p.uploadLength, now)
  }

  method CreateUpload(db: Database, caller: User, payload: UploadCreateRequest, newId: Uuid, now: Timestamp)
    returns (r: Result<UploadRead>)
    requires db.Valid() && newId !in db.uploads
    modifies db
    ensures db.Valid()
    ensures r.Ok? <==> MayCreateUpload(old(db.Snapshot()), caller, payload)
    ensures r.Err? ==> r.error == TripOrSegmentNotFound && db.Snapshot() == old(db.Snapshot())
    ensures r.Ok? ==>
      && db.Snapshot() == old(db.Snapshot()).(uploads := old(db.uploads)[newId := SessionFor(newId, payload, now)])
      && r.value == ToUploadRead(SessionFor(newId, payload, now))
  {
    if payload.tripId !in db.trips || payload.segmentId !in db.segments {
      return Err(TripOrSegmentNotFound);
    }
    var trip := db.trips[payload.tripId];
    var segment := db.segments[payload.segmentId];
    if segment.tripId != trip.id || trip.userId != caller.id {
      return Err(TripOrSegmentNotFound);
    }
    var upload := NewUploadSession(newId, payload.tripId, payload.segmentId, payload.filename,
                                   payload.fileType, payload.sha256, payload.uploadLength, now);
    db.uploads := db.uploads[newId := upload];
    r := Ok(ToUploadRead(upload));
  }

  /** A session created by `create_upload` starts PENDING at offset 0 and
      carries the declared filename, type, digest and length unchanged. */
  lemma NewSessionIsPending(id: Uuid, p: UploadCreateRequest, now: Timestamp)
    ensures SessionFor(id, p, now).status == Pending && SessionFor(id, p, now).offset == 0
    ensures ToUploadRead(SessionFor(id, p, now)) ==
            UploadRead(id, p.tripId, p.segmentId, p.filename, p.fileType, p.sha256, p.uploadLength, 0, Pending)
  {
  }

  // ------------------------------------------------------------------ head

  /** The upload exists and its trip belongs to the caller. */
  predicate OwnsUpload(t: Tables, uploadId: Uuid, caller: User)
    requires Consistent(t)
  {
    uploadId in t.uploads && t.trips[t.uploads[uploadId].tripId].userId == caller.id
  }

  /** `head_upload`: the `Upload-Offset` and `Upload-Length` headers. */
  method HeadUpload(db: Database, caller: User, uploadId: Uuid) returns (r: Result<(int, int)>)
    requires db.Valid()
    ensures r.Ok? <==> OwnsUpload(db.Snapshot(), uploadId, caller)
    ensures r.Ok? ==> r.value == (db.uploads[uploadId].offset, db.uploads[uploadId].uploadLength)
    ensures r.Err? ==> r.error == UploadNotFound
  {
    if uploadId !in db.uploads {
      return Err(UploadNotFound);
    }
    var upload := db.uploads[uploadId];
    if db.trips[upload.tripId].userId != caller.id {
      return Err(UploadNotFound);
    }
    r := Ok((upload.offset, upload.uploadLength));
  }

  // ----------------------------------------------------------------- patch

  /** The checks `patch_upload` makes before reading the body, in order:
      ownership (404), a COMPLETE session (409), a mismatched offset (409).
      A FAILED session passes. */
  function Admit(t: Tables, uploadId: Uuid, caller: User, uploadOffset: int): (r: Result<UploadSession>)
    requires Consistent(t)
    ensures r.Ok? ==> uploadId in t.uploads && r.value == t.uploads[uploadId]
  {
    if !OwnsUpload(t, uploadId, caller) then Err(UploadNotFound)
    else if t.uploads[uploadId].status == UploadStatus.Complete then Err(AlreadyComplete)
    else if t.uploads[uploadId].offset != uploadOffset then Err(OffsetMismatch)
    else Ok(t.uploads[uploadId])
  }

  /** The staging file of an upload. */
  function Staging(env: Env, uploadId: Uuid): Path {
    UploadPath(env.storageDir, uploadId)
  }

  /** Where a session's file is published: `segments/<segment_id>/<filename>`
      under the storage directory. */
  function Destination(env: Env, u: UploadSession): Path {
    Join(SegmentDir(env.storageDir, u.segmentId), u.filename)
  }

  /** The `storage_uri` of a session's published file. */
  function StorageUri(u: UploadSession): string {
    PathString(["segments", u.segmentId, u.filename])
  }

  /** The state after the first commit (lines 87-93): the body written at
      the stored offset, the offset advanced by its length, the session
      RECEIVING. */
  function Received(env: Env, w: World, uploadId: Uuid, body: Bytes, now: Timestamp): World
    requires Consistent(w.db) && uploadId in w.db.uploads
  {
    var u := w.db.uploads[uploadId];
    World(
      w.db.(uploads := w.db.uploads[uploadId := u.(offset := u.offset + |body|, status := Receiving, updatedAt := now)]),
      WriteChunkSpec(w.fs, Staging(env, uploadId), body, u.offset))
  }

  /** The catalog entry published for a verified session. */
  function Published(u: UploadSession, storedId: Uuid, digest: string, size: int, now: Timestamp): StoredFile {
    NewStoredFile(storedId, u.segmentId, u.fileType, StorageUri(u), now).(sha256 := Some(digest), bytes := size)
  }

  /** The segment rows after publishing: a video upload overwrites its
      segment's size and digest; other types leave the segment as it was. */
  function SegmentsAfterPublish(segments: map<Uuid, Segment>, u: UploadSession, digest: string, size: int): map<Uuid, Segment> {
    if u.segmentId in segments && u.fileType == VideoMp4
    then segments[u.segmentId := segments[u.segmentId].(fileSizeBytes := Some(size), sha256 := Some(digest))]
    else segments
  }

  /** Lines 94-121, entered when the advanced offset has reached the declared
      length: move the staging file to its destination, digest it, and on a
      mismatch delete it and fail the session (422); on a match publish one
      `StoredFile`, update a video's segment and complete the session. */
  function Finalized(env: Env, w: World, uploadId: Uuid, storedId: Uuid, now: Timestamp): Step
    requires uploadId in w.db.uploads && Staging(env, uploadId) in w.fs.files
  {
    var u := w.db.uploads[uploadId];
    var dest := Destination(env, u);
    var content := w.fs.files[Staging(env, uploadId)];
    var moved := FinalizeSpec(MakeDirsSpec(w.fs, Parent(dest)), Staging(env, uploadId), dest);
    var digest := Sha256Hex(env.hash, content);
    if digest != u.sha256 then
      Step(Err(ChecksumMismatch),
           World(w.db.(uploads := w.db.uploads[uploadId := u.(status := UploadStatus.Failed)]),
                 UnlinkSpec(moved, dest)))
    else
      Step(Ok(u.offset),
           World(w.db.(storedFiles := w.db.storedFiles[storedId := Published(u, storedId, digest, |content|, now)],
                       segments := SegmentsAfterPublish(w.db.segments, u, digest, |content|),
                       uploads := w.db.uploads[uploadId := u.(status := UploadStatus.Complete)]),
                 moved))
  }

  /** `patch_upload` as a function of the state before the request. */
  function Patch(env: Env, w: World, uploadId: Uuid, caller: User, req: PatchRequest, storedId: Uuid, now: Timestamp): Step
    requires Consistent(w.db)
  {
    match Admit(w.db, uploadId, caller, req.offset)
    case Err(e) => Step(Err(e), w)
    case Ok(u) =>
      if req.body == [] then Step(Ok(u.offset), w)
      else
        var w1 := Received(env, w, uploadId, req.body, now);
        if u.offset + |req.body| >= u.uploadLength
        then Finalized(env, w1, uploadId, storedId, now)
        else Step(Ok(u.offset + |req.body|), w1)
  }

  /** Lines 94-121 on the live store and file system. */
  method FinalizeSession(env: Env, db: Database, fs: FileSystem, uploadId: Uuid, storedId: Uuid, now: Timestamp)
    returns (r: Result<int>)
    requires db.Valid() && fs.Valid()
    requires uploadId in db.uploads && Staging(env, uploadId) in fs.files && storedId !in db.storedFiles
    modifies db, fs
    ensures db.Valid() && fs.Valid()
    ensures Step(r, World(db.Snapshot(), fs.State())) ==
            Finalized(env, old(World(db.Snapshot(), fs.State())), uploadId, storedId, now)
  {
    ghost var w := World(db.Snapshot(), fs.State());
    var upload := db.uploads[uploadId];
    var path := UploadPath(env.storageDir, upload.id);
    var destDir := SegmentDir(env.storageDir, upload.segmentId);
    fs.MakeDirs(destDir);
    var finalPath := Join(destDir, upload.filename);
    var computedSha, size := fs.FinalizeUpload(path, finalPath, env.hash);
    ghost var moved := FinalizeSpec(MakeDirsSpec(w.fs, Parent(finalPath)), path, finalPath);
    assert fs.State() == moved;
    if computedSha != upload.sha256 {
      fs.Unlink(finalPath);
      upload := upload.(status := UploadStatus.Failed);
      SessionUpdateKeepsConsistent(db.Snapshot(), upload);
      db.uploads := db.uploads[uploadId := upload];
      assert db.Snapshot() == w.db.(uploads := w.db.uploads[uploadId := upload]);
      return Err(ChecksumMismatch);
    }
    SegmentFileUri(env.storageDir, upload.segmentId, upload.filename);
    var storedFile := NewStoredFile(storedId, upload.segmentId, upload.fileType,
                                    PathString(RelativeTo(finalPath, env.storageDir).value), now);
    storedFile := storedFile.(sha256 := Some(computedSha), bytes := size);
    assert storedFile == Published(upload, storedId, computedSha, size, now);
    db.storedFiles := db.storedFiles[storedId := storedFile];
    if upload.segmentId in db.segments {
      var segment := db.segments[upload.segmentId];
      if upload.fileType == VideoMp4 {
        segment := segment.(fileSizeBytes := Some(size), sha256 := Some(computedSha));
      }
      SegmentUpdateKeepsConsistent(db.Snapshot(), segment);
      db.segments := db.segments[upload.segmentId := segment];
    }
    assert db.segments == SegmentsAfterPublish(w.db.segments, upload, computedSha, size);
    upload := upload.(status := UploadStatus.Complete);
    SessionUpdateKeepsConsistent(db.Snapshot(), upload);
    db.uploads := db.uploads[uploadId := upload];
    assert db.Snapshot() == w.db.(storedFiles := w.db.storedFiles[storedId := storedFile],
                                  segments := SegmentsAfterPublish(w.db.segments, w.db.uploads[uploadId], computedSha, size),
                                  uploads := w.db.uploads[uploadId := upload]);
    r := Ok(upload.offset);
  }

  /** `patch_upload` on the live store and file system. */
  method PatchUpload(env: Env, db: Database, fs: FileSystem, uploadId: Uuid, caller: User,
                     uploadOffset: int, body: Bytes, storedId: Uuid, now: Timestamp)
    returns (r: Result<int>)
    requires db.Valid() && fs.Valid() && storedId !in db.storedFiles
    modifies db, fs
    ensures db.Valid() && fs.Valid()
    ensures Step(r, World(db.Snapshot(), fs.State())) ==
            Patch(env, old(World(db.Snapshot(), fs.State())), uploadId, caller, PatchRequest(uploadOffset, body), storedId, now)
  {
    ghost var w := World(db.Snapshot(), fs.State());
    if uploadId !in db.uploads || db.trips[db.uploads[uploadId].tripId].userId != caller.id {
      return Err(UploadNotFound);
    }
    var upload := db.uploads[uploadId];
    if upload.status == UploadStatus.Complete {
      return Err(AlreadyComplete);
    }
    if upload.offset != uploadOffset {
      return Err(OffsetMismatch);
    }
    assert Admit(w.db, uploadId, caller, uploadOffset) == Ok(upload);
    if body == [] {
      return Ok(upload.offset);
    }
    var path := UploadPath(env.storageDir, upload.id);
    var _ := fs.WriteChunk(path, body, upload.offset);
    assert fs.State() == WriteChunkSpec(w.fs, Staging(env, uploadId), body, upload.offset);
    upload := upload.(offset := upload.offset + |body|, status := Receiving, updatedAt := now);
    SessionUpdateKeepsConsistent(db.Snapshot(), upload);
    db.uploads := db.uploads[uploadId := upload];
    assert World(db.Snapshot(), fs.State()) == Received(env, w, uploadId, body, now);
    if upload.offset >= upload.uploadLength {
      r := FinalizeSession(env, db, fs, uploadId, storedId, now);
    } else {
      r := Ok(upload.offset);
    }
  }
}
