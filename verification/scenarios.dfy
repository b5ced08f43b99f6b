/** The end-to-end flow of the server's API test (`test_trip_upload_flow`),
    stated over the model: a 13-byte recording uploaded in one PATCH is
    accepted and published, 13 other bytes sent instead fail the digest
    check, and a GPS track attached to the segment passes every check of
    `attach_metadata`. */
module Scenarios {
  import opened Base
  import opened Digest
  import opened Models
  import opened Schemas
  import opened Storage
  import opened Store
  import opened Uploads
  import opened Client
  import opened UploadLaws
  import opened Pairing
  import opened Trips
  import opened Segments

  /** The bytes of "bike recorder". */
  const BikeRecorder: Bytes := [0x62, 0x69, 0x6b, 0x65, 0x20, 0x72, 0x65, 0x63, 0x6f, 0x72, 0x64, 0x65, 0x72]

  /** The recording fits in one chunk, which the client sends at offset 0. */
  lemma BikeRecorderIsOneChunk()
    ensures Chunks(BikeRecorder, 0) == [PatchRequest(0, BikeRecorder)]
  {
    assert BikeRecorder[0..13] == BikeRecorder;
  }

  /** The test's upload: the session opened for the 13 bytes with their
      digest takes them in a single PATCH at offset 0, answers with offset
      13 (the 204 response's `Upload-Offset`), and ends COMPLETE with the
      bytes published under the segment. */
  lemma SingleChunkUploadCompletes(env: Env, w: World, caller: User, tripId: Uuid, segmentId: Uuid,
                                   newId: Uuid, storedId: Uuid, created: Timestamp, now: Timestamp)
    requires Consistent(w.db)
    requires MayCreateUpload(w.db, caller, UploadDeclaration(tripId, segmentId, BikeRecorder, env.hash))
    requires Staging(env, newId) !in w.fs.files && storedId !in w.db.storedFiles
    ensures var decl := UploadDeclaration(tripId, segmentId, BikeRecorder, env.hash);
            var w0 := Opened(w, decl, newId, created);
            var s := Patch(env, w0, newId, caller, PatchRequest(0, BikeRecorder), storedId, now);
            && s.response == Ok(13)
            && s.world.db.uploads[newId].status == UploadStatus.Complete
            && s.world.fs.files[Join(SegmentDir(env.storageDir, segmentId), "segment.mp4")] == BikeRecorder
            && s.world.db.storedFiles[storedId].bytes == 13
            && s.world.db.segments[segmentId].fileSizeBytes == Some(13)
  {
    var decl := UploadDeclaration(tripId, segmentId, BikeRecorder, env.hash);
    var w0 := Opened(w, decl, newId, created);
    ClientUploadCompletes(env, w, caller, tripId, segmentId, BikeRecorder, newId, storedId, created, now);
    BikeRecorderIsOneChunk();
    ReplayCons(env, w0, newId, caller, PatchRequest(0, BikeRecorder), [], storedId, now);
  }

  /** The bytes of "WRONG DATA!!!": as long as the recording, but other
      bytes. */
  const WrongData: Bytes := [0x57, 0x52, 0x4f, 0x4e, 0x47, 0x20, 0x44, 0x41, 0x54, 0x41, 0x21, 0x21, 0x21]

  /** Sending other bytes of the right length to the session declared for
      the recording: they reach the declared length, so the session is
      finalized, and since their digest differs the answer is 422, the
      session is FAILED at offset 13, no catalog entry appears and the
      destination file does not exist. */
  lemma WrongBytesFail(env: Env, w: World, caller: User, tripId: Uuid, segmentId: Uuid,
                       newId: Uuid, storedId: Uuid, created: Timestamp, now: Timestamp)
    requires Consistent(w.db)
    requires MayCreateUpload(w.db, caller, UploadDeclaration(tripId, segmentId, BikeRecorder, env.hash))
    requires Staging(env, newId) !in w.fs.files
    requires Sha256Hex(env.hash, WrongData) != Sha256Hex(env.hash, BikeRecorder)
    ensures var decl := UploadDeclaration(tripId, segmentId, BikeRecorder, env.hash);
            var w0 := Opened(w, decl, newId, created);
            var s := Patch(env, w0, newId, caller, PatchRequest(0, WrongData), storedId, now);
            && s.response == Err(ChecksumMismatch) && s.response.error.status == 422
            && s.world.db.uploads[newId].status == UploadStatus.Failed
            && s.world.db.uploads[newId].offset == 13
            && s.world.db.storedFiles == w.db.storedFiles
            && Join(SegmentDir(env.storageDir, segmentId), "segment.mp4") !in s.world.fs.files
  {
    var decl := UploadDeclaration(tripId, segmentId, BikeRecorder, env.hash);
    var w0 := Opened(w, decl, newId, created);
    DeclaredSessionReady(env, w, caller, tripId, segmentId, BikeRecorder, newId, created);
    WriteAtEnd([], WrongData);
    assert [] + WrongData == WrongData;
    MismatchFails(env, w0, newId, caller, PatchRequest(0, WrongData), storedId, now);
  }

  /** The test's metadata attach: a `gps_jsonl` document on a segment of the
      caller's own trip passes every check, and without a filename it is
      stored as `metadata_gps_jsonl.txt`. */
  lemma GpsTrackAttachAccepted(t: Tables, segmentId: Uuid, caller: User, content: string)
    requires segmentId in t.segments && t.segments[segmentId].tripId in t.trips
    requires t.trips[t.segments[segmentId].tripId].userId == caller.id
    ensures CheckAttach(t, segmentId, caller, GpsJsonl) == Ok(t.segments[segmentId])
    ensures MetadataFilename(SegmentMetadataRequest(GpsJsonl, content, None)) == "metadata_gps_jsonl.txt"
  {
  }
}
