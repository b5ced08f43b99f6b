/** Properties of the chunk handler `patch_upload` (`Uploads.Patch`): the
    order of its rejections, the empty-body probe, how one accepted chunk
    moves the session, when and how a session is finalized, and what the
    handler preserves across requests. */
module UploadLaws {
  import opened Base
  import opened Digest
  import opened Models
  import opened Storage
  import opened Store
  import opened Uploads

  // ------------------------------------------------------------ rejections

  /** The three checks run in order — ownership, then COMPLETE, then the
      offset — and a rejected request leaves store and files as they were. */
  lemma RejectionOrder(env: Env, w: World, id: Uuid, caller: User, req: PatchRequest, storedId: Uuid, now: Timestamp)
    requires Consistent(w.db)
    ensures !OwnsUpload(w.db, id, caller) ==>
              Patch(env, w, id, caller, req, storedId, now) == Step(Err(UploadNotFound), w)
    ensures OwnsUpload(w.db, id, caller) && w.db.uploads[id].status == UploadStatus.Complete ==>
              Patch(env, w, id, caller, req, storedId, now) == Step(Err(AlreadyComplete), w)
    ensures OwnsUpload(w.db, id, caller) && w.db.uploads[id].status != UploadStatus.Complete
            && w.db.uploads[id].offset != req.offset ==>
              Patch(env, w, id, caller, req, storedId, now) == Step(Err(OffsetMismatch), w)
  {
  }

  /** A request that passes the checks: the caller owns a session that is not
      COMPLETE, and names its current offset. */
  predicate Admitted(w: World, id: Uuid, caller: User, req: PatchRequest)
    requires Consistent(w.db)
  {
    Admit(w.db, id, caller, req.offset).Ok?
  }

  lemma AdmittedMeans(w: World, id: Uuid, caller: User, req: PatchRequest)
    requires Consistent(w.db)
    ensures Admitted(w, id, caller, req) <==>
              OwnsUpload(w.db, id, caller) && w.db.uploads[id].status != UploadStatus.Complete
              && w.db.uploads[id].offset == req.offset
  {
  }

  /** Only an admitted request can change anything. */
  lemma OnlyAdmittedChange(env: Env, w: World, id: Uuid, caller: User, req: PatchRequest, storedId: Uuid, now: Timestamp)
    requires Consistent(w.db)
    requires Patch(env, w, id, caller, req, storedId, now).world != w
    ensures Admitted(w, id, caller, req) && req.body != []
  {
  }

  /** An empty body with the right offset is a progress probe: it reports the
      stored offset and changes nothing. */
  lemma EmptyBodyProbe(env: Env, w: World, id: Uuid, caller: User, req: PatchRequest, storedId: Uuid, now: Timestamp)
    requires Consistent(w.db) && Admitted(w, id, caller, req) && req.body == []
    ensures Patch(env, w, id, caller, req, storedId, now) == Step(Ok(w.db.uploads[id].offset), w)
  {
  }

  // ------------------------------------------------------------- one chunk

  /** The first commit: the body lands at the stored offset of the staging
      file, the offset grows by exactly the body's length, the session is
      RECEIVING, and no other row or file changes. */
  lemma ChunkIsWrittenAtOffset(env: Env, w: World, id: Uuid, body: Bytes, now: Timestamp)
    requires Consistent(w.db) && id in w.db.uploads && body != []
    ensures var w1 := Received(env, w, id, body, now);
            var u := w.db.uploads[id];
            var staged := w1.fs.files[Staging(env, id)];
            && id in w1.db.uploads
            && w1.db.uploads[id].offset == u.offset + |body|
            && w1.db.uploads[id].status == Receiving
            && w1.db.uploads[id].(offset := u.offset, status := u.status, updatedAt := u.updatedAt) == u
            && staged[u.offset..u.offset + |body|] == body
            && (forall i :: 0 <= i < u.offset && i < |ContentOf(w.fs, Staging(env, id))| ==>
                  staged[i] == ContentOf(w.fs, Staging(env, id))[i])
            && w1.db.(uploads := w.db.uploads) == w.db
            && w1.db.uploads == w.db.uploads[id := w1.db.uploads[id]]
            && w1.fs.files.Keys == w.fs.files.Keys + {Staging(env, id)}
            && w1.fs.dirs == w.fs.dirs + Ancestry(Parent(Staging(env, id)))
            && (forall p :: p != Staging(env, id) && p in w.fs.files ==> p in w1.fs.files && w1.fs.files[p] == w.fs.files[p])
            && Consistent(w1.db)
  {
  }

  /** Whether an admitted chunk finalizes the session: exactly when the
      advanced offset reaches or passes the declared length. Otherwise the
      response is the advanced offset and the session stays RECEIVING. */
  lemma FinalizesIff(env: Env, w: World, id: Uuid, caller: User, req: PatchRequest, storedId: Uuid, now: Timestamp)
    requires Consistent(w.db) && Admitted(w, id, caller, req) && req.body != []
    ensures var u := w.db.uploads[id];
            var s := Patch(env, w, id, caller, req, storedId, now);
            && id in s.world.db.uploads
            && s.world.db.uploads[id].offset == u.offset + |req.body|
            && (s.world.db.uploads[id].status == Receiving <==> u.offset + |req.body| < u.uploadLength)
            && (u.offset + |req.body| < u.uploadLength ==>
                  s == Step(Ok(u.offset + |req.body|), Received(env, w, id, req.body, now)))
  {
  }

  /** The bytes the staging file holds once an admitted chunk is written. */
  function StagedAfter(env: Env, w: World, id: Uuid, body: Bytes): Bytes
    requires Consistent(w.db) && id in w.db.uploads
  {
    WriteAt(ContentOf(w.fs, Staging(env, id)), w.db.uploads[id].offset, body)
  }

  /** A finalizing chunk whose staged bytes do not hash to the declared
      digest: 422, the session FAILED, the moved file deleted (so neither the
      staging file nor the destination exists), and no catalog entry or
      segment row written. */
  lemma MismatchFails(env: Env, w: World, id: Uuid, caller: User, req: PatchRequest, storedId: Uuid, now: Timestamp)
    requires Consistent(w.db) && Admitted(w, id, caller, req) && req.body != []
    requires w.db.uploads[id].offset + |req.body| >= w.db.uploads[id].uploadLength
    requires Sha256Hex(env.hash, StagedAfter(env, w, id, req.body)) != w.db.uploads[id].sha256
    ensures var u := w.db.uploads[id];
            var s := Patch(env, w, id, caller, req, storedId, now);
            && s.response == Err(ChecksumMismatch)
            && s.world.db.uploads == w.db.uploads[id := u.(offset := u.offset + |req.body|, status := UploadStatus.Failed, updatedAt := now)]
            && s.world.db.storedFiles == w.db.storedFiles
            && s.world.db.segments == w.db.segments
            && Destination(env, u) !in s.world.fs.files
            && Staging(env, id) !in s.world.fs.files
  {
    var u := w.db.uploads[id];
    var w1 := Received(env, w, id, req.body, now);
    StagingPathsSeparate(env.storageDir, id, id, u.segmentId, u.filename);
    assert w1.db.uploads[id].segmentId == u.segmentId && w1.db.uploads[id].filename == u.filename;
  }

  /** The finalize step on a staged file whose digest matches: the response
      is the session's offset, one catalog entry is added with the staged
      bytes' digest and size and the session's `storage_uri`, a video's
      segment takes that size and digest, the session is COMPLETE, and the
      staged bytes move to the destination. */
  lemma FinalizedPublishes(env: Env, w: World, id: Uuid, storedId: Uuid, now: Timestamp)
    requires id in w.db.uploads && Staging(env, id) in w.fs.files
    requires Sha256Hex(env.hash, w.fs.files[Staging(env, id)]) == w.db.uploads[id].sha256
    requires storedId !in w.db.storedFiles
    ensures var u := w.db.uploads[id];
            var staged := w.fs.files[Staging(env, id)];
            var s := Finalized(env, w, id, storedId, now);
            && s.response == Ok(u.offset)
            && s.world.db.uploads == w.db.uploads[id := u.(status := UploadStatus.Complete)]
            && s.world.db.storedFiles == w.db.storedFiles[storedId := s.world.db.storedFiles[storedId]]
            && s.world.db.storedFiles[storedId].sha256 == Some(u.sha256)
            && s.world.db.storedFiles[storedId].bytes == |staged|
            && s.world.db.storedFiles[storedId].storageUri == "segments/" + u.segmentId + "/" + u.filename
            && s.world.db.storedFiles[storedId].segmentId == u.segmentId
            && s.world.db.storedFiles[storedId].fileType == u.fileType
            && s.world.db.segments == SegmentsAfterPublish(w.db.segments, u, u.sha256, |staged|)
            && Destination(env, u) in s.world.fs.files && s.world.fs.files[Destination(env, u)] == staged
            && Staging(env, id) !in s.world.fs.files
  {
    var u := w.db.uploads[id];
    StagingPathsSeparate(env.storageDir, id, id, u.segmentId, u.filename);
    SegmentFileUri(env.storageDir, u.segmentId, u.filename);
  }

  /** A finalizing chunk whose staged bytes hash to the declared digest
      publishes them: exactly one catalog entry is added — its digest and
      size those of the staged bytes, its `storage_uri`
      `segments/<segment_id>/<filename>` — a video's segment takes that size
      and digest, and any other type leaves the segment rows alone. */
  lemma MatchPublishes(env: Env, w: World, id: Uuid, caller: User, req: PatchRequest, storedId: Uuid, now: Timestamp)
    requires Consistent(w.db) && Admitted(w, id, caller, req) && req.body != []
    requires w.db.uploads[id].offset + |req.body| >= w.db.uploads[id].uploadLength
    requires Sha256Hex(env.hash, StagedAfter(env, w, id, req.body)) == w.db.uploads[id].sha256
    requires storedId !in w.db.storedFiles
    ensures var u := w.db.uploads[id];
            var staged := StagedAfter(env, w, id, req.body);
            var s := Patch(env, w, id, caller, req, storedId, now);
            && s.world.db.storedFiles.Keys == w.db.storedFiles.Keys + {storedId}
            && |s.world.db.storedFiles| == |w.db.storedFiles| + 1
            && s.world.db.storedFiles[storedId].sha256 == Some(u.sha256)
            && s.world.db.storedFiles[storedId].bytes == |staged|
            && s.world.db.storedFiles[storedId].storageUri == "segments/" + u.segmentId + "/" + u.filename
            && s.world.db.storedFiles[storedId].segmentId == u.segmentId
            && s.world.db.storedFiles[storedId].fileType == u.fileType
            && (forall k :: k in w.db.storedFiles ==> s.world.db.storedFiles[k] == w.db.storedFiles[k])
            && (s.world.db.segments != w.db.segments ==> u.fileType == VideoMp4)
            && (u.fileType == VideoMp4 && u.segmentId in w.db.segments ==>
                  && s.world.db.segments[u.segmentId].fileSizeBytes == Some(|staged|)
                  && s.world.db.segments[u.segmentId].sha256 == Some(u.sha256))
  {
    var u := w.db.uploads[id];
    var w1 := Received(env, w, id, req.body, now);
    var staged := StagedAfter(env, w, id, req.body);
    assert w1.db.uploads[id] == u.(offset := u.offset + |req.body|, status := Receiving, updatedAt := now);
    assert w1.fs.files[Staging(env, id)] == staged;
    FinalizingStep(env, w, id, caller, req, storedId, now);
    FinalizedPublishes(env, w1, id, storedId, now);
    var v := Finalized(env, w1, id, storedId, now).world;
    FreshKeyAdds(w.db.storedFiles, storedId, v.db.storedFiles[storedId]);
    assert v.db.segments == SegmentsAfterPublish(w.db.segments, u, u.sha256, |staged|);
  }

  /** The same chunk completes the session: the response is the advanced
      offset, the session is COMPLETE at that offset, the destination holds
      the staged bytes and the staging file is gone. */
  lemma MatchCompletes(env: Env, w: World, id: Uuid, caller: User, req: PatchRequest, storedId: Uuid, now: Timestamp)
    requires Consistent(w.db) && Admitted(w, id, caller, req) && req.body != []
    requires w.db.uploads[id].offset + |req.body| >= w.db.uploads[id].uploadLength
    requires Sha256Hex(env.hash, StagedAfter(env, w, id, req.body)) == w.db.uploads[id].sha256
    requires storedId !in w.db.storedFiles
    ensures var u := w.db.uploads[id];
            var s := Patch(env, w, id, caller, req, storedId, now);
            && s.response == Ok(u.offset + |req.body|)
            && s.world.db.uploads == w.db.uploads[id := u.(offset := u.offset + |req.body|, status := UploadStatus.Complete, updatedAt := now)]
            && Destination(env, u) in s.world.fs.files
            && s.world.fs.files[Destination(env, u)] == StagedAfter(env, w, id, req.body)
            && Staging(env, id) !in s.world.fs.files
  {
    var u := w.db.uploads[id];
    var w1 := Received(env, w, id, req.body, now);
    var u1 := w1.db.uploads[id];
    assert u1 == u.(offset := u.offset + |req.body|, status := Receiving, updatedAt := now);
    assert w1.fs.files[Staging(env, id)] == StagedAfter(env, w, id, req.body);
    FinalizingStep(env, w, id, caller, req, storedId, now);
    FinalizedPublishes(env, w1, id, storedId, now);
    assert Destination(env, u1) == Destination(env, u);
    assert u1.(status := UploadStatus.Complete) == u.(offset := u.offset + |req.body|, status := UploadStatus.Complete, updatedAt := now);
  }

  /** Adding an entry under a fresh key adds exactly that key. */
  lemma FreshKeyAdds<K, V>(m: map<K, V>, k: K, v: V)
    requires k !in m
    ensures m[k := v].Keys == m.Keys + {k} && |m[k := v]| == |m| + 1
  {
    assert m[k := v].Keys == m.Keys + {k};
  }

  /** A finalizing chunk is the first commit followed by finalization. */
  lemma FinalizingStep(env: Env, w: World, id: Uuid, caller: User, req: PatchRequest, storedId: Uuid, now: Timestamp)
    requires Consistent(w.db) && Admitted(w, id, caller, req) && req.body != []
    requires w.db.uploads[id].offset + |req.body| >= w.db.uploads[id].uploadLength
    ensures Staging(env, id) in Received(env, w, id, req.body, now).fs.files
    ensures Patch(env, w, id, caller, req, storedId, now) == Finalized(env, Received(env, w, id, req.body, now), id, storedId, now)
  {
  }

  // ------------------------------------------------------------ invariants

  /** The finalize step keeps the store consistent. */
  lemma FinalizedKeepsConsistent(env: Env, w: World, id: Uuid, storedId: Uuid, now: Timestamp)
    requires Consistent(w.db) && id in w.db.uploads && Staging(env, id) in w.fs.files
    ensures Consistent(Finalized(env, w, id, storedId, now).world.db)
  {
    var u := w.db.uploads[id];
    var content := w.fs.files[Staging(env, id)];
    var digest := Sha256Hex(env.hash, content);
    if digest == u.sha256 {
      var segs := SegmentsAfterPublish(w.db.segments, u, digest, |content|);
      var t := w.db.(storedFiles := w.db.storedFiles[storedId := Published(u, storedId, digest, |content|, now)]);
      if u.segmentId in w.db.segments && u.fileType == VideoMp4 {
        SegmentUpdateKeepsConsistent(t, w.db.segments[u.segmentId].(fileSizeBytes := Some(|content|), sha256 := Some(digest)));
      }
      SessionUpdateKeepsConsistent(t.(segments := segs), u.(status := UploadStatus.Complete));
    } else {
      SessionUpdateKeepsConsistent(w.db, u.(status := UploadStatus.Failed));
    }
  }

  /** Every request keeps the store consistent. */
  lemma PatchKeepsConsistent(env: Env, w: World, id: Uuid, caller: User, req: PatchRequest, storedId: Uuid, now: Timestamp)
    requires Consistent(w.db)
    ensures Consistent(Patch(env, w, id, caller, req, storedId, now).world.db)
  {
    if Admitted(w, id, caller, req) && req.body != [] {
      var u := w.db.uploads[id];
      var w1 := Received(env, w, id, req.body, now);
      SessionUpdateKeepsConsistent(w.db, u.(offset := u.offset + |req.body|, status := Receiving, updatedAt := now));
      if u.offset + |req.body| >= u.uploadLength {
        FinalizedKeepsConsistent(env, w1, id, storedId, now);
      }
    }
  }

  /** The finalize step rewrites only the session's status, to COMPLETE on a
      success and FAILED on a failure, and of the files only the staging
      file and the destination. */
  lemma FinalizedFrame(env: Env, w: World, id: Uuid, storedId: Uuid, now: Timestamp)
    requires id in w.db.uploads && Staging(env, id) in w.fs.files
    ensures var s := Finalized(env, w, id, storedId, now);
            var u := w.db.uploads[id];
            && s.world.db.uploads == w.db.uploads[id := u.(status := s.world.db.uploads[id].status)]
            && (s.response.Ok? <==> s.world.db.uploads[id].status == UploadStatus.Complete)
            && (s.response.Err? <==> s.world.db.uploads[id].status == UploadStatus.Failed)
            && (forall p :: p != Staging(env, id) && p != Destination(env, u) ==>
                  ContentOf(s.world.fs, p) == ContentOf(w.fs, p))
  {
  }

  /** The uploads table after any request: unchanged, or only the addressed
      session rewritten with its offset advanced by the body's length. */
  lemma PatchUploadsFrame(env: Env, w: World, id: Uuid, caller: User, req: PatchRequest, storedId: Uuid, now: Timestamp)
    requires Consistent(w.db)
    ensures var after := Patch(env, w, id, caller, req, storedId, now).world;
            || after == w
            || (&& Admitted(w, id, caller, req) && req.body != []
                && after.db.uploads == w.db.uploads[id := w.db.uploads[id].(
                     offset := w.db.uploads[id].offset + |req.body|,
                     status := after.db.uploads[id].status, updatedAt := now)])
  {
    if Admitted(w, id, caller, req) && req.body != [] {
      var u := w.db.uploads[id];
      var w1 := Received(env, w, id, req.body, now);
      if u.offset + |req.body| >= u.uploadLength {
        FinalizedFrame(env, w1, id, storedId, now);
      }
    }
  }

  /** A request touches at most its own session: no session appears or
      disappears, every other session is unchanged, and no offset decreases. */
  lemma OnlyOwnSessionMoves(env: Env, w: World, id: Uuid, caller: User, req: PatchRequest, storedId: Uuid, now: Timestamp)
    requires Consistent(w.db)
    ensures var after := Patch(env, w, id, caller, req, storedId, now).world.db.uploads;
            && after.Keys == w.db.uploads.Keys
            && (forall k :: k in w.db.uploads && k != id ==> after[k] == w.db.uploads[k])
            && (forall k :: k in w.db.uploads ==> after[k].offset >= w.db.uploads[k].offset)
  {
    PatchUploadsFrame(env, w, id, caller, req, storedId, now);
  }

  /** COMPLETE is final: once a session is COMPLETE, no request moves it. */
  lemma CompleteIsFinal(env: Env, w: World, id: Uuid, caller: User, req: PatchRequest, storedId: Uuid, now: Timestamp, k: Uuid)
    requires Consistent(w.db) && k in w.db.uploads && w.db.uploads[k].status == UploadStatus.Complete
    ensures var after := Patch(env, w, id, caller, req, storedId, now).world.db.uploads;
            k in after && after[k] == w.db.uploads[k]
  {
    OnlyOwnSessionMoves(env, w, id, caller, req, storedId, now);
  }

  /** Staging files track their sessions: a session still PENDING or
      RECEIVING has staged exactly `offset` bytes (no file at all reads as
      empty), so the next chunk always lands at the end of what is staged. */
  predicate StagingTracksOffsets(env: Env, w: World) {
    forall k :: k in w.db.uploads && w.db.uploads[k].status in {Pending, Receiving} ==>
      |ContentOf(w.fs, Staging(env, k))| == w.db.uploads[k].offset
  }

  /** A session that has been finalized (COMPLETE or FAILED) reached its
      declared length. */
  predicate FinalizedReachedLength(w: World) {
    forall k :: k in w.db.uploads && w.db.uploads[k].status in {UploadStatus.Complete, UploadStatus.Failed} ==>
      w.db.uploads[k].offset >= w.db.uploads[k].uploadLength
  }

  /** A session created by `create_upload` (PENDING at offset 0) keeps the
      invariant when nothing is staged under its id. */
  lemma NewSessionTracks(env: Env, w: World, u: UploadSession)
    requires StagingTracksOffsets(env, w) && FinalizedReachedLength(w)
    requires u.status == Pending && u.offset == 0 && Staging(env, u.id) !in w.fs.files
    ensures StagingTracksOffsets(env, w.(db := w.db.(uploads := w.db.uploads[u.id := u])))
    ensures FinalizedReachedLength(w.(db := w.db.(uploads := w.db.uploads[u.id := u])))
  {
  }

  /** A chunk that does not finalize keeps both invariants. */
  lemma ReceivingKeepsTracked(env: Env, w: World, id: Uuid, caller: User, req: PatchRequest, now: Timestamp)
    requires Consistent(w.db) && StagingTracksOffsets(env, w) && FinalizedReachedLength(w)
    requires Admitted(w, id, caller, req) && req.body != []
    requires w.db.uploads[id].offset + |req.body| < w.db.uploads[id].uploadLength
    ensures StagingTracksOffsets(env, Received(env, w, id, req.body, now))
    ensures FinalizedReachedLength(Received(env, w, id, req.body, now))
  {
    var w1 := Received(env, w, id, req.body, now);
    forall k | k in w1.db.uploads && w1.db.uploads[k].status in {Pending, Receiving}
      ensures |ContentOf(w1.fs, Staging(env, k))| == w1.db.uploads[k].offset
    {
      StagingPathsSeparate(env.storageDir, k, id, "", "");
    }
  }

  /** A chunk that finalizes keeps both invariants: its session leaves
      PENDING and RECEIVING at or past its length, and no other staging file
      is touched. */
  lemma FinalizingKeepsTracked(env: Env, w: World, id: Uuid, caller: User, req: PatchRequest, storedId: Uuid, now: Timestamp)
    requires Consistent(w.db) && StagingTracksOffsets(env, w) && FinalizedReachedLength(w)
    requires Admitted(w, id, caller, req) && req.body != []
    requires w.db.uploads[id].offset + |req.body| >= w.db.uploads[id].uploadLength
    ensures StagingTracksOffsets(env, Patch(env, w, id, caller, req, storedId, now).world)
    ensures FinalizedReachedLength(Patch(env, w, id, caller, req, storedId, now).world)
  {
    var u := w.db.uploads[id];
    var w1 := Received(env, w, id, req.body, now);
    var s := Finalized(env, w1, id, storedId, now);
    assert Patch(env, w, id, caller, req, storedId, now) == s;
    FinalizedFrame(env, w1, id, storedId, now);
    forall k | k in s.world.db.uploads && s.world.db.uploads[k].status in {Pending, Receiving}
      ensures |ContentOf(s.world.fs, Staging(env, k))| == s.world.db.uploads[k].offset
    {
      StagingPathsSeparate(env.storageDir, k, id, u.segmentId, u.filename);
      assert ContentOf(s.world.fs, Staging(env, k)) == ContentOf(w.fs, Staging(env, k));
    }
  }

  /** Every request keeps staging files in step with their sessions, and
      finalized sessions at or past their length. */
  lemma PatchKeepsStagingTracked(env: Env, w: World, id: Uuid, caller: User, req: PatchRequest, storedId: Uuid, now: Timestamp)
    requires Consistent(w.db) && StagingTracksOffsets(env, w) && FinalizedReachedLength(w)
    ensures StagingTracksOffsets(env, Patch(env, w, id, caller, req, storedId, now).world)
    ensures FinalizedReachedLength(Patch(env, w, id, caller, req, storedId, now).world)
  {
    if Admitted(w, id, caller, req) && req.body != [] {
      var u := w.db.uploads[id];
      if u.offset + |req.body| >= u.uploadLength {
        FinalizingKeepsTracked(env, w, id, caller, req, storedId, now);
      } else {
        ReceivingKeepsTracked(env, w, id, caller, req, now);
      }
    }
  }

  // ---------------------------------------------------------------- quirks

  /** Only COMPLETE is refused: a FAILED session still admits a chunk at its
      offset, and since it already reached its length, every non-empty chunk
      finalizes it again. */
  lemma FailedSessionAcceptsChunks(env: Env, w: World, id: Uuid, caller: User, req: PatchRequest, storedId: Uuid, now: Timestamp)
    requires Consistent(w.db) && FinalizedReachedLength(w)
    requires OwnsUpload(w.db, id, caller) && w.db.uploads[id].status == UploadStatus.Failed
    requires req.offset == w.db.uploads[id].offset && req.body != []
    ensures Admitted(w, id, caller, req)
    ensures Patch(env, w, id, caller, req, storedId, now).world.db.uploads[id].status in {UploadStatus.Complete, UploadStatus.Failed}
  {
    FinalizesIff(env, w, id, caller, req, storedId, now);
  }

  /** A mismatch removes the staging file, so a chunk sent to a FAILED
      session at its offset is staged into a new file behind a run of zero
      bytes as long as that offset. */
  lemma RetryAfterMismatchStagesZeros(env: Env, w: World, id: Uuid, body: Bytes)
    requires Consistent(w.db) && id in w.db.uploads && Staging(env, id) !in w.fs.files && body != []
    ensures StagedAfter(env, w, id, body) == Zeros(w.db.uploads[id].offset) + body
  {
    var o := w.db.uploads[id].offset;
    var r := StagedAfter(env, w, id, body);
    assert |r| == o + |body|;
    assert r[..o] == Zeros(o);
    assert r == r[..o] + r[o..o + |body|];
  }

  /** A chunk may run past the declared length: it is written whole, the
      offset ends beyond `upload_length`, and the session is still finalized
      and, when the digest matches, COMPLETE. */
  lemma ChunkMayOvershoot(env: Env, w: World, id: Uuid, caller: User, req: PatchRequest, storedId: Uuid, now: Timestamp)
    requires Consistent(w.db) && Admitted(w, id, caller, req) && req.body != []
    requires w.db.uploads[id].offset + |req.body| > w.db.uploads[id].uploadLength
    requires Sha256Hex(env.hash, StagedAfter(env, w, id, req.body)) == w.db.uploads[id].sha256
    ensures var s := Patch(env, w, id, caller, req, storedId, now);
            && s.response == Ok(w.db.uploads[id].offset + |req.body|)
            && s.world.db.uploads[id].offset > s.world.db.uploads[id].uploadLength
            && s.world.db.uploads[id].status == UploadStatus.Complete
  {
  }

  /** The digest comparison is exact: a declared digest that spells the
      right hash in upper case is a mismatch whenever the hash has a letter
      digit. */
  lemma DigestCompareIsCaseSensitive(env: Env, w: World, id: Uuid, caller: User, req: PatchRequest, storedId: Uuid, now: Timestamp, i: int)
    requires Consistent(w.db) && Admitted(w, id, caller, req) && req.body != []
    requires w.db.uploads[id].offset + |req.body| >= w.db.uploads[id].uploadLength
    requires var d := Sha256Hex(env.hash, StagedAfter(env, w, id, req.body));
             0 <= i < |d| && 'a' <= d[i] <= 'f' && w.db.uploads[id].sha256 == ToUpper(d)
    ensures Patch(env, w, id, caller, req, storedId, now).response == Err(ChecksumMismatch)
  {
    UpperDiffers(Sha256Hex(env.hash, StagedAfter(env, w, id, req.body)), i);
    MismatchFails(env, w, id, caller, req, storedId, now);
  }

  /** The offset is committed before finalization. A request interrupted
      after the first commit and before the staging file is moved leaves a
      RECEIVING session at or past its length with its bytes still staged;
      a probe at that offset reports it and changes nothing, so nothing but
      a further non-empty chunk ever finalizes that session. */
  lemma StrandedBetweenCommits(env: Env, w: World, id: Uuid, caller: User, req: PatchRequest, storedId: Uuid, now: Timestamp, later: Timestamp)
    requires Consistent(w.db) && Admitted(w, id, caller, req) && req.body != []
    requires w.db.uploads[id].offset + |req.body| >= w.db.uploads[id].uploadLength
    ensures var w1 := Received(env, w, id, req.body, now);
            var off := w.db.uploads[id].offset + |req.body|;
            && Consistent(w1.db)
            && w1.db.uploads[id].status == Receiving
            && w1.db.uploads[id].offset >= w1.db.uploads[id].uploadLength
            && Staging(env, id) in w1.fs.files
            && Patch(env, w1, id, caller, PatchRequest(off, []), storedId, later) == Step(Ok(off), w1)
  {
    ChunkIsWrittenAtOffset(env, w, id, req.body, now);
    var w1 := Received(env, w, id, req.body, now);
    assert OwnsUpload(w1.db, id, caller);
    ProbeReportsOffset(env, w1, id, caller, storedId, later);
  }

  /** A probe at a session's offset that the caller owns and that is not
      COMPLETE reports the offset and changes nothing. */
  lemma ProbeReportsOffset(env: Env, v: World, id: Uuid, caller: User, storedId: Uuid, later: Timestamp)
    requires Consistent(v.db) && OwnsUpload(v.db, id, caller) && v.db.uploads[id].status != UploadStatus.Complete
    ensures Patch(env, v, id, caller, PatchRequest(v.db.uploads[id].offset, []), storedId, later)
            == Step(Ok(v.db.uploads[id].offset), v)
  {
  }
}
