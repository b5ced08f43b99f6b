/** The mobile client's chunk loop played against the server's chunk
    handler. Requests are sequential; the first refused one makes the
    client's `API.request` throw, which ends the upload. The main result:
    for any non-empty recording, the session the client declares accepts
    every chunk the client sends, and the last one publishes exactly the
    recorded bytes. */
module Pairing {
  import opened Base
  import opened Digest
  import opened Models
  import opened Schemas
  import opened Storage
  import opened Store
  import opened Uploads
  import opened UploadLaws
  import opened Client

  /** The responses to a run of PATCH requests (up to and including the
      first refusal) and the state after the last one sent. */
  datatype Run = Run(responses: seq<Result<int>>, world: World)

  /** Sends `reqs` to session `id` one after another. A refusal makes
      `API.request` throw (`Settle`), which ends the loop after it. */
  function Replay(env: Env, w: World, id: Uuid, caller: User, reqs: seq<PatchRequest>, storedId: Uuid, now: Timestamp): (run: Run)
    requires Consistent(w.db)
    ensures |run.responses| <= |reqs|
    ensures forall i :: 0 <= i < |run.responses| - 1 ==> run.responses[i].Ok?
    ensures |run.responses| < |reqs| ==> |run.responses| > 0 && run.responses[|run.responses| - 1].Err?
    decreases |reqs|
  {
    if reqs == [] then Run([], w)
    else
      var s := Patch(env, w, id, caller, reqs[0], storedId, now);
      PatchKeepsConsistent(env, w, id, caller, reqs[0], storedId, now);
      if Settle(s.response).Threw? then Run([s.response], s.world)
      else
        var rest := Replay(env, s.world, id, caller, reqs[1..], storedId, now);
        ResponsesCons(s.response, rest.responses);
        Run([s.response] + rest.responses, rest.world)
  }

  /** An accepted response followed by responses that are accepted but for
      the last is again accepted but for the last. */
  lemma ResponsesCons(first: Result<int>, rest: seq<Result<int>>)
    requires first.Ok?
    requires forall i :: 0 <= i < |rest| - 1 ==> rest[i].Ok?
    ensures var rs := [first] + rest;
            forall i :: 0 <= i < |rs| - 1 ==> rs[i].Ok?
  {
    var rs := [first] + rest;
    assert forall i :: 1 <= i < |rs| ==> rs[i] == rest[i - 1];
  }

  /** Replaying one request more: an accepted first request is followed by
      the replay of the rest from the state it leaves. */
  lemma ReplayCons(env: Env, w: World, id: Uuid, caller: User, req: PatchRequest, rest: seq<PatchRequest>, storedId: Uuid, now: Timestamp)
    requires Consistent(w.db)
    ensures var s := Patch(env, w, id, caller, req, storedId, now);
            && Consistent(s.world.db)
            && (s.response.Ok? ==>
                  var tail := Replay(env, s.world, id, caller, rest, storedId, now);
                  Replay(env, w, id, caller, [req] + rest, storedId, now) == Run([s.response] + tail.responses, tail.world))
            && (rest == [] ==> Replay(env, w, id, caller, [req], storedId, now) == Run([s.response], s.world))
  {
    PatchKeepsConsistent(env, w, id, caller, req, storedId, now);
    assert ([req] + rest)[0] == req && ([req] + rest)[1..] == rest;
    var s := Patch(env, w, id, caller, req, storedId, now);
    if rest == [] {
      assert [req][1..] == [];
      assert [s.response] + [] == [s.response];
    }
  }

  /** A session that has staged the first `o` bytes of `buffer` and expects
      the whole buffer. */
  predicate ReadyFor(env: Env, w: World, id: Uuid, caller: User, buffer: Bytes, o: nat)
    requires Consistent(w.db)
  {
    && OwnsUpload(w.db, id, caller)
    && w.db.uploads[id].status != UploadStatus.Complete
    && w.db.uploads[id].offset == o
    && w.db.uploads[id].uploadLength == |buffer|
    && w.db.uploads[id].sha256 == Sha256Hex(env.hash, buffer)
    && o <= |buffer|
    && ContentOf(w.fs, Staging(env, id)) == buffer[..o]
  }

  /** What a completed upload of `buffer` into a session declared like `u`
      leaves behind: the session COMPLETE at the buffer's length, the staging
      file gone, the destination holding the buffer, one catalog entry with
      its digest, size and `storage_uri`, and a video's segment row (when
      `segmentRow` says it existed) updated to the same size and digest. */
  predicate Landed(env: Env, v: World, id: Uuid, u: UploadSession, buffer: Bytes, storedId: Uuid, segmentRow: bool) {
    && id in v.db.uploads
    && v.db.uploads[id].status == UploadStatus.Complete
    && v.db.uploads[id].offset == |buffer|
    && Destination(env, u) in v.fs.files && v.fs.files[Destination(env, u)] == buffer
    && Staging(env, id) !in v.fs.files
    && storedId in v.db.storedFiles
    && v.db.storedFiles[storedId].sha256 == Some(Sha256Hex(env.hash, buffer))
    && v.db.storedFiles[storedId].bytes == |buffer|
    && v.db.storedFiles[storedId].storageUri == "segments/" + u.segmentId + "/" + u.filename
    && (u.fileType == VideoMp4 && segmentRow ==>
          && u.segmentId in v.db.segments
          && v.db.segments[u.segmentId].fileSizeBytes == Some(|buffer|)
          && v.db.segments[u.segmentId].sha256 == Some(Sha256Hex(env.hash, buffer)))
  }

  /** The chunk the client sends at offset `o`. */
  function ChunkAt(buffer: Bytes, o: nat): (req: PatchRequest)
    requires o < |buffer|
    ensures Chunks(buffer, o) == [req] + Chunks(buffer, Min(o + ChunkSize, |buffer|))
  {
    PatchRequest(o, buffer[o..Min(o + ChunkSize, |buffer|)])
  }

  /** The client's chunk at the session's offset is admitted and lands right
      after the bytes already staged. */
  lemma ChunkAtAdmitted(env: Env, w: World, id: Uuid, caller: User, buffer: Bytes, o: nat)
    requires Consistent(w.db) && ReadyFor(env, w, id, caller, buffer, o) && o < |buffer|
    ensures var req := ChunkAt(buffer, o);
            && Admitted(w, id, caller, req) && req.body != []
            && StagedAfter(env, w, id, req.body) == buffer[..Min(o + ChunkSize, |buffer|)]
  {
    var end := Min(o + ChunkSize, |buffer|);
    WriteAtEnd(buffer[..o], buffer[o..end]);
    assert buffer[..o] + buffer[o..end] == buffer[..end];
  }

  /** A chunk that stops short of the end advances the session to the
      chunk's end and leaves it ready for the next one. */
  lemma MiddleChunkAdvances(env: Env, w: World, id: Uuid, caller: User, buffer: Bytes, o: nat, storedId: Uuid, now: Timestamp)
    requires Consistent(w.db) && ReadyFor(env, w, id, caller, buffer, o)
    requires o + ChunkSize < |buffer| && storedId !in w.db.storedFiles
    ensures var s := Patch(env, w, id, caller, ChunkAt(buffer, o), storedId, now);
            var w1 := s.world;
            var u := w.db.uploads[id];
            && s.response == Ok(o + ChunkSize)
            && Consistent(w1.db) && ReadyFor(env, w1, id, caller, buffer, o + ChunkSize)
            && storedId !in w1.db.storedFiles && w1.db.segments == w.db.segments
            && w1.db.uploads[id].segmentId == u.segmentId && w1.db.uploads[id].filename == u.filename
            && w1.db.uploads[id].fileType == u.fileType
  {
    var req := ChunkAt(buffer, o);
    ChunkAtAdmitted(env, w, id, caller, buffer, o);
    FinalizesIff(env, w, id, caller, req, storedId, now);
    ChunkIsWrittenAtOffset(env, w, id, req.body, now);
  }

  /** The chunk that reaches the end of the buffer publishes it. */
  lemma LastChunkLands(env: Env, w: World, id: Uuid, caller: User, buffer: Bytes, o: nat, storedId: Uuid, now: Timestamp)
    requires Consistent(w.db) && ReadyFor(env, w, id, caller, buffer, o)
    requires o < |buffer| <= o + ChunkSize && storedId !in w.db.storedFiles
    ensures var req := ChunkAt(buffer, o);
            var s := Patch(env, w, id, caller, req, storedId, now);
            var u := w.db.uploads[id];
            && s.response == Ok(|buffer|)
            && Landed(env, s.world, id, u, buffer, storedId, u.segmentId in w.db.segments)
  {
    var req := ChunkAt(buffer, o);
    var u := w.db.uploads[id];
    ChunkAtAdmitted(env, w, id, caller, buffer, o);
    assert buffer[..|buffer|] == buffer;
    var w1 := Received(env, w, id, req.body, now);
    var u1 := w1.db.uploads[id];
    assert u1 == u.(offset := |buffer|, status := Receiving, updatedAt := now);
    assert w1.fs.files[Staging(env, id)] == buffer;
    assert Patch(env, w, id, caller, req, storedId, now) == Finalized(env, w1, id, storedId, now);
    FinalizedPublishes(env, w1, id, storedId, now);
  }

  /** Session `id` shares with `u` what decides where the upload lands:
      the segment, the filename and the type. */
  predicate Declares(w: World, id: Uuid, u: UploadSession) {
    && id in w.db.uploads
    && w.db.uploads[id].segmentId == u.segmentId
    && w.db.uploads[id].filename == u.filename
    && w.db.uploads[id].fileType == u.fileType
  }

  /** Replaying the client's chunks from offset `o` on: each is accepted
      with the offset it ends at, and the upload lands. */
  predicate LoopAccepted(env: Env, w: World, id: Uuid, caller: User, buffer: Bytes, o: nat, storedId: Uuid, now: Timestamp,
                         u: UploadSession, segmentRow: bool)
    requires Consistent(w.db) && o <= |buffer|
  {
    var cs := Chunks(buffer, o);
    var run := Replay(env, w, id, caller, cs, storedId, now);
    && ReportsEnds(run.responses, cs)
    && Landed(env, run.world, id, u, buffer, storedId, segmentRow)
  }

  /** The loop's last chunk. */
  lemma LastStep(env: Env, w: World, id: Uuid, caller: User, buffer: Bytes, o: nat, storedId: Uuid, now: Timestamp, u: UploadSession)
    requires Consistent(w.db) && ReadyFor(env, w, id, caller, buffer, o) && Declares(w, id, u)
    requires o < |buffer| <= o + ChunkSize && storedId !in w.db.storedFiles
    ensures LoopAccepted(env, w, id, caller, buffer, o, storedId, now, u, u.segmentId in w.db.segments)
  {
    var req := ChunkAt(buffer, o);
    LastChunkLands(env, w, id, caller, buffer, o, storedId, now);
    assert Chunks(buffer, o) == [req];
    ReplayCons(env, w, id, caller, req, [], storedId, now);
  }

  /** Every response reports the offset its request ends at. */
  predicate ReportsEnds(responses: seq<Result<int>>, cs: seq<PatchRequest>) {
    && |responses| == |cs|
    && forall i :: 0 <= i < |cs| ==> responses[i] == Ok(cs[i].offset + |cs[i].body|)
  }

  lemma ReportsEndsCons(req: PatchRequest, tail: seq<PatchRequest>, rest: seq<Result<int>>)
    requires ReportsEnds(rest, tail)
    ensures ReportsEnds([Ok(req.offset + |req.body|)] + rest, [req] + tail)
  {
    var rs := [Ok(req.offset + |req.body|)] + rest;
    var cs := [req] + tail;
    forall i | 0 < i < |cs|
      ensures rs[i] == Ok(cs[i].offset + |cs[i].body|)
    {
      assert cs[i] == tail[i - 1] && rs[i] == rest[i - 1];
    }
  }

  /** A chunk short of the end, followed by a loop that completes from
      where it leaves the session. */
  lemma MiddleStep(env: Env, w: World, id: Uuid, caller: User, buffer: Bytes, o: nat, storedId: Uuid, now: Timestamp,
                   u: UploadSession, segmentRow: bool)
    requires Consistent(w.db) && o + ChunkSize < |buffer|
    requires var s := Patch(env, w, id, caller, ChunkAt(buffer, o), storedId, now);
             && s.response == Ok(o + ChunkSize) && Consistent(s.world.db)
             && LoopAccepted(env, s.world, id, caller, buffer, o + ChunkSize, storedId, now, u, segmentRow)
    ensures LoopAccepted(env, w, id, caller, buffer, o, storedId, now, u, segmentRow)
  {
    var req := ChunkAt(buffer, o);
    var w1 := Patch(env, w, id, caller, req, storedId, now).world;
    var tail := Chunks(buffer, o + ChunkSize);
    ReplayCons(env, w, id, caller, req, tail, storedId, now);
    var rest := Replay(env, w1, id, caller, tail, storedId, now);
    ReportsEndsCons(req, tail, rest.responses);
  }

  /** From any point of the client's loop on, every chunk is accepted with
      the offset it ends at, and the last one publishes the buffer. */
  lemma {:induction false} RestOfLoopAccepted(env: Env, w: World, id: Uuid, caller: User, buffer: Bytes, o: nat, storedId: Uuid, now: Timestamp,
                                              u: UploadSession)
    requires Consistent(w.db) && ReadyFor(env, w, id, caller, buffer, o) && Declares(w, id, u) && o < |buffer|
    requires storedId !in w.db.storedFiles
    ensures LoopAccepted(env, w, id, caller, buffer, o, storedId, now, u, u.segmentId in w.db.segments)
    decreases |buffer| - o
  {
    if |buffer| <= o + ChunkSize {
      LastStep(env, w, id, caller, buffer, o, storedId, now, u);
    } else {
      MiddleChunkAdvances(env, w, id, caller, buffer, o, storedId, now);
      var w1 := Patch(env, w, id, caller, ChunkAt(buffer, o), storedId, now).world;
      RestOfLoopAccepted(env, w1, id, caller, buffer, o + ChunkSize, storedId, now, u);
      MiddleStep(env, w, id, caller, buffer, o, storedId, now, u, u.segmentId in w.db.segments);
    }
  }

  /** The state `create_upload` leaves after opening session `newId` for
      the declaration `decl`. */
  function Opened(w: World, decl: UploadCreateRequest, newId: Uuid, created: Timestamp): World {
    World(w.db.(uploads := w.db.uploads[newId := SessionFor(newId, decl, created)]), w.fs)
  }

  /** The session opened for the client's declaration is ready for the
      first chunk. */
  lemma DeclaredSessionReady(env: Env, w: World, caller: User, tripId: Uuid, segmentId: Uuid, buffer: Bytes,
                             newId: Uuid, created: Timestamp)
    requires Consistent(w.db)
    requires MayCreateUpload(w.db, caller, UploadDeclaration(tripId, segmentId, buffer, env.hash))
    requires Staging(env, newId) !in w.fs.files
    ensures var w0 := Opened(w, UploadDeclaration(tripId, segmentId, buffer, env.hash), newId, created);
            Consistent(w0.db) && ReadyFor(env, w0, newId, caller, buffer, 0)
  {
    assert buffer[..0] == [];
  }

  /** The last chunk of a non-empty buffer ends at the buffer's length. */
  lemma LastChunkEndsAtLength(buffer: Bytes)
    requires buffer != []
    ensures var cs := Chunks(buffer, 0);
            |cs| > 0 && cs[|cs| - 1].offset + |cs[|cs| - 1].body| == |buffer|
  {
    var cs := Chunks(buffer, 0);
    ChunksConcat(buffer, 0);
    ChunksContiguous(buffer, 0);
    var last := cs[|cs| - 1];
    assert cs == cs[..|cs| - 1] + [last];
    ConcatAppend(cs[..|cs| - 1], last);
  }

  /** Responses that report the ends of a run of requests are all
      successes, and the last reports where the last request ends. */
  lemma LastResponseIsEnd(responses: seq<Result<int>>, cs: seq<PatchRequest>)
    requires cs != [] && ReportsEnds(responses, cs)
    ensures |responses| > 0 && responses[|responses| - 1] == Ok(cs[|cs| - 1].offset + |cs[|cs| - 1].body|)
    ensures forall i :: 0 <= i < |responses| ==> responses[i].Ok?
  {
  }

  /** Responses that report the ends of the loop's chunks are as many as
      the chunks, all successes, and the last one is the buffer's length:
      the offset the client reads from the last 204 response. */
  lemma AcceptedRunEndsAtLength(responses: seq<Result<int>>, buffer: Bytes)
    requires buffer != [] && ReportsEnds(responses, Chunks(buffer, 0))
    ensures |responses| == |Chunks(buffer, 0)| > 0
    ensures forall i :: 0 <= i < |responses| ==> responses[i].Ok?
    ensures responses[|responses| - 1] == Ok(|buffer|)
  {
    LastChunkEndsAtLength(buffer);
    LastResponseIsEnd(responses, Chunks(buffer, 0));
  }

  /** The client's whole upload, starting from the session that
      `create_upload` opens for the client's declaration: the loop's run of
      PATCH requests is accepted — each response reports where its chunk
      ends (so, by `AcceptedRunEndsAtLength`, the last reports the buffer's
      length) — and the upload lands: the file
      `segments/<segment_id>/segment.mp4` holds exactly the recorded bytes,
      its catalog entry carries their digest and size, and the segment row
      takes the same size and digest. */
  lemma ClientUploadCompletes(env: Env, w: World, caller: User, tripId: Uuid, segmentId: Uuid, buffer: Bytes,
                              newId: Uuid, storedId: Uuid, created: Timestamp, now: Timestamp)
    requires Consistent(w.db) && buffer != []
    requires MayCreateUpload(w.db, caller, UploadDeclaration(tripId, segmentId, buffer, env.hash))
    requires Staging(env, newId) !in w.fs.files && storedId !in w.db.storedFiles
    ensures var decl := UploadDeclaration(tripId, segmentId, buffer, env.hash);
            var w0 := Opened(w, decl, newId, created);
            var u := SessionFor(newId, decl, created);
            && Consistent(w0.db)
            && LoopAccepted(env, w0, newId, caller, buffer, 0, storedId, now, u, true)
            && Destination(env, u) == Join(SegmentDir(env.storageDir, segmentId), "segment.mp4")
  {
    var decl := UploadDeclaration(tripId, segmentId, buffer, env.hash);
    var w0 := Opened(w, decl, newId, created);
    DeclaredSessionReady(env, w, caller, tripId, segmentId, buffer, newId, created);
    var u := SessionFor(newId, decl, created);
    RestOfLoopAccepted(env, w0, newId, caller, buffer, 0, storedId, now, u);
  }
}
