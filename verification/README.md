# BikeRecorder upload engine in Dafny

This project models the core of the BikeRecorder server and of the mobile client's uploader:

- **Resumable upload protocol** (`server/app/routers/uploads.py`):
  - `create_upload` opens a session for a declared file: trip, segment, filename, type, SHA-256 digest and length.
  - `head_upload` reports the session's progress.
  - `patch_upload` accepts one chunk at the session's offset. It writes the chunk into a staging file, advances the offset and commits. Once the offset reaches the declared length, it moves the staging file to `segments/<segment_id>/<filename>` and digests it. On a match it publishes one `StoredFile` catalog entry and completes the session. On a mismatch it deletes the file and fails the session.
- **Storage service** (`server/app/services/storage.py`): paths under the storage directory, offset writes, the streamed 1 MiB-block digest, and the rename-based finalize.
- **Records and request schemas** (`models.py`, `schemas.py`): enumerations, defaults and the `upload_length > 0` validator.
- **Trip and segment handlers** (`routers/trips.py`, `routers/segments.py`):
  - the owner-or-administrator access rule;
  - trip creation, listing and partial update;
  - segment creation with the RECORDING→UPLOADING promotion;
  - segment completion;
  - attaching a metadata document.
- **Mobile client** (`mobile/App.tsx`): the 5 MiB chunk loop of `uploadTrip`, the upload declaration, request headers, server-URL normalisation, the device-registration guard and the reported trip duration.

How the model is built:

- **State.** The store is a `Database` class with one map per table. The file system is a `FileSystem` class holding a map from paths to bytes and a set of directories. The handlers are methods over these two objects.
- **`Patch` function.** `patch_upload` is also a pure function `Uploads.Patch`. It maps the state before a request (a `World` value) to the response and the state after. `Uploads.PatchUpload` is proved to follow `Patch` exactly. The protocol's properties are lemmas about `Patch`.
- **SHA-256.** It is left uninterpreted: every digest is `Hex(hash(bytes))` for a function parameter `hash`.
- **Pairing result.** Module `Pairing` plays the client's chunk loop against `Patch`. The main result, `Pairing.ClientUploadCompletes`, holds for every non-empty recording:
  - the session the client declares accepts every chunk the client sends;
  - each response reports where its chunk ends, so the last reports the recording's length (`Pairing.AcceptedRunEndsAtLength`);
  - the published file holds exactly the recorded bytes;
  - its catalog entry carries the recording's digest and size, and so does the segment row.

Behaviours of the handler that the model keeps as they are:

- **A FAILED session is not terminal.** The handler refuses only COMPLETE sessions (`server/app/routers/uploads.py`, lines 78-79). A FAILED session accepts a chunk at its offset, which finalizes it again (`UploadLaws.FailedSessionAcceptsChunks`). The staging file is gone by then, so the new chunk is staged behind zeros (`UploadLaws.RetryAfterMismatchStagesZeros`).
- **The offset can pass the declared length.** The handler finalizes on `offset >= upload_length` and writes the whole chunk, so the offset can end beyond the length (`UploadLaws.ChunkMayOvershoot`).
- **The digest comparison is case-sensitive.** The handler compares the computed lower-case digest with the declared one as strings, so a digest declared in upper case fails (`UploadLaws.DigestCompareIsCaseSensitive`).
- **Finalization is not atomic.** The offset is committed before finalization, in a separate step. The database between the two commits is that of `Uploads.Received`; the file system keeps changing during finalization. `UploadLaws.StrandedBetweenCommits` shows what that state admits when the request stops before the staging file is moved.

## Model

| member | source | states |
|---|---|---|
| Digest.Hex | server/app/services/storage.py:29 | `hexdigest()` renders each digest byte as two lower-case hex digits |
| Digest.UnhexHex | server/app/services/storage.py:29 | the hex rendering loses nothing: decoding it gives back the raw digest |
| Digest.HexInjective | server/app/routers/uploads.py:99 | comparing hex digests is the same as comparing the raw digests |
| Digest.UpperDiffers | server/app/routers/uploads.py:99 | a lower-case hex string with a letter digit differs from its upper-case spelling |
| Digest.NewHasher | server/app/services/storage.py:25 | a fresh `hashlib.sha256()` has absorbed nothing |
| Digest.Hasher.Update | server/app/services/storage.py:28 | `update(chunk)` appends the chunk to what the hasher has absorbed |
| Models.ParseUserRole | server/app/models.py:9-11 | a role parses exactly from "user" and "admin", back to the member with that value |
| Models.ParseTripStatus | server/app/models.py:42-47 | a trip status parses exactly from its five values |
| Models.ParseFileType | server/app/models.py:84-89 | a file type parses exactly from its five values, `video_mp4` among them |
| Models.ParseUploadStatus | server/app/models.py:104-108 | an upload status parses exactly from pending, receiving, complete, failed |
| Models.EnumRoundTrips | server/app/models.py:9-108 | every enumeration member's value parses back to that member, so the values are distinct |
| Models.NewTrip | server/app/models.py:50-59 | a new trip is RECORDING with no end time, duration or distance |
| Models.NewStoredFile | server/app/models.py:92-99 | a new stored file has no digest and 0 bytes until set |
| Models.NewUploadSession | server/app/models.py:111-122 | a new session is PENDING at offset 0 and keeps every declared column |
| Schemas.MinimalSegmentCreate | server/app/schemas.py:67-74 | a segment request with only `expected_bytes` has index 0 and no codec, size or rate fields |
| Schemas.ValidateUploadCreate | server/app/schemas.py:94-100 | an upload declaration passes unchanged iff `upload_length > 0`; otherwise 422 |
| Schemas.ToUploadRead | server/app/schemas.py:103-112 | the upload view shows the declared columns together with `offset` and `status` |
| Storage.Join | server/app/services/storage.py:8-9 | `dir / name` adds one component whose parent is `dir` |
| Storage.UploadPath | server/app/services/storage.py:8-9 | the staging path is `storage_dir / "uploads" / <upload_id>`: the storage directory followed by exactly those two components |
| Storage.StagingPathsSeparate | server/app/services/storage.py:8-9 | staging paths of distinct uploads differ, and no staging path is a segment file's path |
| Storage.RelativeTo | server/app/routers/uploads.py:108 | `relative_to` succeeds iff the base is a prefix, and then base + result is the path |
| Storage.PathString | server/app/routers/uploads.py:108 | `str()` of a relative path starts with its first component, and the empty path renders as "." |
| Storage.PathStringSeparators | server/app/routers/uploads.py:108 | `str()` joins the components with "/": a path of `n` slash-free components renders with exactly `n - 1` slashes |
| Storage.SegmentFileUri | server/app/routers/uploads.py:95-108 | a file under a segment has the `storage_uri` `segments/<segment_id>/<name>` |
| Storage.Ancestry | server/app/services/storage.py:12-13 | `mkdir(parents=True)` leaves the directory and its parent existing |
| Storage.EmptyWriteKeepsFile | server/app/services/storage.py:16-21 | seeking and writing nothing leaves the file's bytes and length as they were, even past its end |
| Storage.WriteAt | server/app/services/storage.py:16-21 | after seek and write: the window holds the data; bytes before and after it are kept; a gap reads as zeros; the length is the larger of the old length and the window's end; writing nothing leaves the bytes and the length as they were, whatever the offset |
| Storage.WriteAtEnd | server/app/services/storage.py:17-20 | a write at the end of the file appends |
| Storage.SpecsKeepWellFormed | server/app/services/storage.py:12-37 | directory creation, chunk writes, finalize and unlink keep every file in an existing directory |
| Storage.FileSystem.MakeDirs | server/app/routers/uploads.py:96 | the directory and all its ancestors exist afterwards; files are unchanged |
| Storage.FileSystem.EnsureParent | server/app/services/storage.py:12-13 | the parent directory and its ancestors exist afterwards |
| Storage.FileSystem.WriteChunk | server/app/services/storage.py:16-21 | creates the parent and the file if missing (an empty one for an empty write), writes at the offset without truncating, returns the data's length |
| Storage.FileSystem.ComputeSha256 | server/app/services/storage.py:24-29 | the block loop digests the whole file: the result is the hex digest of its full contents |
| Storage.FileSystem.FinalizeUpload | server/app/services/storage.py:32-37 | the source no longer exists; the destination holds its former bytes, replacing any earlier file; returns their digest and size |
| Storage.FileSystem.Unlink | server/app/routers/uploads.py:100 | the file is gone, and a missing file is no error |
| Storage.FileSystem.WriteBytes | server/app/routers/segments.py:37 | the file holds exactly the written bytes |
| Store.SessionUpdateKeepsConsistent | server/app/routers/uploads.py:89-93 | rewriting a session with the same trip and a non-negative offset keeps the store consistent |
| Store.SegmentUpdateKeepsConsistent | server/app/routers/uploads.py:113-118 | rewriting a segment under its own key keeps the store consistent |
| Store.OrderBy | server/app/routers/trips.py:64-72 | the selected rows, each exactly once, ordered by the key (ascending or descending) |
| Uploads.CreateUpload | server/app/routers/uploads.py:17-49 | opens a session iff trip and segment exist, the segment is the trip's and the trip is the caller's (no administrator exception); otherwise 404 and no change |
| Uploads.NewSessionIsPending | server/app/routers/uploads.py:27-35 | the new session is PENDING at offset 0 and carries the declared filename, type, digest and length |
| Uploads.HeadUpload | server/app/routers/uploads.py:52-64 | returns the stored offset and length iff the caller owns the upload, else 404; changes nothing |
| Uploads.Admit | server/app/routers/uploads.py:75-81 | an admitted request names the stored session |
| Uploads.FinalizeSession | server/app/routers/uploads.py:94-121 | the live finalize step leaves exactly the state and response of the `Finalized` specification |
| Uploads.PatchUpload | server/app/routers/uploads.py:67-124 | the live handler leaves exactly the state and response of `Patch` |
| UploadLaws.RejectionOrder | server/app/routers/uploads.py:75-81 | rejections in order: foreign or missing 404, then COMPLETE 409, then offset mismatch 409; each leaves the state unchanged |
| UploadLaws.AdmittedMeans | server/app/routers/uploads.py:75-81 | a request is admitted iff the caller owns a session that is not COMPLETE and names its offset |
| UploadLaws.OnlyAdmittedChange | server/app/routers/uploads.py:75-86 | only an admitted request with a non-empty body changes any state |
| UploadLaws.EmptyBodyProbe | server/app/routers/uploads.py:82-86 | an admitted empty body reports the stored offset and changes nothing |
| UploadLaws.ChunkIsWrittenAtOffset | server/app/routers/uploads.py:87-93 | the body lands at the stored offset with earlier bytes kept; the offset grows by exactly its length; the session is RECEIVING; no other session, row or existing file changes, and the only new path is the staging file with its directories |
| UploadLaws.FinalizesIff | server/app/routers/uploads.py:89-94 | an admitted chunk finalizes iff the advanced offset reaches the declared length; otherwise the response is the new offset and the session is RECEIVING |
| UploadLaws.MismatchFails | server/app/routers/uploads.py:94-104 | on a digest mismatch: 422, session FAILED, no catalog entry or segment change, neither destination nor staging file left |
| UploadLaws.FinalizedPublishes | server/app/routers/uploads.py:105-121 | finalizing staged bytes whose digest matches: exactly one new catalog entry with that digest, size and location, the segment row updated as `SegmentsAfterPublish` says, the session COMPLETE, the bytes moved from staging to the destination |
| UploadLaws.MatchPublishes | server/app/routers/uploads.py:105-121 | on a match: exactly one new catalog entry with the digest, size and `segments/<segment_id>/<filename>`, the other entries unchanged; the segment changes only for a video, and then takes that size and digest |
| UploadLaws.MatchCompletes | server/app/routers/uploads.py:94-124 | on a match: the response is the advanced offset, the session is COMPLETE at it, the destination holds the staged bytes and the staging file is gone |
| UploadLaws.FinalizedKeepsConsistent | server/app/routers/uploads.py:94-124 | finalization, on either outcome, keeps the store consistent |
| UploadLaws.PatchKeepsConsistent | server/app/routers/uploads.py:67-124 | every request keeps the store consistent |
| UploadLaws.FinalizedFrame | server/app/routers/uploads.py:94-121 | finalize rewrites only the session's status (COMPLETE iff success, FAILED iff failure) and only the staging and destination files |
| UploadLaws.PatchUploadsFrame | server/app/routers/uploads.py:67-124 | a request leaves the sessions unchanged, or rewrites only its own with the offset advanced by the body |
| UploadLaws.OnlyOwnSessionMoves | server/app/routers/uploads.py:67-124 | no session appears or vanishes, other sessions are untouched, and no offset decreases |
| UploadLaws.CompleteIsFinal | server/app/routers/uploads.py:78-79 | no request changes a COMPLETE session |
| UploadLaws.NewSessionTracks | server/app/routers/uploads.py:27-37 | a new PENDING session with nothing staged keeps staging in step with offsets |
| UploadLaws.ReceivingKeepsTracked | server/app/routers/uploads.py:87-93 | a chunk that does not reach the length keeps staging files as long as their sessions' offsets |
| UploadLaws.FinalizingKeepsTracked | server/app/routers/uploads.py:94-124 | a chunk that reaches the length keeps staging files as long as their open sessions' offsets, and finalized sessions at or past their length |
| UploadLaws.PatchKeepsStagingTracked | server/app/routers/uploads.py:87-121 | every request keeps each PENDING or RECEIVING session's staging file exactly `offset` bytes long, and finalized sessions at or past their length |
| UploadLaws.FailedSessionAcceptsChunks | server/app/routers/uploads.py:78 | a FAILED session is admitted and each non-empty chunk finalizes it again |
| UploadLaws.RetryAfterMismatchStagesZeros | server/app/services/storage.py:16-21 | after a mismatch removed the staging file, a non-empty retry is staged behind `offset` zero bytes |
| UploadLaws.ChunkMayOvershoot | server/app/routers/uploads.py:94 | a chunk past the declared length is written whole and can still complete the session |
| UploadLaws.DigestCompareIsCaseSensitive | server/app/routers/uploads.py:99 | a declared digest that is the right one in upper case gives 422 |
| UploadLaws.StrandedBetweenCommits | server/app/routers/uploads.py:87-94 | between the two commits, a session is RECEIVING at or past its length with its bytes staged, and a probe reports it without change |
| Trips.EnsureTripAccess | server/app/routers/trips.py:24-26 | access is granted iff the caller owns the trip or is an administrator; otherwise 403 |
| Trips.FindTrip | server/app/routers/trips.py:105-108 | 404 for a missing trip, then 403 without access; otherwise the stored trip |
| Trips.CreateTrip | server/app/routers/trips.py:29-55 | creates a trip iff the device exists and is the caller's (else 404, no change); the trip is the caller's and RECORDING |
| Trips.CreatedTripIsRecording | server/app/routers/trips.py:38-55 | a created trip is owned by the caller, accessible to them and RECORDING |
| Trips.ListOwner | server/app/routers/trips.py:65-68 | the listed owner is the caller, unless an administrator names a user |
| Trips.NonAdminListsOwnTrips | server/app/routers/trips.py:65-68 | a non-administrator lists their own trips whatever user id is passed |
| Trips.ListSegments | server/app/routers/trips.py:72-93 | every segment of the trip exactly once, by index ascending |
| Trips.DetailsListed | server/app/routers/trips.py:58-96 | one detail per id of the ordered listing, in its order, is a listing of the owner's trips, each exactly once, latest start first |
| Trips.ListTrips | server/app/routers/trips.py:58-96 | every trip of the owner exactly once, latest start first, each with its listed segments |
| Trips.GetTrip | server/app/routers/trips.py:99-130 | the trip with its listed segments after the 404/403 checks |
| Trips.ApplyTripUpdate | server/app/routers/trips.py:144-151 | each supplied field replaces the stored one and every other field is kept |
| Trips.TripUpdateLaws | server/app/routers/trips.py:144-151 | an empty update is the identity, and an update is idempotent |
| Trips.UpdateTrip | server/app/routers/trips.py:133-163 | after the checks, only the trip row changes, to the partial update |
| Trips.SegmentFor | server/app/routers/trips.py:177-186 | the new segment stores `expected_bytes` as its size and the declared index and codec fields |
| Trips.PromoteOnSegment | server/app/routers/trips.py:190-191 | RECORDING becomes UPLOADING and any other status stays |
| Trips.CreateSegment | server/app/routers/trips.py:166-202 | after the checks, the segment is added and the trip is promoted; nothing else changes |
| Trips.CompleteSegment | server/app/routers/trips.py:220-226 | supplied size, duration and digest replace the stored ones; the completion time is always set; nothing else changes |
| Trips.EmptyCompletionOnlyStamps | server/app/routers/trips.py:220-226 | an empty completion only sets the completion time |
| Trips.FindTripSegment | server/app/routers/trips.py:213-219 | the trip checks first, then 404 for a missing segment or one of another trip |
| Trips.FinalizeSegment | server/app/routers/trips.py:205-241 | the segment is completed, and the trip's status changes only when the payload gives one |
| Segments.MetadataFilename | server/app/routers/segments.py:33 | a missing or empty filename becomes `metadata_<type>.txt` |
| Segments.MetadataFilenameNotEmpty | server/app/routers/segments.py:33 | a document is never stored under an empty name |
| Segments.CheckAttach | server/app/routers/segments.py:23-32 | 404 segment, then 404 trip, then 403, then 400 for a type outside the metadata types |
| Segments.VideoAndThumbnailRefused | server/app/routers/segments.py:31-32 | with access settled, only video and thumbnail are refused, with 400 |
| Segments.MetadataFile | server/app/routers/segments.py:37-45 | the catalog entry's digest and size are those of the written bytes, and its `storage_uri` is `segments/<segment_id>/<filename>` |
| Segments.AttachMetadata | server/app/routers/segments.py:16-55 | after the checks, writes the document and adds exactly one catalog entry for it; on an error nothing changes |
| Client.NormalizeServerUrl | mobile/App.tsx:97 | one trailing slash, if any, is removed |
| Client.OnlyOneSlashStripped | mobile/App.tsx:97 | a URL ending in two slashes keeps one |
| Client.BaseHeaders | mobile/App.tsx:54-59 | JSON content type always; a bearer token header iff a non-empty token is held |
| Client.Request | mobile/App.tsx:50-66 | throws iff no server URL; otherwise the URL is server + path and the caller's headers override the base headers |
| Client.Settle | mobile/App.tsx:67-71 | a response that is not ok makes the request throw; `Pairing.Replay` ends the chunk loop by it |
| Client.DeviceRegistration | mobile/App.tsx:193-210 | a registration is sent exactly when no device id is known and a token is held; it throws without a server URL and otherwise goes to `/devices/register` |
| Client.RegistrationIsAuthorized | mobile/App.tsx:193-210 | a registration that is sent carries `Bearer <token>` and only the base headers |
| Client.UploadDeclaration | mobile/App.tsx:317-331 | the declared length and digest are those of the buffer that is then chunked |
| Client.EmptyRecordingIsRefused | mobile/App.tsx:318-331 | the declaration passes the server's validation iff the recording is non-empty |
| Client.ChunksConcat | mobile/App.tsx:338-353 | the chunks concatenate to the rest of the buffer |
| Client.ChunksBounded | mobile/App.tsx:336-339 | every chunk is non-empty, at most 5 MiB, and the buffer's slice at its offset |
| Client.ChunksContiguous | mobile/App.tsx:337-352 | each chunk's offset is the start plus the lengths of the chunks before it |
| Client.ChunkLoop | mobile/App.tsx:336-353 | the loop sends exactly the chunk sequence, and the chunks concatenate to the buffer |
| Client.TripDuration | mobile/App.tsx:386-389 | the duration is never below the timer, and is the timer or at most the elapsed seconds |
| Pairing.Replay | mobile/App.tsx:338-353 | sequential PATCHes; a refusal makes `API.request` throw (`Client.Settle`), which ends the loop after it: every response but the last is a success, and a run shorter than the requests ends in a refusal |
| Pairing.ChunkAtAdmitted | mobile/App.tsx:339-346 | the client's chunk at the session's offset is admitted and lands after the staged bytes |
| Pairing.MiddleChunkAdvances | server/app/routers/uploads.py:87-93 | a chunk short of the end advances the session and leaves it ready for the next one |
| Pairing.LastChunkLands | server/app/routers/uploads.py:94-124 | the chunk that reaches the end publishes the buffer |
| Pairing.RestOfLoopAccepted | mobile/App.tsx:336-353 | from any point of the loop, every chunk is accepted with the offset it ends at, and the upload lands |
| Pairing.DeclaredSessionReady | server/app/routers/uploads.py:27-37 | the session opened for the client's declaration is ready for the first chunk |
| Pairing.LastChunkEndsAtLength | mobile/App.tsx:338-353 | the last chunk of a non-empty buffer ends at its length |
| Pairing.AcceptedRunEndsAtLength | mobile/App.tsx:338-353 | responses that report where each chunk ends are one per chunk, all successes, and the last is the buffer's length |
| Pairing.ClientUploadCompletes | mobile/App.tsx:318-353 | for any non-empty recording, every chunk is accepted with the offset where it ends, and file, catalog entry and segment row carry its bytes, size and digest |
| Scenarios.BikeRecorderIsOneChunk | server/tests/test_api.py:59-80 | the 13-byte test recording is sent as one chunk at offset 0 |
| Scenarios.SingleChunkUploadCompletes | server/tests/test_api.py:59-80 | one PATCH of "bike recorder" answers offset 13 and completes the session with the bytes published |
| Scenarios.WrongBytesFail | server/app/routers/uploads.py:94-104 | 13 other bytes sent to that session give 422, FAILED, no catalog entry and no destination file |
| Scenarios.GpsTrackAttachAccepted | server/tests/test_api.py:89-94 | a `gps_jsonl` attach by the trip's owner passes every check and defaults to `metadata_gps_jsonl.txt` |

## Left out

- SHA-256 itself (FIPS 180-4) is not implemented. It is the uninterpreted parameter `hash`, so properties that need a match or a mismatch take it as a hypothesis.
- Concurrency is left out. Requests are sequential: the `await request.body()`, the lack of locking, and concurrent PATCHes against one session are not modelled. The two commits of `patch_upload` are modelled as separate steps, not as a transaction that can roll back.
- Clocks and identifiers are parameters: `now`, `created` and the ids of new rows. Every chunk of one client run is given the same `now` and the same candidate catalog id.
- Floating-point columns (`fps`, `duration_s`, `distance_m`) are carried as `real`, and no arithmetic is done on them.
- Paths are sequences of components, and a filename is one component. The pathlib behaviour of names containing `/`, `..` or nothing is not modelled.
- `write_text` encodes characters into bytes. That encoding is the parameter `encode` of `Segments.AttachMetadata`.
- Request validation is modelled only for `upload_length > 0`. Request values reach the handlers already parsed: the framework's UUID parsing and JSON shape checks are not modelled, and enum values arrive as the datatypes whose parsing `Models.ParseUserRole` and its siblings describe.
- Trip creation ignores `capture_profile`, as the handler does.
- The client's `fetch`, its base64 decoding, the camera, location, timers and the React components are not modelled. Only the loop's requests and what the server answers are.
- Authentication is not modelled: `auth.py`, `security.py`, JWT tokens, the auth router and the current-user dependency. The caller is a `User` parameter.
- The files router, the devices and users routers, database setup, configuration and application wiring are not part of this model.
- Failures of file-system calls are not modelled: `open`/`write` in `write_chunk`, `mkdir` over an existing file, `path.replace`, `stat`, the reads of `compute_sha256`, `unlink` and `write_text` always succeed in `Storage.FileSystem`. In the source such a failure raises after whatever was already committed; a finalization that stops part-way is described only by the database state of `Uploads.Received`, not by the file system's state at the point of failure.
- New ids are assumed unused, as a `uuid4` primary key is: `Uploads.CreateUpload`, `Trips.CreateTrip`, `Trips.CreateSegment`, `Segments.AttachMetadata`, `Uploads.FinalizeSession` and `Uploads.PatchUpload` require it. The pure functions `Uploads.Patch` and `Uploads.Finalized` are total in the catalog id; a colliding id would overwrite there, where the database would refuse the commit.
- UploadLaws.ChunkIsWrittenAtOffset and UploadLaws.RetryAfterMismatchStagesZeros: state the write for a non-empty body only, because the patch handler answers an empty body before writing anything (`server/app/routers/uploads.py`, lines 82-86); an empty write leaves the file as it was (`Storage.WriteAt`).
- Pairing.ClientUploadCompletes: assumes the staging path of the new session is empty and the catalog id is unused (a fresh `uuid4`), and speaks of the client's PATCH loop only, not the later segment, metadata and trip calls.
