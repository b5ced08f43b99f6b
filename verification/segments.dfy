/** Attaching a metadata document to a segment
    (`server/app/routers/segments.py`): the access checks, the whitelist of
    metadata types, the default filename, and the catalog entry built from
    the file as written. */
module Segments {
  import opened Base
  import opened Digest
  import opened Models
  import opened Schemas
  import opened Storage
  import opened Store
  import opened Trips

  const UnsupportedMetadataType := HttpError(400, "Unsupported metadata type")

  /** The types a metadata document may have. */
  predicate IsMetadataType(ft: FileType) {
    ft in {GpsGpx, GpsJsonl, MetadataJson}
  }

  /** The name a metadata document is stored under: the one given, unless it
      is missing or empty, in which case `metadata_<type>.txt`. */
  function MetadataFilename(p: SegmentMetadataRequest): (name: string)
    ensures p.filename.Some? && p.filename.value != "" ==> name == p.filename.value
    ensures p.filename.None? || p.filename == Some("") ==> name == "metadata_" + p.fileType.Value() + ".txt"
  {
    if p.filename.Some? && p.filename.value != "" then p.filename.value
    else "metadata_" + p.fileType.Value() + ".txt"
  }

  /** A metadata document is never stored under an empty name. */
  lemma MetadataFilenameNotEmpty(p: SegmentMetadataRequest)
    ensures |MetadataFilename(p)| > 0
  {
  }

  /** The checks of `attach_metadata`, in order: the segment (404), its trip
      (404), access (403), the type (400). */
  function CheckAttach(t: Tables, segmentId: Uuid, caller: User, ft: FileType): (r: Result<Segment>)
    ensures r.Ok? <==> && segmentId in t.segments && t.segments[segmentId].tripId in t.trips
                       && CanAccess(t.trips[t.segments[segmentId].tripId], caller) && IsMetadataType(ft)
    ensures r.Ok? ==> r.value == t.segments[segmentId]
    ensures segmentId !in t.segments ==> r == Err(SegmentNotFound)
    ensures segmentId in t.segments && t.segments[segmentId].tripId !in t.trips ==> r == Err(TripNotFound)
    ensures (segmentId in t.segments && t.segments[segmentId].tripId in t.trips
             && !CanAccess(t.trips[t.segments[segmentId].tripId], caller)) ==> r == Err(Forbidden)
  {
    if segmentId !in t.segments then Err(SegmentNotFound)
    else if t.segments[segmentId].tripId !in t.trips then Err(TripNotFound)
    else if !CanAccess(t.trips[t.segments[segmentId].tripId], caller) then Err(Forbidden)
    else if !IsMetadataType(ft) then Err(UnsupportedMetadataType)
    else Ok(t.segments[segmentId])
  }

  /** Once access is settled, only video and thumbnails are refused, with 400. */
  lemma VideoAndThumbnailRefused(t: Tables, segmentId: Uuid, caller: User, ft: FileType)
    requires segmentId in t.segments && t.segments[segmentId].tripId in t.trips
    requires CanAccess(t.trips[t.segments[segmentId].tripId], caller)
    ensures CheckAttach(t, segmentId, caller, ft).Err? <==> ft == VideoMp4 || ft == ThumbnailJpeg
    ensures CheckAttach(t, segmentId, caller, ft).Err? ==> CheckAttach(t, segmentId, caller, ft).error.status == 400
  {
  }

  /** Where a metadata document for a segment is written. */
  function MetadataPath(env: Env, segmentId: Uuid, p: SegmentMetadataRequest): Path {
    Join(SegmentDir(env.storageDir, segmentId), MetadataFilename(p))
  }

  /** The catalog entry for a written document: its digest and size are
      those of the bytes on disk, its `storage_uri` the path under the
      storage directory. */
  function MetadataFile(storedId: Uuid, segmentId: Uuid, p: SegmentMetadataRequest, written: Bytes, hash: Bytes -> Bytes, now: Timestamp): (f: StoredFile)
    ensures f.sha256 == Some(Sha256Hex(hash, written)) && f.bytes == |written|
    ensures f.storageUri == "segments/" + segmentId + "/" + MetadataFilename(p)
    ensures f.segmentId == segmentId && f.fileType == p.fileType && f.id == storedId
  {
    SegmentFileUri([], segmentId, MetadataFilename(p));
    NewStoredFile(storedId, segmentId, p.fileType, PathString(["segments", segmentId, MetadataFilename(p)]), now)
      .(sha256 := Some(Sha256Hex(hash, written)), bytes := |written|)
  }

  /** `attach_metadata`. The text is written with `write_text`, whose
      encoding of characters into bytes is the parameter `encode`. */
  method AttachMetadata(env: Env, db: Database, fs: FileSystem, caller: User, segmentId: Uuid,
                        payload: SegmentMetadataRequest, encode: string -> Bytes, storedId: Uuid, now: Timestamp)
    returns (r: Result<StoredFileRead>)
    requires db.Valid() && fs.Valid()
    requires storedId !in db.storedFiles
    modifies db, fs
    ensures db.Valid() && fs.Valid()
    ensures r.Ok? <==> old(CheckAttach(db.Snapshot(), segmentId, caller, payload.fileType)).Ok?
    ensures r.Err? ==>
      && r.error == old(CheckAttach(db.Snapshot(), segmentId, caller, payload.fileType)).error
      && db.Snapshot() == old(db.Snapshot()) && fs.State() == old(fs.State())
    ensures r.Ok? ==>
      var dest := MetadataPath(env, segmentId, payload);
      var stored := MetadataFile(storedId, segmentId, payload, encode(payload.content), env.hash, now);
      && fs.files == old(fs.files)[dest := encode(payload.content)]
      && fs.dirs == old(fs.dirs) + Ancestry(Parent(dest))
      && db.Snapshot() == old(db.Snapshot()).(storedFiles := old(db.storedFiles)[storedId := stored])
      && r.value == ToStoredFileRead(stored)
  {
    var found := CheckAttach(db.Snapshot(), segmentId, caller, payload.fileType);
    if found.Err? {
      return Err(found.error);
    }
    var segment := found.value;
    var filename := MetadataFilename(payload);
    var destDir := SegmentDir(env.storageDir, segment.id);
    fs.MakeDirs(destDir);
    var destPath := Join(destDir, filename);
    fs.WriteBytes(destPath, encode(payload.content));
    var sha := fs.ComputeSha256(destPath, env.hash);
    SegmentFileUri(env.storageDir, segment.id, filename);
    var stored := NewStoredFile(storedId, segment.id, payload.fileType,
                                PathString(RelativeTo(destPath, env.storageDir).value), now);
    stored := stored.(sha256 := Some(sha), bytes := |fs.files[destPath]|);
    db.storedFiles := db.storedFiles[storedId := stored];
    r := Ok(ToStoredFileRead(stored));
  }
}
