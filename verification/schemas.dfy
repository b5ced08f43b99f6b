/** The request and response bodies of the API (`server/app/schemas.py`).
    An optional field with default `None` is an `Option`; the body a client
    sends without the field is the one whose field is `None`. Field
    constraints that the framework checks before a handler runs become
    validation functions that reject with status 422. */
module Schemas {
  import opened Base
  import opened Models

  datatype TripCreateRequest = TripCreateRequest(
    deviceId: Uuid,
    startTimeUtc: Timestamp,
    captureProfile: Option<string>)

  /** A partial update of a trip: every field may be left out. */
  datatype TripUpdateRequest = TripUpdateRequest(
    endTimeUtc: Option<Timestamp>,
    durationS: Option<int>,
    distanceM: Option<Float>,
    status: Option<TripStatus>)

  /** The body `{}`: every field at its default. */
  const EmptyTripUpdate: TripUpdateRequest := TripUpdateRequest(None, None, None, None)

  datatype TripRead = TripRead(
    id: Uuid,
    deviceId: Uuid,
    startTimeUtc: Timestamp,
    endTimeUtc: Option<Timestamp>,
    durationS: Option<int>,
    distanceM: Option<Float>,
    status: TripStatus)

  datatype SegmentCreateRequest = SegmentCreateRequest(
    index: int,
    videoCodec: Option<string>,
    audioCodec: Option<string>,
    width: Option<int>,
    height: Option<int>,
    fps: Option<Float>,
    expectedBytes: int)

  /** The smallest valid segment-creation body: only the required
      `expected_bytes`, everything else at its default. */
  function MinimalSegmentCreate(expectedBytes: int): (r: SegmentCreateRequest)
    ensures r.index == 0 && r.expectedBytes == expectedBytes
    ensures r.videoCodec == None && r.audioCodec == None
    ensures r.width == None && r.height == None && r.fps == None
  {
    SegmentCreateRequest(0, None, None, None, None, None, expectedBytes)
  }

  /** A partial completion of a segment: every field may be left out. */
  datatype SegmentCompleteRequest = SegmentCompleteRequest(
    fileSizeBytes: Option<int>,
    durationS: Option<Float>,
    sha256: Option<string>,
    status: Option<TripStatus>)

  const EmptySegmentComplete: SegmentCompleteRequest := SegmentCompleteRequest(None, None, None, None)

  datatype SegmentRead = SegmentRead(
    id: Uuid,
    tripId: Uuid,
    index: int,
    fileSizeBytes: Option<int>,
    durationS: Option<Float>,
    sha256: Option<string>,
    createdAt: Timestamp)

  datatype UploadCreateRequest = UploadCreateRequest(
    tripId: Uuid,
    segmentId: Uuid,
    filename: string,
    fileType: FileType,
    sha256: string,
    uploadLength: int)

  /** The `upload_length: int = Field(gt=0)` constraint. */
  predicate ValidUploadCreate(req: UploadCreateRequest) {
    req.uploadLength > 0
  }

  /** Request validation before `create_upload` runs: the body is passed on
      unchanged when `upload_length` is positive and refused with 422
      otherwise. */
  function ValidateUploadCreate(req: UploadCreateRequest): (r: Result<UploadCreateRequest>)
    ensures r.Ok? <==> req.uploadLength > 0
    ensures r.Ok? ==> r.value == req && ValidUploadCreate(r.value)
    ensures r.Err? ==> r.error.status == 422
  {
    if req.uploadLength > 0 then Ok(req)
    else Err(HttpError(422, "upload_length: Input should be greater than 0"))
  }

  datatype UploadRead = UploadRead(
    id: Uuid,
    tripId: Uuid,
    segmentId: Uuid,
    filename: string,
    fileType: FileType,
    sha256: string,
    uploadLength: int,
    offset: int,
    status: UploadStatus)

  /** The response view of a session: its declared columns together with its
      progress (`offset`, `status`). */
  function ToUploadRead(u: UploadSession): (r: UploadRead)
    ensures r.offset == u.offset && r.status == u.status
    ensures r.id == u.id && r.tripId == u.tripId && r.segmentId == u.segmentId
    ensures r.filename == u.filename && r.fileType == u.fileType
    ensures r.sha256 == u.sha256 && r.uploadLength == u.uploadLength
  {
    UploadRead(u.id, u.tripId, u.segmentId, u.filename, u.fileType, u.sha256,
               u.uploadLength, u.offset, u.status)
  }

  datatype StoredFileRead = StoredFileRead(
    id: Uuid,
    fileType: FileType,
    sha256: Option<string>,
    bytes: int,
    storageUri: string)

  function ToStoredFileRead(f: StoredFile): StoredFileRead {
    StoredFileRead(f.id, f.fileType, f.sha256, f.bytes, f.storageUri)
  }

  /** A metadata document to attach: `filename` may be left out. */
  datatype SegmentMetadataRequest = SegmentMetadataRequest(
    fileType: FileType,
    content: string,
    filename: Option<string>)

  datatype TripDetail = TripDetail(trip: TripRead, segments: seq<SegmentRead>)

  function ToTripRead(t: Trip): TripRead {
    TripRead(t.id, t.deviceId, t.startTimeUtc, t.endTimeUtc, t.durationS, t.distanceM, t.status)
  }

  function ToSegmentRead(s: Segment): SegmentRead {
    SegmentRead(s.id, s.tripId, s.index, s.fileSizeBytes, s.durationS, s.sha256, s.createdAt)
  }
}
