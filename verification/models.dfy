/** The persisted records of the server (`server/app/models.py`): the string
    enumerations with their wire values, and one datatype per table row.
    Optional columns are `Option`s; a `Field(default=...)` becomes a
    constructor function that fills the defaults in. */
module Models {
  import opened Base

  datatype UserRole = Regular | Admin {
    /** The enum's string value (`UserRole.USER` is "user"). */
    function Value(): string {
      match this
      case Regular => "user"
      case Admin => "admin"
    }
  }

  datatype TripStatus = Recording | Queued | Uploading | Complete | Failed {
    function Value(): string {
      match this
      case Recording => "recording"
      case Queued => "queued"
      case Uploading => "uploading"
      case Complete => "complete"
      case Failed => "failed"
    }
  }

  datatype FileType = VideoMp4 | GpsGpx | GpsJsonl | ThumbnailJpeg | MetadataJson {
    function Value(): string {
      match this
      case VideoMp4 => "video_mp4"
      case GpsGpx => "gps_gpx"
      case GpsJsonl => "gps_jsonl"
      case ThumbnailJpeg => "thumbnail_jpg"
      case MetadataJson => "metadata_json"
    }
  }

  datatype UploadStatus = Pending | Receiving | Complete | Failed {
    function Value(): string {
      match this
      case Pending => "pending"
      case Receiving => "receiving"
      case Complete => "complete"
      case Failed => "failed"
    }
  }

  /** How a `str` enum parses a wire value: the member whose value it is,
      or a validation failure. */
  function ParseUserRole(s: string): (r: Option<UserRole>)
    ensures r.Some? <==> s in ["user", "admin"]
    ensures r.Some? ==> r.value.Value() == s
  {
    if s == "user" then Some(Regular)
    else if s == "admin" then Some(Admin)
    else None
  }

  function ParseTripStatus(s: string): (r: Option<TripStatus>)
    ensures r.Some? <==> s in ["recording", "queued", "uploading", "complete", "failed"]
    ensures r.Some? ==> r.value.Value() == s
  {
    if s == "recording" then Some(TripStatus.Recording)
    else if s == "queued" then Some(TripStatus.Queued)
    else if s == "uploading" then Some(TripStatus.Uploading)
    else if s == "complete" then Some(TripStatus.Complete)
    else if s == "failed" then Some(TripStatus.Failed)
    else None
  }

  function ParseFileType(s: string): (r: Option<FileType>)
    ensures r.Some? <==> s in ["video_mp4", "gps_gpx", "gps_jsonl", "thumbnail_jpg", "metadata_json"]
    ensures r.Some? ==> r.value.Value() == s
  {
    if s == "video_mp4" then Some(VideoMp4)
    else if s == "gps_gpx" then Some(GpsGpx)
    else if s == "gps_jsonl" then Some(GpsJsonl)
    else if s == "thumbnail_jpg" then Some(ThumbnailJpeg)
    else if s == "metadata_json" then Some(MetadataJson)
    else None
  }

  function ParseUploadStatus(s: string): (r: Option<UploadStatus>)
    ensures r.Some? <==> s in ["pending", "receiving", "complete", "failed"]
    ensures r.Some? ==> r.value.Value() == s
  {
    if s == "pending" then Some(Pending)
    else if s == "receiving" then Some(Receiving)
    else if s == "complete" then Some(UploadStatus.Complete)
    else if s == "failed" then Some(UploadStatus.Failed)
    else None
  }

  /** Every member's value parses back to that member, so the values are
      pairwise distinct and each enumeration has exactly as many members as
      its list of accepted values. */
  lemma EnumRoundTrips(role: UserRole, ts: TripStatus, ft: FileType, us: UploadStatus)
    ensures ParseUserRole(role.Value()) == Some(role)
    ensures ParseTripStatus(ts.Value()) == Some(ts)
    ensures ParseFileType(ft.Value()) == Some(ft)
    ensures ParseUploadStatus(us.Value()) == Some(us)
  {
  }

  datatype User = User(
    id: Uuid,
    email: string,
    name: Option<string>,
    role: UserRole,
    createdAt: Timestamp)

  datatype DevicePlatform = Android | Ios

  datatype Device = Device(
    id: Uuid,
    userId: Uuid,
    platform: DevicePlatform,
    model: string,
    osVersion: string,
    appVersion: Option<string>,
    createdAt: Timestamp)

  datatype Trip = Trip(
    id: Uuid,
    userId: Uuid,
    deviceId: Uuid,
    startTimeUtc: Timestamp,
    endTimeUtc: Option<Timestamp>,
    durationS: Option<int>,
    distanceM: Option<Float>,
    status: TripStatus,
    createdAt: Timestamp)

  datatype Segment = Segment(
    id: Uuid,
    tripId: Uuid,
    index: int,
    videoCodec: Option<string>,
    audioCodec: Option<string>,
    width: Option<int>,
    height: Option<int>,
    fps: Option<Float>,
    fileSizeBytes: Option<int>,
    durationS: Option<Float>,
    sha256: Option<string>,
    createdAt: Timestamp,
    completedAt: Option<Timestamp>)

  datatype StoredFile = StoredFile(
    id: Uuid,
    segmentId: Uuid,
    fileType: FileType,
    storageUri: string,
    sha256: Option<string>,
    bytes: int,
    createdAt: Timestamp)

  datatype UploadSession = UploadSession(
    id: Uuid,
    tripId: Uuid,
    segmentId: Uuid,
    filename: string,
    fileType: FileType,
    sha256: string,
    uploadLength: int,
    offset: int,
    status: UploadStatus,
    createdAt: Timestamp,
    updatedAt: Timestamp)

  /** A `Trip` row built from its required columns: no end time, duration or
      distance yet, and `status` at its default. */
  function NewTrip(id: Uuid, userId: Uuid, deviceId: Uuid, start: Timestamp, now: Timestamp): (t: Trip)
    ensures t.status == TripStatus.Recording
    ensures t.endTimeUtc == None && t.durationS == None && t.distanceM == None
    ensures t.id == id && t.userId == userId && t.deviceId == deviceId && t.startTimeUtc == start
  {
    Trip(id, userId, deviceId, start, None, None, None, TripStatus.Recording, now)
  }

  /** A `StoredFile` row with only its required columns: `sha256` is absent
      and `bytes` is 0 until the caller supplies them. */
  function NewStoredFile(id: Uuid, segmentId: Uuid, fileType: FileType, storageUri: string, now: Timestamp): (f: StoredFile)
    ensures f.sha256 == None && f.bytes == 0
    ensures f.segmentId == segmentId && f.fileType == fileType && f.storageUri == storageUri
  {
    StoredFile(id, segmentId, fileType, storageUri, None, 0, now)
  }

  /** An `UploadSession` row: the declared columns as given, `offset` and
      `status` at their defaults, both timestamps the creation time. */
  function NewUploadSession(
    id: Uuid, tripId: Uuid, segmentId: Uuid, filename: string, fileType: FileType,
    sha256: string, uploadLength: int, now: Timestamp): (u: UploadSession)
    ensures u.offset == 0 && u.status == Pending
    ensures u.id == id && u.tripId == tripId && u.segmentId == segmentId
    ensures u.filename == filename && u.fileType == fileType
    ensures u.sha256 == sha256 && u.uploadLength == uploadLength
  {
    UploadSession(id, tripId, segmentId, filename, fileType, sha256, uploadLength, 0, Pending, now, now)
  }
}
