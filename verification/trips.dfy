/** The trip and segment handlers (`server/app/routers/trips.py`): who may
    see a trip, trip creation and listing, the partial trip update, segment
    creation with its RECORDING to UPLOADING promotion, and segment
    completion. */
module Trips {
  import opened Base
  import opened Models
  import opened Schemas
  import opened Store

  const Forbidden := HttpError(403, "Forbidden")
  const DeviceNotFound := HttpError(404, "Device not found")
  const TripNotFound := HttpError(404, "Trip not found")
  const SegmentNotFound := HttpError(404, "Segment not found")

  // ---------------------------------------------------------------- access

  /** The trip's owner and administrators may act on a trip. */
  predicate CanAccess(trip: Trip, caller: User) {
    trip.userId == caller.id || caller.role == Admin
  }

  /** `_ensure_trip_access`: passes for the owner or an administrator and
      raises 403 for anyone else. */
  function EnsureTripAccess(trip: Trip, caller: User): (r: Result<()>)
    ensures r.Ok? <==> trip.userId == caller.id || caller.role == Admin
    ensures r.Err? ==> r.error == Forbidden
  {
    if trip.userId != caller.id && caller.role != Admin then Err(Forbidden) else Ok(())
  }

  /** The lookup-then-access prelude of the trip handlers: 404 for a missing
      trip, then 403 unless the caller may access it. */
  function FindTrip(t: Tables, tripId: Uuid, caller: User): (r: Result<Trip>)
    ensures r.Ok? <==> tripId in t.trips && CanAccess(t.trips[tripId], caller)
    ensures r.Ok? ==> r.value == t.trips[tripId]
    ensures r.Err? ==> r.error == (if tripId in t.trips then Forbidden else TripNotFound)
  {
    if tripId !in t.trips then Err(TripNotFound)
    else match EnsureTripAccess(t.trips[tripId], caller)
      case Err(e) => Err(e)
      case Ok(_) => Ok(t.trips[tripId])
  }

  // ---------------------------------------------------------------- create

  /** `create_trip`: the device must exist and be the caller's own (there is
      no administrator exception); the trip is owned by the caller and starts
      RECORDING. */
  method CreateTrip(db: Database, caller: User, payload: TripCreateRequest, newId: Uuid, now: Timestamp)
    returns (r: Result<TripRead>)
    requires db.Valid() && newId !in db.trips
    modifies db
    ensures db.Valid()
    ensures r.Ok? <==> payload.deviceId in old(db.devices) && old(db.devices)[payload.deviceId].userId == caller.id
    ensures r.Err? ==> r.error == DeviceNotFound && db.Snapshot() == old(db.Snapshot())
    ensures r.Ok? ==>
      var trip := NewTrip(newId, caller.id, old(db.devices)[payload.deviceId].id, payload.startTimeUtc, now);
      && db.Snapshot() == old(db.Snapshot()).(trips := old(db.trips)[newId := trip])
      && r.value == ToTripRead(trip)
  {
    if payload.deviceId !in db.devices || db.devices[payload.deviceId].userId != caller.id {
      return Err(DeviceNotFound);
    }
    var device := db.devices[payload.deviceId];
    var trip := NewTrip(newId, caller.id, device.id, payload.startTimeUtc, now);
    db.trips := db.trips[newId := trip];
    r := Ok(ToTripRead(trip));
  }

  /** A created trip is the caller's and RECORDING, with nothing recorded
      yet. */
  lemma CreatedTripIsRecording(db: Tables, caller: User, deviceId: Uuid, newId: Uuid, start: Timestamp, now: Timestamp)
    ensures var trip := NewTrip(newId, caller.id, deviceId, start, now);
            && trip.userId == caller.id && CanAccess(trip, caller)
            && ToTripRead(trip).status == TripStatus.Recording
            && ToTripRead(trip) == TripRead(newId, deviceId, start, None, None, None, TripStatus.Recording)
  {
  }

  // ------------------------------------------------------------------ list

  /** Whose trips `list_trips` returns: the requested user's when an
      administrator names one, otherwise always the caller's own. */
  function ListOwner(caller: User, userId: Option<Uuid>): (owner: Uuid)
    ensures owner == caller.id || (caller.role == Admin && userId == Some(owner))
    ensures caller.role == Admin && userId.Some? ==> owner == userId.value
  {
    if userId.Some? && caller.role == Admin then userId.value else caller.id
  }

  /** A non-administrator only ever lists their own trips, whatever user id
      they ask for. */
  lemma NonAdminListsOwnTrips(caller: User, userId: Option<Uuid>)
    requires caller.role != Admin
    ensures ListOwner(caller, userId) == caller.id
  {
  }

  function SegmentIds(segs: seq<SegmentRead>): (ids: seq<Uuid>)
    ensures |ids| == |segs| && forall j :: 0 <= j < |segs| ==> ids[j] == segs[j].id
  {
    seq(|segs|, j requires 0 <= j < |segs| => segs[j].id)
  }

  function TripIds(ds: seq<TripDetail>): (ids: seq<Uuid>)
    ensures |ids| == |ds| && forall k :: 0 <= k < |ds| ==> ids[k] == ds[k].trip.id
  {
    seq(|ds|, k requires 0 <= k < |ds| => ds[k].trip.id)
  }

  /** `segs` shows every segment of the trip exactly once, by index
      ascending. */
  predicate SegmentsListed(t: Tables, tripId: Uuid, segs: seq<SegmentRead>) {
    && (forall j :: 0 <= j < |segs| ==>
          segs[j].id in t.segments && t.segments[segs[j].id].tripId == tripId
          && segs[j] == ToSegmentRead(t.segments[segs[j].id]))
    && (forall sid :: sid in t.segments && t.segments[sid].tripId == tripId ==> sid in SegmentIds(segs))
    && (forall i, j :: 0 <= i < j < |segs| ==> segs[i].id != segs[j].id && segs[i].index <= segs[j].index)
  }

  /** `ds` shows every trip of `owner` exactly once, latest start first, each
      with its segments. */
  predicate TripsListed(t: Tables, owner: Uuid, ds: seq<TripDetail>) {
    && (forall k :: 0 <= k < |ds| ==>
          ds[k].trip.id in t.trips && t.trips[ds[k].trip.id].userId == owner
          && ds[k].trip == ToTripRead(t.trips[ds[k].trip.id])
          && SegmentsListed(t, ds[k].trip.id, ds[k].segments))
    && (forall id :: id in t.trips && t.trips[id].userId == owner ==> id in TripIds(ds))
    && (forall i, j :: 0 <= i < j < |ds| ==>
          ds[i].trip.id != ds[j].trip.id && ds[i].trip.startTimeUtc >= ds[j].trip.startTimeUtc)
  }

  /** The segments of one trip, as `list_trips` and `get_trip` render them. */
  method ListSegments(db: Database, tripId: Uuid) returns (segs: seq<SegmentRead>)
    requires db.Valid()
    ensures SegmentsListed(db.Snapshot(), tripId, segs)
  {
    var segments := db.segments;
    var ids := OrderBy(segments, set id | id in segments && segments[id].tripId == tripId, (s: Segment) => s.index, false);
    segs := seq(|ids|, j requires 0 <= j < |ids| => ToSegmentRead(segments[ids[j]]));
    assert SegmentIds(segs) == ids;
  }

  /** The order key of `list_trips`: the trip's start time. */
  function StartKey(trip: Trip): int {
    trip.startTimeUtc
  }

  /** Details built one per listed id, in the listing's order, show the
      owner's trips as `list_trips` promises. */
  lemma DetailsListed(t: Tables, owner: Uuid, ids: seq<Uuid>, ds: seq<TripDetail>)
    requires Consistent(t)
    requires OrderedListing(t.trips, (set id | id in t.trips && t.trips[id].userId == owner), StartKey, true, ids)
    requires |ds| == |ids|
    requires forall k :: 0 <= k < |ids| ==> ds[k].trip == ToTripRead(t.trips[ids[k]])
    requires forall k :: 0 <= k < |ids| ==> SegmentsListed(t, ids[k], ds[k].segments)
    ensures TripsListed(t, owner, ds)
  {
    assert TripIds(ds) == ids;
  }

  /** `list_trips`: the trips of `ListOwner`, latest start first, each with
      its segments in index order. */
  method ListTrips(db: Database, caller: User, userId: Option<Uuid>) returns (ds: seq<TripDetail>)
    requires db.Valid()
    ensures TripsListed(db.Snapshot(), ListOwner(caller, userId), ds)
  {
    var owner := ListOwner(caller, userId);
    var trips := db.trips;
    var ids := OrderBy(trips, (set id | id in trips && trips[id].userId == owner), StartKey, true);
    ds := [];
    for i := 0 to |ids|
      invariant |ds| == i
      invariant forall k :: 0 <= k < i ==> ds[k].trip == ToTripRead(trips[ids[k]])
      invariant forall k :: 0 <= k < i ==> SegmentsListed(db.Snapshot(), ids[k], ds[k].segments)
    {
      var trip := trips[ids[i]];
      var segs := ListSegments(db, trip.id);
      ds := ds + [TripDetail(ToTripRead(trip), segs)];
    }
    DetailsListed(db.Snapshot(), owner, ids, ds);
  }

  /** `get_trip`: one trip with its segments, after the lookup and access
      checks. */
  method GetTrip(db: Database, caller: User, tripId: Uuid) returns (r: Result<TripDetail>)
    requires db.Valid()
    ensures r.Ok? <==> FindTrip(db.Snapshot(), tripId, caller).Ok?
    ensures r.Err? ==> r.error == FindTrip(db.Snapshot(), tripId, caller).error
    ensures r.Ok? ==> r.value.trip == ToTripRead(db.trips[tripId])
                      && SegmentsListed(db.Snapshot(), tripId, r.value.segments)
  {
    var found := FindTrip(db.Snapshot(), tripId, caller);
    if found.Err? {
      return Err(found.error);
    }
    var trip := found.value;
    var segs := ListSegments(db, trip.id);
    r := Ok(TripDetail(ToTripRead(trip), segs));
  }

  // ---------------------------------------------------------------- update

  /** A trip after a partial update: each field the payload supplies is
      replaced, every other field is kept. An end time is a `datetime`,
      which is always truthy, so it is applied exactly when supplied. */
  function ApplyTripUpdate(trip: Trip, p: TripUpdateRequest): (r: Trip)
    ensures r.id == trip.id && r.userId == trip.userId && r.deviceId == trip.deviceId
    ensures r.startTimeUtc == trip.startTimeUtc && r.createdAt == trip.createdAt
    ensures r.endTimeUtc == (if p.endTimeUtc.Some? then p.endTimeUtc else trip.endTimeUtc)
    ensures r.durationS == (if p.durationS.Some? then p.durationS else trip.durationS)
    ensures r.distanceM == (if p.distanceM.Some? then p.distanceM else trip.distanceM)
    ensures r.status == (if p.status.Some? then p.status.value else trip.status)
  {
    trip.(endTimeUtc := if p.endTimeUtc.Some? then p.endTimeUtc else trip.endTimeUtc,
          durationS := if p.durationS.Some? then p.durationS else trip.durationS,
          distanceM := if p.distanceM.Some? then p.distanceM else trip.distanceM,
          status := if p.status.Some? then p.status.value else trip.status)
  }

  /** The body `{}` changes nothing, and applying the same update twice is
      the same as applying it once. */
  lemma TripUpdateLaws(trip: Trip, p: TripUpdateRequest)
    ensures ApplyTripUpdate(trip, EmptyTripUpdate) == trip
    ensures ApplyTripUpdate(ApplyTripUpdate(trip, p), p) == ApplyTripUpdate(trip, p)
  {
  }

  /** `update_trip`: after the lookup and access checks, each supplied field
      is written in turn and the trip is committed. */
  method UpdateTrip(db: Database, caller: User, tripId: Uuid, payload: TripUpdateRequest)
    returns (r: Result<TripRead>)
    requires db.Valid()
    modifies db
    ensures db.Valid()
    ensures r.Ok? <==> old(FindTrip(db.Snapshot(), tripId, caller)).Ok?
    ensures r.Err? ==> r.error == old(FindTrip(db.Snapshot(), tripId, caller)).error && db.Snapshot() == old(db.Snapshot())
    ensures r.Ok? ==>
      var trip := ApplyTripUpdate(old(db.trips)[tripId], payload);
      && db.Snapshot() == old(db.Snapshot()).(trips := old(db.trips)[tripId := trip])
      && r.value == ToTripRead(trip)
  {
    var found := FindTrip(db.Snapshot(), tripId, caller);
    if found.Err? {
      return Err(found.error);
    }
    var trip := found.value;
    if payload.endTimeUtc.Some? {
      trip := trip.(endTimeUtc := payload.endTimeUtc);
    }
    if payload.durationS.Some? {
      trip := trip.(durationS := payload.durationS);
    }
    if payload.distanceM.Some? {
      trip := trip.(distanceM := payload.distanceM);
    }
    if payload.status.Some? {
      trip := trip.(status := payload.status.value);
    }
    db.trips := db.trips[tripId := trip];
    r := Ok(ToTripRead(trip));
  }

  // -------------------------------------------------------------- segments

  /** The segment `create_segment` stores: the declared index and codec
      fields, the expected size as its file size, nothing completed yet. */
  function SegmentFor(id: Uuid, tripId: Uuid, p: SegmentCreateRequest, now: Timestamp): (s: Segment)
    ensures s.id == id && s.tripId == tripId && s.index == p.index
    ensures s.fileSizeBytes == Some(p.expectedBytes)
    ensures s.videoCodec == p.videoCodec && s.audioCodec == p.audioCodec
    ensures s.width == p.width && s.height == p.height && s.fps == p.fps
    ensures s.durationS == None && s.sha256 == None && s.completedAt == None
  {
    Segment(id, tripId, p.index, p.videoCodec, p.audioCodec, p.width, p.height, p.fps,
            Some(p.expectedBytes), None, None, now, None)
  }

  /** A trip's status once one of its segments is created: RECORDING becomes
      UPLOADING, any other status stays. */
  function PromoteOnSegment(s: TripStatus): (r: TripStatus)
    ensures s == TripStatus.Recording ==> r == TripStatus.Uploading
    ensures s != TripStatus.Recording ==> r == s
    ensures r != TripStatus.Recording
  {
    if s == TripStatus.Recording then TripStatus.Uploading else s
  }

  /** `create_segment`: after the lookup and access checks, the segment is
      committed, then the trip is promoted. */
  method CreateSegment(db: Database, caller: User, tripId: Uuid, payload: SegmentCreateRequest, newId: Uuid, now: Timestamp)
    returns (r: Result<SegmentRead>)
    requires db.Valid() && newId !in db.segments
    modifies db
    ensures db.Valid()
    ensures r.Ok? <==> old(FindTrip(db.Snapshot(), tripId, caller)).Ok?
    ensures r.Err? ==> r.error == old(FindTrip(db.Snapshot(), tripId, caller)).error && db.Snapshot() == old(db.Snapshot())
    ensures r.Ok? ==>
      var trip := old(db.trips)[tripId];
      var segment := SegmentFor(newId, tripId, payload, now);
      && db.Snapshot() == old(db.Snapshot()).(
           segments := old(db.segments)[newId := segment],
           trips := old(db.trips)[tripId := trip.(status := PromoteOnSegment(trip.status))])
      && r.value == ToSegmentRead(segment)
  {
    var found := FindTrip(db.Snapshot(), tripId, caller);
    if found.Err? {
      return Err(found.error);
    }
    var trip := found.value;
    var segment := SegmentFor(newId, trip.id, payload, now);
    db.segments := db.segments[newId := segment];
    if trip.status == TripStatus.Recording {
      trip := trip.(status := TripStatus.Uploading);
    }
    db.trips := db.trips[tripId := trip];
    r := Ok(ToSegmentRead(segment));
  }

  /** A segment after `finalize_segment`: supplied size, duration and digest
      replace the stored ones, and the completion time is always set. */
  function CompleteSegment(s: Segment, p: SegmentCompleteRequest, now: Timestamp): (r: Segment)
    ensures r.completedAt == Some(now)
    ensures r.fileSizeBytes == (if p.fileSizeBytes.Some? then p.fileSizeBytes else s.fileSizeBytes)
    ensures r.durationS == (if p.durationS.Some? then p.durationS else s.durationS)
    ensures r.sha256 == (if p.sha256.Some? then p.sha256 else s.sha256)
    ensures r.(fileSizeBytes := s.fileSizeBytes, durationS := s.durationS, sha256 := s.sha256, completedAt := s.completedAt) == s
  {
    s.(fileSizeBytes := if p.fileSizeBytes.Some? then p.fileSizeBytes else s.fileSizeBytes,
       durationS := if p.durationS.Some? then p.durationS else s.durationS,
       sha256 := if p.sha256.Some? then p.sha256 else s.sha256,
       completedAt := Some(now))
  }

  /** The body `{}` only stamps the completion time. */
  lemma EmptyCompletionOnlyStamps(s: Segment, now: Timestamp)
    ensures CompleteSegment(s, EmptySegmentComplete, now) == s.(completedAt := Some(now))
  {
  }

  /** The checks of `finalize_segment`, in order: the trip (404), access
      (403), then a segment of that trip (404). */
  function FindTripSegment(t: Tables, tripId: Uuid, segmentId: Uuid, caller: User): (r: Result<Segment>)
    ensures r.Ok? <==> FindTrip(t, tripId, caller).Ok? && segmentId in t.segments
                       && t.segments[segmentId].tripId == t.trips[tripId].id
    ensures r.Ok? ==> r.value == t.segments[segmentId]
    ensures r.Err? && FindTrip(t, tripId, caller).Ok? ==> r.error == SegmentNotFound
    ensures FindTrip(t, tripId, caller).Err? ==> r.error == FindTrip(t, tripId, caller).error
  {
    match FindTrip(t, tripId, caller)
    case Err(e) => Err(e)
    case Ok(trip) =>
      if segmentId !in t.segments || t.segments[segmentId].tripId != trip.id then Err(SegmentNotFound)
      else Ok(t.segments[segmentId])
  }

  /** `finalize_segment`: the segment takes the supplied fields and the
      completion time, and the trip's status changes only when the payload
      gives one. */
  method FinalizeSegment(db: Database, caller: User, tripId: Uuid, segmentId: Uuid, payload: SegmentCompleteRequest, now: Timestamp)
    returns (r: Result<SegmentRead>)
    requires db.Valid()
    modifies db
    ensures db.Valid()
    ensures r.Ok? <==> old(FindTripSegment(db.Snapshot(), tripId, segmentId, caller)).Ok?
    ensures r.Err? ==> r.error == old(FindTripSegment(db.Snapshot(), tripId, segmentId, caller)).error
                       && db.Snapshot() == old(db.Snapshot())
    ensures r.Ok? ==>
      var segment := CompleteSegment(old(db.segments)[segmentId], payload, now);
      var trip := old(db.trips)[tripId];
      && db.Snapshot() == old(db.Snapshot()).(
           segments := old(db.segments)[segmentId := segment],
           trips := old(db.trips)[tripId := if payload.status.Some? then trip.(status := payload.status.value) else trip])
      && r.value == ToSegmentRead(segment)
  {
    var found := FindTripSegment(db.Snapshot(), tripId, segmentId, caller);
    if found.Err? {
      return Err(found.error);
    }
    var trip := db.trips[tripId];
    var segment := found.value;
    if payload.fileSizeBytes.Some? {
      segment := segment.(fileSizeBytes := payload.fileSizeBytes);
    }
    if payload.durationS.Some? {
      segment := segment.(durationS := payload.durationS);
    }
    if payload.sha256.Some? {
      segment := segment.(sha256 := payload.sha256);
    }
    segment := segment.(completedAt := Some(now));
    if payload.status.Some? {
      trip := trip.(status := payload.status.value);
    }
    db.segments := db.segments[segmentId := segment];
    db.trips := db.trips[tripId := trip];
    r := Ok(ToSegmentRead(segment));
  }
}
