/** The parts of the mobile client (`mobile/App.tsx`) that shape what the
    server receives: server-URL normalisation at login, the headers of every
    API request, the device-registration guard, the upload declaration, the
    chunking loop of `uploadTrip`, and the trip duration it reports. */
module Client {
  import opened Base
  import opened Digest
  import opened Models
  import opened Schemas
  import opened Uploads

  /** What an asynchronous call settles to: a value, or a thrown `Error`. */
  datatype Outcome<+T> = Done(value: T) | Threw(message: string)

  /** The client's credentials: the server's base URL and the bearer token
      (`null` before login). */
  datatype AuthState = AuthState(serverUrl: string, token: Option<string>)

  /** Truthiness of a `string | null` in JavaScript: present and non-empty. */
  predicate Truthy(s: Option<string>) {
    s.Some? && s.value != ""
  }

  // ------------------------------------------------------------ server URL

  /** `serverUrl.replace(/\/$/, '')`: one trailing slash, if any, is dropped. */
  function NormalizeServerUrl(url: string): (r: string)
    ensures |url| > 0 && url[|url| - 1] == '/' ==> r + "/" == url
    ensures !(|url| > 0 && url[|url| - 1] == '/') ==> r == url
  {
    if |url| > 0 && url[|url| - 1] == '/' then url[..|url| - 1] else url
  }

  /** Exactly one slash is stripped: a URL ending in two slashes keeps one. */
  lemma OnlyOneSlashStripped(url: string)
    ensures NormalizeServerUrl(url + "//") == url + "/"
    ensures |url| - 1 <= |NormalizeServerUrl(url)| <= |url|
  {
    assert (url + "//")[..|url| + 1] == url + "/";
  }

  // --------------------------------------------------------------- request

  /** The headers every request starts from: JSON content, and a bearer
      token when one is held. */
  function BaseHeaders(auth: AuthState): (h: map<string, string>)
    ensures "Content-Type" in h && h["Content-Type"] == "application/json"
    ensures "Authorization" in h <==> Truthy(auth.token)
    ensures "Authorization" in h ==> h["Authorization"] == "Bearer " + auth.token.value
    ensures h.Keys <= {"Content-Type", "Authorization"}
  {
    var base := map["Content-Type" := "application/json"];
    if Truthy(auth.token) then base["Authorization" := "Bearer " + auth.token.value] else base
  }

  /** A request as `API.request` hands it to `fetch`: the URL and the headers. */
  datatype HttpRequest = HttpRequest(url: string, headers: map<string, string>)

  /** `API.request` up to the `fetch`: it throws without a server URL;
      otherwise the URL is the server URL followed by the path, and the
      caller's headers are laid over the base headers. */
  function Request(auth: AuthState, path: string, extra: map<string, string>): (r: Outcome<HttpRequest>)
    ensures r.Threw? <==> auth.serverUrl == ""
    ensures r.Done? ==> r.value.url == auth.serverUrl + path
    ensures r.Done? ==> r.value.headers.Keys == BaseHeaders(auth).Keys + extra.Keys
    ensures r.Done? ==> forall k :: k in extra ==> r.value.headers[k] == extra[k]
    ensures r.Done? ==> forall k :: k in BaseHeaders(auth) && k !in extra ==> r.value.headers[k] == BaseHeaders(auth)[k]
  {
    if auth.serverUrl == "" then Threw("Server URL not configured")
    else Done(HttpRequest(auth.serverUrl + path, BaseHeaders(auth) + extra))
  }

  /** A response that is not `ok` makes `API.request` throw. */
  function Settle(response: Result<int>): (r: Outcome<int>)
    ensures r.Done? <==> response.Ok?
    ensures r.Done? ==> r.value == response.value
  {
    match response
    case Ok(v) => Done(v)
    case Err(e) => Threw("Request failed")
  }

  /** `ensureDeviceRegistration`: nothing is sent when a device id is
      already known or no token is held; otherwise the registration is a
      POST to `/devices/register` through `API.request`. The request body
      (platform, model, versions) is not modelled. */
  function DeviceRegistration(deviceId: Option<string>, auth: AuthState): (r: Option<Outcome<HttpRequest>>)
    ensures r.None? <==> Truthy(deviceId) || !Truthy(auth.token)
    ensures r.Some? ==> (r.value.Threw? <==> auth.serverUrl == "")
    ensures r.Some? && r.value.Done? ==> r.value.value.url == auth.serverUrl + "/devices/register"
  {
    if Truthy(deviceId) || !Truthy(auth.token) then None
    else Some(Request(auth, "/devices/register", map[]))
  }

  /** A registration that is sent carries the held token as its bearer
      credential, and no headers but the base ones. */
  lemma RegistrationIsAuthorized(deviceId: Option<string>, auth: AuthState)
    requires DeviceRegistration(deviceId, auth).Some? && DeviceRegistration(deviceId, auth).value.Done?
    ensures var req := DeviceRegistration(deviceId, auth).value.value;
            && "Authorization" in req.headers
            && req.headers["Authorization"] == "Bearer " + auth.token.value
            && req.headers.Keys == {"Content-Type", "Authorization"}
  {
  }

  // ---------------------------------------------------------------- upload

  /** The session `uploadTrip` declares for a recording: the file is
      "segment.mp4", a video, whose digest and length are those of the very
      buffer that is then chunked. */
  function UploadDeclaration(tripId: Uuid, segmentId: Uuid, buffer: Bytes, hash: Bytes -> Bytes): (p: UploadCreateRequest)
    ensures p.uploadLength == |buffer| && p.sha256 == Sha256Hex(hash, buffer)
    ensures p.filename == "segment.mp4" && p.fileType == VideoMp4
    ensures p.tripId == tripId && p.segmentId == segmentId
  {
    UploadCreateRequest(tripId, segmentId, "segment.mp4", VideoMp4, Sha256Hex(hash, buffer), |buffer|)
  }

  /** An empty recording is declared with length 0, which the server's
      validation refuses; any other recording passes it. */
  lemma EmptyRecordingIsRefused(tripId: Uuid, segmentId: Uuid, buffer: Bytes, hash: Bytes -> Bytes)
    ensures ValidateUploadCreate(UploadDeclaration(tripId, segmentId, buffer, hash)).Ok? <==> buffer != []
  {
  }

  /** The client's chunk size: 5 MiB. */
  const ChunkSize: nat := 5 * 1024 * 1024

  /** The PATCH requests the chunk loop sends from `offset` on: the slice
      `buffer.subarray(offset, offset + ChunkSize)`, clamped to the buffer,
      at that offset, and then the rest. */
  function Chunks(buffer: Bytes, offset: nat): seq<PatchRequest>
    requires offset <= |buffer|
    decreases |buffer| - offset
  {
    if offset == |buffer| then []
    else
      var end := Min(offset + ChunkSize, |buffer|);
      [PatchRequest(offset, buffer[offset..end])] + Chunks(buffer, end)
  }

  /** The bodies of a run of requests, end to end. */
  function Concat(reqs: seq<PatchRequest>): Bytes {
    if reqs == [] then [] else reqs[0].body + Concat(reqs[1..])
  }

  lemma {:induction false} ConcatAppend(reqs: seq<PatchRequest>, r: PatchRequest)
    ensures Concat(reqs + [r]) == Concat(reqs) + r.body
  {
    if reqs != [] {
      assert (reqs + [r])[1..] == reqs[1..] + [r];
      ConcatAppend(reqs[1..], r);
    }
  }

  /** The chunks from `offset` on are together exactly the rest of the
      buffer. */
  lemma {:induction false} ChunksConcat(buffer: Bytes, offset: nat)
    requires offset <= |buffer|
    ensures Concat(Chunks(buffer, offset)) == buffer[offset..]
    decreases |buffer| - offset
  {
    if offset < |buffer| {
      var end := Min(offset + ChunkSize, |buffer|);
      ChunksConcat(buffer, end);
      assert buffer[offset..] == buffer[offset..end] + buffer[end..];
    }
  }

  /** Every chunk is non-empty and at most 5 MiB, and is the slice of the
      buffer at its own offset. */
  lemma {:induction false} ChunksBounded(buffer: Bytes, offset: nat)
    requires offset <= |buffer|
    ensures var cs := Chunks(buffer, offset);
            forall i :: 0 <= i < |cs| ==>
              && 0 < |cs[i].body| <= ChunkSize
              && offset <= cs[i].offset && cs[i].offset + |cs[i].body| <= |buffer|
              && cs[i].body == buffer[cs[i].offset..cs[i].offset + |cs[i].body|]
    decreases |buffer| - offset
  {
    if offset < |buffer| {
      var end := Min(offset + ChunkSize, |buffer|);
      ChunksBounded(buffer, end);
      var cs := Chunks(buffer, offset);
      assert forall i :: 1 <= i < |cs| ==> cs[i] == Chunks(buffer, end)[i - 1];
    }
  }

  /** The first chunk goes at `offset` and each later one at the offset
      where the bodies before it end. */
  lemma {:induction false} ChunksContiguous(buffer: Bytes, offset: nat)
    requires offset <= |buffer|
    ensures forall i :: 0 <= i < |Chunks(buffer, offset)| ==>
              Chunks(buffer, offset)[i].offset == offset + |Concat(Chunks(buffer, offset)[..i])|
    decreases |buffer| - offset
  {
    if offset < |buffer| {
      var end := Min(offset + ChunkSize, |buffer|);
      var cs := Chunks(buffer, offset);
      var rest := Chunks(buffer, end);
      ChunksContiguous(buffer, end);
      assert cs[..0] == [];
      assert cs[1..] == rest;
      forall i | 0 < i < |cs|
        ensures cs[i].offset == offset + |Concat(cs[..i])|
      {
        assert cs[..i][1..] == rest[..i - 1];
        assert Concat(cs[..i]) == cs[0].body + Concat(rest[..i - 1]);
        assert |cs[0].body| == end - offset;
        assert cs[i] == rest[i - 1];
        assert rest[i - 1].offset == end + |Concat(rest[..i - 1])|;
      }
    }
  }

  /** The chunk loop of `uploadTrip`: from offset 0, while the offset is
      short of the buffer's length, send the next slice at the current offset
      and advance by the slice's length. */
  method ChunkLoop(buffer: Bytes) returns (reqs: seq<PatchRequest>)
    ensures reqs == Chunks(buffer, 0)
    ensures Concat(reqs) == buffer
  {
    reqs := [];
    var offset := 0;
    while offset < |buffer|
      invariant 0 <= offset <= |buffer|
      invariant reqs + Chunks(buffer, offset) == Chunks(buffer, 0)
      invariant Concat(reqs) == buffer[..offset]
      decreases |buffer| - offset
    {
      var nextChunk := buffer[offset..Min(offset + ChunkSize, |buffer|)];
      assert Chunks(buffer, offset) == [PatchRequest(offset, nextChunk)] + Chunks(buffer, offset + |nextChunk|);
      ConcatAppend(reqs, PatchRequest(offset, nextChunk));
      assert buffer[..offset] + nextChunk == buffer[..offset + |nextChunk|];
      reqs := reqs + [PatchRequest(offset, nextChunk)];
      offset := offset + |nextChunk|;
    }
    assert buffer[..offset] == buffer;
  }

  // -------------------------------------------------------------- duration

  /** The duration reported for a trip: the larger of the on-screen timer
      and the whole seconds between start and end (`Math.floor` of the
      milliseconds over 1000). */
  function TripDuration(timer: int, startMs: int, endMs: int): (d: int)
    ensures d >= timer
    ensures d * 1000 >= endMs - startMs - 999
    ensures d == timer || d * 1000 <= endMs - startMs
  {
    Max(timer, (endMs - startMs) / 1000)
  }
}
