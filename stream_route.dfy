/**
 * The in-memory stream session store behind `/api/stream`: a table from
 * stream id to the uploaded frames and their metadata, filled by POST,
 * read by GET and emptied of old entries by a periodic reaper.
 */
module StreamRoute {
  import opened Results

  /** One stored stream: the ASCII frames, their playback rate, a title and the creation time in milliseconds. */
  datatype Stream = Stream(frames: seq<string>, frameRate: real, title: string, createdAt: int)

  /** Streams older than one hour are reaped. */
  const TtlMs: int := 60 * 60 * 1000
  const DefaultFrameRate: real := 24.0
  const DefaultTitle: string := "ASCII Video"
  /** The base URL used when `NEXT_PUBLIC_BASE_URL` is unset or empty. */
  const DefaultBaseUrl: string := "http://localhost:3000"

  /**
   * The `frames` field of a POST body: a falsy value (absent, null, ...),
   * a truthy value that is not an array, or an array of frames.
   */
  datatype FramesField = Missing | NotAList | List(items: seq<string>)

  /** A parsed POST body; an absent field is None, and so is a present but falsy one for the rate and title. */
  datatype Payload = Payload(frames: FramesField, frameRate: Option<real>, title: Option<string>)

  /** What the route answers: a created stream, a stream's metadata, or an error with its HTTP status. */
  datatype Response =
    | Created(streamId: string, terminalUrl: string, webUrl: string)
    | Metadata(title: string, frameCount: nat, frameRate: real)
    | Failure(status: nat, error: string)

  /** The HTTP status of a response. */
  function Status(response: Response): nat {
    if response.Failure? then response.status else 200
  }

  /** POST accepts a body only when its frames are a non-empty array. */
  predicate HasFrames(body: Payload) {
    body.frames.List? && |body.frames.items| > 0
  }

  /** `frameRate || 24`: a missing or zero rate becomes 24, any other is kept. */
  function StoredFrameRate(frameRate: Option<real>): (rate: real)
    ensures frameRate.Some? && frameRate.value != 0.0 ==> rate == frameRate.value
    ensures frameRate.None? || frameRate.value == 0.0 ==> rate == DefaultFrameRate
    ensures rate != 0.0
  {
    if frameRate.Some? && frameRate.value != 0.0 then frameRate.value else DefaultFrameRate
  }

  /** `title || 'ASCII Video'`: a missing or empty title becomes the default, any other is kept. */
  function StoredTitle(title: Option<string>): (t: string)
    ensures title.Some? && title.value != "" ==> t == title.value
    ensures title.None? || title.value == "" ==> t == DefaultTitle
    ensures t != ""
  {
    if title.Some? && title.value != "" then title.value else DefaultTitle
  }

  /** The entry POST stores for an accepted body at time `now`. */
  function NewStream(body: Payload, now: int): (s: Stream)
    requires HasFrames(body)
    ensures s.frames == body.frames.items && s.createdAt == now
    ensures s.frameRate == StoredFrameRate(body.frameRate) && s.title == StoredTitle(body.title)
  {
    Stream(body.frames.items, StoredFrameRate(body.frameRate), StoredTitle(body.title), now)
  }

  /** The browser link to a stream. */
  function WebUrl(streamId: string): (url: string)
    ensures |url| == |"/stream/"| + |streamId|
    ensures url[..|"/stream/"|] == "/stream/" && url[|"/stream/"|..] == streamId
  {
    "/stream/" + streamId
  }

  /** The base URL from the environment, or the local default when it is unset or empty. */
  function BaseUrl(configured: Option<string>): (base: string)
    ensures configured.Some? && configured.value != "" ==> base == configured.value
    ensures configured.None? || configured.value == "" ==> base == DefaultBaseUrl
  {
    if configured.Some? && configured.value != "" then configured.value else DefaultBaseUrl
  }

  /** The shell command that plays a stream in a terminal. */
  function TerminalUrl(configured: Option<string>, streamId: string): (command: string)
    ensures var prefix := "curl -s " + BaseUrl(configured) + "/api/terminal/";
            && |command| == |prefix| + |streamId|
            && command[..|prefix|] == prefix && command[|prefix|..] == streamId
  {
    var prefix := "curl -s " + BaseUrl(configured) + "/api/terminal/";
    assert (prefix + streamId)[..|prefix|] == prefix;
    prefix + streamId
  }

  /** The answer to a successful POST that stored the stream under `streamId`. */
  function CreatedResponse(configured: Option<string>, streamId: string): Response {
    Created(streamId, TerminalUrl(configured, streamId), WebUrl(streamId))
  }

  /** GET on a table: 400 without an id, 404 for an unknown one, otherwise the stream's metadata. */
  function Lookup(streams: map<string, Stream>, id: Option<string>): (response: Response)
    ensures id.None? || id.value == "" ==> response == Failure(400, "Stream ID is required")
    ensures id.Some? && id.value != "" && id.value !in streams ==> response == Failure(404, "Stream not found")
    ensures id.Some? && id.value in streams && id.value != "" ==>
              var s := streams[id.value];
              response == Metadata(s.title, |s.frames|, s.frameRate)
    ensures Status(response) == 200 <==> id.Some? && id.value != "" && id.value in streams
  {
    if id.None? || id.value == "" then Failure(400, "Stream ID is required")
    else if id.value !in streams then Failure(404, "Stream not found")
    else
      var s := streams[id.value];
      Metadata(s.title, |s.frames|, s.frameRate)
  }

  /** A stream created at `createdAt` is stale at time `now` when it is more than an hour old. */
  predicate Stale(createdAt: int, now: int) {
    createdAt < now - TtlMs
  }

  /** The table the reaper leaves at time `now`: every entry that is not stale, unchanged. */
  function Reaped(streams: map<string, Stream>, now: int): (kept: map<string, Stream>)
    ensures forall id :: id in kept <==> id in streams && !Stale(streams[id].createdAt, now)
    ensures forall id :: id in kept ==> kept[id] == streams[id]
  {
    map id | id in streams && !Stale(streams[id].createdAt, now) :: streams[id]
  }

  /** Reaping twice at the same time removes nothing more. */
  lemma ReapIdempotent(streams: map<string, Stream>, now: int)
    ensures Reaped(Reaped(streams, now), now) == Reaped(streams, now)
  {
    var once := Reaped(streams, now);
    assert Reaped(once, now).Keys == once.Keys;
  }

  /** A later reap keeps no more than an earlier one. */
  lemma ReapLaterKeepsLess(streams: map<string, Stream>, earlier: int, later: int)
    requires earlier <= later
    ensures Reaped(streams, later).Keys <= Reaped(streams, earlier).Keys
    ensures Reaped(Reaped(streams, earlier), later) == Reaped(streams, later)
  {
    assert Reaped(Reaped(streams, earlier), later).Keys == Reaped(streams, later).Keys;
  }

  /** A stream survives every reap within an hour of its creation and is lost to the first reap after that. */
  lemma StreamLifetime(streams: map<string, Stream>, id: string, now: int)
    requires id in streams
    ensures now <= streams[id].createdAt + TtlMs ==> id in Reaped(streams, now)
    ensures now > streams[id].createdAt + TtlMs ==> id !in Reaped(streams, now)
  {
  }

  /**
   * Round trip: after a POST of `body` under `streamId`, and after any reap
   * within the hour, GET on that id returns the stored title, the number
   * of frames and the stored rate.
   */
  lemma CreateThenGet(streams: map<string, Stream>, body: Payload, streamId: string, now: int, later: int)
    requires HasFrames(body) && streamId != ""
    requires now <= later <= now + TtlMs
    ensures var table := Reaped(streams[streamId := NewStream(body, now)], later);
            Lookup(table, Some(streamId))
            == Metadata(StoredTitle(body.title), |body.frames.items|, StoredFrameRate(body.frameRate))
  {
    var table := streams[streamId := NewStream(body, now)];
    assert streamId in Reaped(table, later);
  }

  /** A POST under a fresh id adds exactly one entry and changes no other. */
  lemma PostAddsOne(streams: map<string, Stream>, body: Payload, streamId: string, now: int)
    requires HasFrames(body) && streamId !in streams
    ensures var table := streams[streamId := NewStream(body, now)];
            && table.Keys == streams.Keys + {streamId}
            && |table| == |streams| + 1
            && forall id :: id in streams ==> table[id] == streams[id]
  {
    var table := streams[streamId := NewStream(body, now)];
    assert table.Keys == streams.Keys + {streamId};
  }

  /** The module-level `videoStreams` map. */
  class StreamStore {
    var streams: map<string, Stream>

    /** The table is empty when the server starts. */
    constructor()
      ensures streams == map[]
    {
      streams := map[];
    }

    /**
     * POST /api/stream: rejects a body without frames and leaves the table
     * alone; otherwise stores the stream under `streamId` (the freshly drawn
     * UUID) with creation time `now`, and answers with its links.
     * `baseUrl` is the `NEXT_PUBLIC_BASE_URL` setting.
     */
    method Post(body: Payload, streamId: string, now: int, baseUrl: Option<string>) returns (response: Response)
      modifies this
      ensures !HasFrames(body) ==> response == Failure(400, "Frames are required") && streams == old(streams)
      ensures HasFrames(body) ==>
                && streams == old(streams)[streamId := NewStream(body, now)]
                && response == CreatedResponse(baseUrl, streamId)
    {
      if body.frames.Missing? || body.frames.NotAList? || |body.frames.items| == 0 {
        return Failure(400, "Frames are required");
      }
      var frameRate := if body.frameRate.Some? && body.frameRate.value != 0.0 then body.frameRate.value else DefaultFrameRate;
      var title := if body.title.Some? && body.title.value != "" then body.title.value else DefaultTitle;
      streams := streams[streamId := Stream(body.frames.items, frameRate, title, now)];
      var base := if baseUrl.Some? && baseUrl.value != "" then baseUrl.value else DefaultBaseUrl;
      var terminalUrl := "curl -s " + base + "/api/terminal/" + streamId;
      response := Created(streamId, terminalUrl, "/stream/" + streamId);
    }

    /** GET /api/stream?id=...: answers from the table and never changes it. */
    method Get(id: Option<string>) returns (response: Response)
      ensures response == Lookup(streams, id)
    {
      if id.None? || id.value == "" {
        return Failure(400, "Stream ID is required");
      }
      if id.value !in streams {
        return Failure(404, "Stream not found");
      }
      var stream := streams[id.value];
      response := Metadata(stream.title, |stream.frames|, stream.frameRate);
    }

    /** The reaper's body at time `now`: visits every entry and deletes the stale ones. */
    method Reap(now: int)
      modifies this
      ensures streams == Reaped(old(streams), now)
    {
      var oneHourAgo := now - TtlMs;
      var pending := streams.Keys;
      while pending != {}
        invariant pending <= old(streams).Keys
        invariant forall id :: id in streams <==>
                    id in old(streams) && (id in pending || old(streams)[id].createdAt >= oneHourAgo)
        invariant forall id :: id in streams ==> streams[id] == old(streams)[id]
        decreases pending
      {
        var id :| id in pending;
        if streams[id].createdAt < oneHourAgo {
          streams := streams - {id};
        }
        pending := pending - {id};
      }
      assert streams.Keys == Reaped(old(streams), now).Keys;
    }
  }
}
