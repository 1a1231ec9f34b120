/** `src/services/api.ts`: the authorization header, the activity mapper and the two fetch
    wrappers (activity summary, activity track). The wrappers keep no state: each is a function
    of the token and the outcome of its one remote call. */
module Api {
  import opened Remote
  import opened Datetime
  import opened Records

  /** The requests a wrapper issued, and what its returned promise settles to. */
  datatype Reply<T> = Reply(sent: seq<Request>, result: Result<T, string>)

  /** `getAuthHeaders`: the `Authorization` header value, or the error it throws when there is
      no token. */
  function AuthHeaders(token: Option<string>): (r: Result<string, string>)
    ensures r.Failure? <==> !Present(token)
    ensures r.Failure? ==> r.error == "Not authenticated"
    ensures r.Success? ==> r.value == "Bearer " + token.value
  {
    if Present(token) then Success("Bearer " + token.value) else Failure("Not authenticated")
  }

  /** `mapApiActivity` of this file: the duration is parsed and rendered, a missing elevation
      change becomes 0, and every other property is copied as it is, missing ones included. */
  function MapApiActivity(raw: RawActivity): (a: Activity)
    ensures a.durationSeconds == ParseIsoDuration(DurationInput(raw.duration))
    ensures DurationsAgree(a)
    ensures a.elevationGain == Value(Coalesce(raw.elevationChangeUp, 0.0))
    ensures a.elevationLoss == Value(Coalesce(raw.elevationChangeDown, 0.0))
    ensures a.id == raw.id && a.start == raw.start && a.distance == raw.distance
    ensures a.typeId == raw.typeId && a.subTypeId == raw.subTypeId && a.name == raw.name
    ensures a.avgSpeed == raw.avgSpeed && a.maxSpeed == raw.maxSpeed
  {
    var elevationGain := Coalesce(raw.elevationChangeUp, 0.0);
    var elevationLoss := Coalesce(raw.elevationChangeDown, 0.0);
    Activity(
      id := raw.id,
      start := raw.start,
      duration := FormatDuration(ParseIsoDuration(DurationInput(raw.duration))),
      durationSeconds := ParseIsoDuration(DurationInput(raw.duration)),
      distance := raw.distance,
      elevationGain := Value(elevationGain),
      elevationLoss := Value(elevationLoss),
      typeId := raw.typeId,
      subTypeId := raw.subTypeId,
      name := raw.name,
      avgSpeed := raw.avgSpeed,
      maxSpeed := raw.maxSpeed)
  }

  /** A mapped activity's elevation is never missing or null: it is a number, 0 by default. */
  lemma ElevationAlwaysNumber(raw: RawActivity)
    ensures MapApiActivity(raw).elevationGain.Value?
    ensures MapApiActivity(raw).elevationLoss.Value?
    ensures !raw.elevationChangeUp.Value? ==> MapApiActivity(raw).elevationGain == Value(0.0)
    ensures !raw.elevationChangeDown.Value? ==> MapApiActivity(raw).elevationLoss == Value(0.0)
  {
  }

  /** `fetchActivitySummary`: without a token it fails before any request; a response that is
      not ok becomes "Activity not found."; an ok one is mapped. */
  function FetchActivitySummary(activityId: string, token: Option<string>,
                                response: Outcome<RawActivity>): (r: Reply<Activity>)
    ensures !Present(token) ==> r == Reply([], Failure("Not authenticated"))
    ensures Present(token) ==> r.sent == [Request(Get, "/activity/" + activityId)]
    ensures Present(token) && response.NotOk? ==> r.result == Failure("Activity not found.")
    ensures Present(token) && response.Raised? ==> r.result == Failure(response.message)
    ensures Present(token) && response.Ok? ==> r.result == Success(MapApiActivity(response.payload))
  {
    match AuthHeaders(token)
    case Failure(e) => Reply([], Failure(e))
    case Success(_) =>
      var sent := [Request(Get, "/activity/" + activityId)];
      match response
      case NotOk => Reply(sent, Failure("Activity not found."))
      case Raised(m) => Reply(sent, Failure(m))
      case Ok(raw) => Reply(sent, Success(MapApiActivity(raw)))
  }

  // ----- track points -----

  /** A track point as the backend sends it. */
  datatype RawTrackPoint = RawTrackPoint(
    latitude: Field<real>,
    longitude: Field<real>,
    elevation: Field<real>,
    cumDistance: Field<real>,
    speedMS: Field<real>,
    heartrate: Field<real>,
    cadence: Field<real>,
    power: Field<real>)

  /** `TrackPoint`: the same eight values under the client's names. */
  datatype TrackPoint = TrackPoint(
    lat: Field<real>,
    lon: Field<real>,
    ele: Field<real>,
    dist: Field<real>,
    speed: Field<real>,
    hr: Field<real>,
    cad: Field<real>,
    power: Field<real>)

  /** The parsed track response: its `data` property may be missing or null. */
  datatype TrackResponse = TrackResponse(data: Field<seq<RawTrackPoint>>)

  /** The renaming applied to each track point. */
  function MapTrackPoint(p: RawTrackPoint): TrackPoint
  {
    TrackPoint(
      lat := p.latitude,
      lon := p.longitude,
      ele := p.elevation,
      dist := p.cumDistance,
      speed := p.speedMS,
      hr := p.heartrate,
      cad := p.cadence,
      power := p.power)
  }

  /** The backend's names for a client track point: the renaming read backwards. */
  function UnmapTrackPoint(t: TrackPoint): RawTrackPoint
  {
    RawTrackPoint(
      latitude := t.lat,
      longitude := t.lon,
      elevation := t.ele,
      cumDistance := t.dist,
      speedMS := t.speed,
      heartrate := t.hr,
      cadence := t.cad,
      power := t.power)
  }

  /** The renaming is one-to-one: each value lands in exactly one client field and can be read
      back under its backend name. */
  lemma TrackPointRenaming(p: RawTrackPoint, t: TrackPoint)
    ensures UnmapTrackPoint(MapTrackPoint(p)) == p
    ensures MapTrackPoint(UnmapTrackPoint(t)) == t
  {
  }

  /** `data.map(...)`: one client point per backend point, in the same order. */
  function MapTrackPoints(ps: seq<RawTrackPoint>): (r: seq<TrackPoint>)
    ensures |r| == |ps|
    ensures forall i :: 0 <= i < |ps| ==> r[i] == MapTrackPoint(ps[i])
    ensures forall i :: 0 <= i < |ps| ==> UnmapTrackPoint(r[i]) == ps[i]
  {
    seq(|ps|, i requires 0 <= i < |ps| => MapTrackPoint(ps[i]))
  }

  /** Different tracks map to different point lists: the mapping loses nothing. */
  lemma TrackMappingInjective(ps: seq<RawTrackPoint>, qs: seq<RawTrackPoint>)
    requires MapTrackPoints(ps) == MapTrackPoints(qs)
    ensures ps == qs
  {
    assert |ps| == |qs|;
    forall i | 0 <= i < |ps| ensures ps[i] == qs[i] {
      assert UnmapTrackPoint(MapTrackPoints(ps)[i]) == ps[i];
      assert UnmapTrackPoint(MapTrackPoints(qs)[i]) == qs[i];
    }
  }

  /** `fetchActivityTrack`: without a token it fails before any request; a response that is not
      ok becomes "Failed to fetch activity track data."; a response without `data` gives no
      points; otherwise the points are renamed one by one. */
  function FetchActivityTrack(activityId: string, token: Option<string>,
                              response: Outcome<TrackResponse>): (r: Reply<seq<TrackPoint>>)
    ensures !Present(token) ==> r == Reply([], Failure("Not authenticated"))
    ensures Present(token) ==> r.sent == [Request(Get, "/track/" + activityId)]
    ensures Present(token) && response.NotOk? ==>
              r.result == Failure("Failed to fetch activity track data.")
    ensures Present(token) && response.Raised? ==> r.result == Failure(response.message)
    ensures Present(token) && response.Ok? && !response.payload.data.Value? ==>
              r.result == Success([])
    ensures Present(token) && response.Ok? && response.payload.data.Value? ==>
              r.result.Success? && |r.result.value| == |response.payload.data.value|
    ensures Present(token) && response.Ok? && response.payload.data.Value? ==>
              r.result == Success(MapTrackPoints(response.payload.data.value))
  {
    match AuthHeaders(token)
    case Failure(e) => Reply([], Failure(e))
    case Success(_) =>
      var sent := [Request(Get, "/track/" + activityId)];
      match response
      case NotOk => Reply(sent, Failure("Failed to fetch activity track data."))
      case Raised(m) => Reply(sent, Failure(m))
      case Ok(body) =>
        if !body.data.Value? then Reply(sent, Success([]))
        else Reply(sent, Success(MapTrackPoints(body.data.value)))
  }
}
