/** `src/stores/location.ts`: saved locations, the ones inside the visible map area, the one
    selected with the activities matched to it, and the locations attached to an activity. */
module Locations {
  import opened Remote
  import opened Datetime
  import opened Records
  import Api

  datatype Location = Location(
    id: string,
    name: string,
    description: Option<string>,
    latitude: real,
    longitude: real,
    createdAt: string)

  /** The latitude/longitude rectangle of the visible map. */
  datatype MapBounds = MapBounds(latMin: real, latMax: real, lngMin: real, lngMax: real)

  /** The mapper local to this store: unlike the one in `src/services/api.ts`, every optional
      property falls back to `null` (elevations included), and the type id is copied. */
  function MapApiActivity(raw: RawActivity): (a: Activity)
    ensures a.durationSeconds == ParseIsoDuration(DurationInput(raw.duration))
    ensures DurationsAgree(a)
    ensures a.id == raw.id && a.start == raw.start && a.distance == raw.distance
    ensures a.typeId == raw.typeId
    ensures a.elevationGain == OrNull(raw.elevationChangeUp)
    ensures a.elevationLoss == OrNull(raw.elevationChangeDown)
    ensures a.name == OrNull(raw.name) && a.subTypeId == OrNull(raw.subTypeId)
    ensures a.avgSpeed == OrNull(raw.avgSpeed) && a.maxSpeed == OrNull(raw.maxSpeed)
  {
    var seconds := ParseIsoDuration(DurationInput(raw.duration));
    Activity(
      id := raw.id,
      start := raw.start,
      duration := FormatDuration(seconds),
      durationSeconds := seconds,
      distance := raw.distance,
      elevationGain := OrNull(raw.elevationChangeUp),
      elevationLoss := OrNull(raw.elevationChangeDown),
      typeId := raw.typeId,
      subTypeId := OrNull(raw.subTypeId),
      name := OrNull(raw.name),
      avgSpeed := OrNull(raw.avgSpeed),
      maxSpeed := OrNull(raw.maxSpeed))
  }

  /** The two activity mappers agree exactly when the optional properties they treat differently
      are there: the elevations held as numbers, and name, sub type and speeds at least `null`. */
  lemma MappersAgree(raw: RawActivity)
    ensures MapApiActivity(raw) == Api.MapApiActivity(raw) <==>
              && raw.elevationChangeUp.Value? && raw.elevationChangeDown.Value?
              && !raw.name.Undefined? && !raw.subTypeId.Undefined?
              && !raw.avgSpeed.Undefined? && !raw.maxSpeed.Undefined?
    ensures MapApiActivity(raw).durationSeconds == Api.MapApiActivity(raw).durationSeconds
    ensures MapApiActivity(raw).duration == Api.MapApiActivity(raw).duration
  {
    var l, a := MapApiActivity(raw), Api.MapApiActivity(raw);
    if l == a {
      assert l.elevationGain == a.elevationGain && l.elevationLoss == a.elevationLoss;
      assert l.name == a.name && l.subTypeId == a.subTypeId;
      assert l.avgSpeed == a.avgSpeed && l.maxSpeed == a.maxSpeed;
    }
  }

  /** The activities matched to a location, in the response's order. */
  function LocationActivities(data: seq<RawActivity>): (r: seq<Activity>)
    ensures |r| == |data|
    ensures forall i :: 0 <= i < |data| ==> r[i] == MapApiActivity(data[i])
    ensures forall i :: 0 <= i < |r| ==> DurationsAgree(r[i])
  {
    seq(|data|, i requires 0 <= i < |data| => MapApiActivity(data[i]))
  }

  const BoundsKeys: seq<QueryKey> :=
    [LatitudeLowerBound, LatitudeUpperBound, LongitudeLowerBound,
     LongitudeUpperBound, Limit]

  /** The parameters `fetchLocationsInBounds` appends, all unconditionally: the four bounds,
      each rendered by `show` (`Number.prototype.toString`), then a limit of 100. */
  function BoundsSlots(bounds: MapBounds, show: real -> string): seq<Slot>
  {
    [(LatitudeLowerBound, Some(show(bounds.latMin))), (LatitudeUpperBound, Some(show(bounds.latMax))),
     (LongitudeLowerBound, Some(show(bounds.lngMin))), (LongitudeUpperBound, Some(show(bounds.lngMax))),
     (Limit, Some("100"))]
  }

  /** The query of `fetchLocationsInBounds`. */
  function BoundsParams(bounds: MapBounds, show: real -> string): (ps: seq<Param>)
  {
    Appended(BoundsSlots(bounds, show))
  }

  /** Each bound and the limit is looked up with the value `fetchLocationsInBounds` gives it. */
  lemma BoundsParamsContents(bounds: MapBounds, show: real -> string)
    ensures Lookup(BoundsParams(bounds, show), LatitudeLowerBound) == Some(show(bounds.latMin))
    ensures Lookup(BoundsParams(bounds, show), LatitudeUpperBound) == Some(show(bounds.latMax))
    ensures Lookup(BoundsParams(bounds, show), LongitudeLowerBound) == Some(show(bounds.lngMin))
    ensures Lookup(BoundsParams(bounds, show), LongitudeUpperBound) == Some(show(bounds.lngMax))
    ensures Lookup(BoundsParams(bounds, show), Limit) == Some("100")
  {
    var slots := BoundsSlots(bounds, show);
    AppendedAt(slots, 0);
    AppendedAt(slots, 1);
    AppendedAt(slots, 2);
    AppendedAt(slots, 3);
    AppendedAt(slots, 4);
  }

  /** The bounds query names exactly the four bounds and the limit, in that order, each once. */
  lemma BoundsParamsKeys(bounds: MapBounds, show: real -> string)
    ensures Keys(BoundsParams(bounds, show)) == BoundsKeys
  {
    var slots := BoundsSlots(bounds, show);
    AppendedFive(slots[0], slots[1], slots[2], slots[3], slots[4]);
  }

  /** The successive `append`s of `fetchLocationsInBounds`. */
  method BuildBoundsQuery(bounds: MapBounds, show: real -> string) returns (params: seq<Param>)
    ensures params == BoundsParams(bounds, show)
  {
    params := [];
    params := params + [(LatitudeLowerBound, show(bounds.latMin))];
    params := params + [(LatitudeUpperBound, show(bounds.latMax))];
    params := params + [(LongitudeLowerBound, show(bounds.lngMin))];
    params := params + [(LongitudeUpperBound, show(bounds.lngMax))];
    params := params + [(Limit, "100")];
    AppendedFive((LatitudeLowerBound, Some(show(bounds.latMin))), (LatitudeUpperBound, Some(show(bounds.latMax))),
                 (LongitudeLowerBound, Some(show(bounds.lngMin))), (LongitudeUpperBound, Some(show(bounds.lngMax))),
                 (Limit, Some("100")));
  }

  const AllLocationsUrl := "/location/?limit=100"
  const MostRecentUrl := "/location/?limit=1"
  const FallbackCenter: (real, real) := (48.13, 11.58)

  /** `(l) => l.id !== locationId`. */
  function IdIsNot(locationId: string): Location -> bool
  {
    (l: Location) => l.id != locationId
  }

  /** Deleting keeps every other location and no location with the deleted id. */
  lemma {:induction false} RemovalKeepsOthers(ls: seq<Location>, locationId: string)
    ensures forall i :: 0 <= i < |Filter(ls, IdIsNot(locationId))| ==>
              Filter(ls, IdIsNot(locationId))[i].id != locationId
    ensures (forall i :: 0 <= i < |ls| ==> ls[i].id != locationId) ==>
              Filter(ls, IdIsNot(locationId)) == ls
    ensures forall l :: l in ls && l.id != locationId ==> l in Filter(ls, IdIsNot(locationId))
  {
    if forall i :: 0 <= i < |ls| ==> ls[i].id != locationId {
      FilterKeepsAll(ls, IdIsNot(locationId));
    }
  }

  class LocationStore {
    var visibleLocations: seq<Location>
    var availableLocations: seq<Location>
    var selectedLocation: Option<Location>
    var selectedLocationActivities: seq<Activity>
    var currentActivityLocations: seq<Location>
    var isLoading: bool
    var error: Option<string>

    constructor ()
      ensures visibleLocations == [] && availableLocations == [] && currentActivityLocations == []
      ensures selectedLocation == None && selectedLocationActivities == []
      ensures !isLoading && error == None
    {
      visibleLocations := [];
      availableLocations := [];
      selectedLocation := None;
      selectedLocationActivities := [];
      currentActivityLocations := [];
      isLoading := false;
      error := None;
    }

    /** `fetchLocationsInBounds`: the query is built by appending one pair at a time. */
    method FetchLocationsInBounds(bounds: MapBounds, show: real -> string,
                                  response: Outcome<seq<Location>>)
      returns (sent: seq<Request>)
      modifies this
      ensures sent == [Request(Get, "/location/?" + QueryString(BoundsParams(bounds, show)))]
      ensures !isLoading
      ensures response.Ok? ==> visibleLocations == response.payload && error == None
      ensures response.NotOk? ==>
                visibleLocations == old(visibleLocations) && error == Some("Failed to fetch locations.")
      ensures response.Raised? ==>
                visibleLocations == old(visibleLocations) && error == Some(response.message)
      ensures availableLocations == old(availableLocations)
      ensures selectedLocation == old(selectedLocation)
      ensures selectedLocationActivities == old(selectedLocationActivities)
      ensures currentActivityLocations == old(currentActivityLocations)
    {
      isLoading := true;
      error := None;
      var params := BuildBoundsQuery(bounds, show);
      sent := [Request(Get, "/location/?" + QueryString(params))];
      match response {
        case Ok(data) => visibleLocations := data;
        case NotOk => error := Some("Failed to fetch locations.");
        case Raised(m) => error := Some(m);
      }
      isLoading := false;
    }

    /** `fetchAllLocations`: failures are only logged. */
    method FetchAllLocations(response: Outcome<seq<Location>>) returns (sent: seq<Request>)
      modifies this
      ensures sent == [Request(Get, AllLocationsUrl)]
      ensures availableLocations == if response.Ok? then response.payload else old(availableLocations)
      ensures visibleLocations == old(visibleLocations) && isLoading == old(isLoading)
      ensures error == old(error) && selectedLocation == old(selectedLocation)
      ensures selectedLocationActivities == old(selectedLocationActivities)
      ensures currentActivityLocations == old(currentActivityLocations)
    {
      sent := [Request(Get, AllLocationsUrl)];
      if response.Ok? {
        availableLocations := response.payload;
      }
    }

    /** `selectLocation`: clears the selection, loads the details, and only once they arrived
        loads the matched activities. The error of an earlier action is not cleared. */
    method SelectLocation(locationId: string, details: Outcome<Location>,
                          activities: Outcome<seq<RawActivity>>)
      returns (sent: seq<Request>)
      modifies this
      ensures !isLoading
      ensures details.Ok? ==>
                sent == [Request(Get, "/location/" + locationId),
                         Request(Get, "/location/" + locationId + "/activities")]
                && selectedLocation == Some(details.payload)
      ensures !details.Ok? ==>
                sent == [Request(Get, "/location/" + locationId)]
                && selectedLocation == None && selectedLocationActivities == []
      ensures details.NotOk? ==> error == Some("Failed to load location details.")
      ensures details.Raised? ==> error == Some(details.message)
      ensures details.Ok? && activities.Ok? ==>
                selectedLocationActivities == LocationActivities(activities.payload)
                && error == old(error)
      ensures details.Ok? && activities.NotOk? ==>
                selectedLocationActivities == [] && error == old(error)
      ensures details.Ok? && activities.Raised? ==>
                selectedLocationActivities == [] && error == Some(activities.message)
      ensures visibleLocations == old(visibleLocations)
      ensures availableLocations == old(availableLocations)
      ensures currentActivityLocations == old(currentActivityLocations)
    {
      isLoading := true;
      selectedLocation := None;
      selectedLocationActivities := [];
      sent := [Request(Get, "/location/" + locationId)];
      match details {
        case NotOk => error := Some("Failed to load location details.");
        case Raised(m) => error := Some(m);
        case Ok(location) =>
          selectedLocation := Some(location);
          sent := sent + [Request(Get, "/location/" + locationId + "/activities")];
          match activities {
            case Ok(data) => selectedLocationActivities := LocationActivities(data);
            case NotOk =>
            case Raised(m) => error := Some(m);
          }
      }
      isLoading := false;
    }

    /** `createLocation`: the created location is not added to any list. */
    method CreateLocation(response: Outcome<Location>) returns (sent: seq<Request>, created: bool)
      modifies this
      ensures sent == [Request(Put, "/location/")]
      ensures created <==> response.Ok?
      ensures !isLoading
      ensures response.Ok? ==> error == old(error)
      ensures response.NotOk? ==> error == Some("Failed to create location.")
      ensures response.Raised? ==> error == Some(response.message)
      ensures visibleLocations == old(visibleLocations)
      ensures availableLocations == old(availableLocations)
      ensures selectedLocation == old(selectedLocation)
      ensures selectedLocationActivities == old(selectedLocationActivities)
      ensures currentActivityLocations == old(currentActivityLocations)
    {
      isLoading := true;
      sent := [Request(Put, "/location/")];
      match response {
        case Ok(_) => created := true;
        case NotOk =>
          error := Some("Failed to create location.");
          created := false;
        case Raised(m) =>
          error := Some(m);
          created := false;
      }
      isLoading := false;
    }

    /** `deleteLocation`: after the backend confirmed, the location leaves the visible list and,
        when it was the selected one, the selection. Failures are only logged. */
    method DeleteLocation(locationId: string, response: Outcome<()>)
      returns (sent: seq<Request>, deleted: bool)
      modifies this
      ensures sent == [Request(Delete, "/location/" + locationId)]
      ensures deleted <==> response.Ok?
      ensures deleted ==> visibleLocations == Filter(old(visibleLocations), IdIsNot(locationId))
      ensures deleted && old(selectedLocation).Some? && old(selectedLocation).value.id == locationId ==>
                selectedLocation == None && selectedLocationActivities == []
      ensures !deleted || old(selectedLocation).None? || old(selectedLocation).value.id != locationId ==>
                selectedLocation == old(selectedLocation)
                && selectedLocationActivities == old(selectedLocationActivities)
      ensures !deleted ==> visibleLocations == old(visibleLocations)
      ensures error == old(error) && isLoading == old(isLoading)
      ensures availableLocations == old(availableLocations)
      ensures currentActivityLocations == old(currentActivityLocations)
    {
      sent := [Request(Delete, "/location/" + locationId)];
      if !response.Ok? {
        return sent, false;
      }
      visibleLocations := Filter(visibleLocations, IdIsNot(locationId));
      if selectedLocation.Some? && selectedLocation.value.id == locationId {
        selectedLocation := None;
        selectedLocationActivities := [];
      }
      deleted := true;
    }

    /** `fetchLocationsForActivity`: any failure empties the list. */
    method FetchLocationsForActivity(activityId: string, response: Outcome<seq<Location>>)
      returns (sent: seq<Request>)
      modifies this
      ensures sent == [Request(Get, "/activity/" + activityId + "/locations")]
      ensures currentActivityLocations == if response.Ok? then response.payload else []
      ensures visibleLocations == old(visibleLocations) && isLoading == old(isLoading)
      ensures error == old(error) && availableLocations == old(availableLocations)
      ensures selectedLocation == old(selectedLocation)
      ensures selectedLocationActivities == old(selectedLocationActivities)
    {
      sent := [Request(Get, "/activity/" + activityId + "/locations")];
      currentActivityLocations := if response.Ok? then response.payload else [];
    }

    /** `addLocationToActivity`: the attached locations are fetched again only after the backend
        confirmed, and the result is true whatever that second fetch brings. */
    method AddLocationToActivity(activityId: string, locationId: string, response: Outcome<()>,
                                 refresh: Outcome<seq<Location>>)
      returns (sent: seq<Request>, added: bool)
      modifies this
      ensures added <==> response.Ok?
      ensures |sent| >= 1 && sent[..1] == [Request(Patch, "/activity/" + activityId + "/add_location?"
                                             + QueryString([(LocationId, locationId)]))]
      ensures added ==> |sent| == 2 && sent[1] == Request(Get, "/activity/" + activityId + "/locations")
                        && currentActivityLocations == (if refresh.Ok? then refresh.payload else [])
      ensures !added ==> |sent| == 1 && currentActivityLocations == old(currentActivityLocations)
      ensures visibleLocations == old(visibleLocations) && isLoading == old(isLoading)
      ensures error == old(error) && availableLocations == old(availableLocations)
      ensures selectedLocation == old(selectedLocation)
      ensures selectedLocationActivities == old(selectedLocationActivities)
    {
      var params: seq<Param> := [];
      params := params + [(LocationId, locationId)];
      sent := [Request(Patch, "/activity/" + activityId + "/add_location?" + QueryString(params))];
      if !response.Ok? {
        return sent, false;
      }
      var again := FetchLocationsForActivity(activityId, refresh);
      sent := sent + again;
      added := true;
    }

    /** `removeLocationFromActivity`: as adding, with a DELETE on the pair's own path. */
    method RemoveLocationFromActivity(activityId: string, locationId: string, response: Outcome<()>,
                                      refresh: Outcome<seq<Location>>)
      returns (sent: seq<Request>, removed: bool)
      modifies this
      ensures removed <==> response.Ok?
      ensures |sent| >= 1 && sent[..1] == [Request(Delete, "/activity/" + activityId + "/locations/" + locationId)]
      ensures removed ==> |sent| == 2 && sent[1] == Request(Get, "/activity/" + activityId + "/locations")
                          && currentActivityLocations == (if refresh.Ok? then refresh.payload else [])
      ensures !removed ==> |sent| == 1 && currentActivityLocations == old(currentActivityLocations)
      ensures visibleLocations == old(visibleLocations) && isLoading == old(isLoading)
      ensures error == old(error) && availableLocations == old(availableLocations)
      ensures selectedLocation == old(selectedLocation)
      ensures selectedLocationActivities == old(selectedLocationActivities)
    {
      sent := [Request(Delete, "/activity/" + activityId + "/locations/" + locationId)];
      if !response.Ok? {
        return sent, false;
      }
      var again := FetchLocationsForActivity(activityId, refresh);
      sent := sent + again;
      removed := true;
    }

    /** `findLocationMapCenter` with `_getMostRecentCoordinates`: the coordinates of the most
        recent location, or the fixed fallback when there is none or the request fails. */
    method FindLocationMapCenter(response: Outcome<Field<seq<Location>>>)
      returns (sent: seq<Request>, center: (real, real))
      ensures sent == [Request(Get, MostRecentUrl)]
      ensures response.Ok? && response.payload.Value? && |response.payload.value| > 0 ==>
                center == (response.payload.value[0].latitude, response.payload.value[0].longitude)
      ensures !(response.Ok? && response.payload.Value? && |response.payload.value| > 0) ==>
                center == FallbackCenter
    {
      sent := [Request(Get, MostRecentUrl)];
      var recent: Option<(real, real)> := None;
      if response.Ok? && response.payload.Value? && |response.payload.value| > 0 {
        var first := response.payload.value[0];
        recent := Some((first.latitude, first.longitude));
      }
      center := if recent.Some? then recent.value else FallbackCenter;
    }
  }
}
