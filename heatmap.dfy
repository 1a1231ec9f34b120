/** `src/stores/heatmap.ts`: the heat points of the user's activities and the map centre. */
module Heatmap {
  import opened Remote
  import opened Text

  /** The filters the heatmap is asked for; a missing field leaves that dimension
      unconstrained. (`ActivityFilters` is imported from `src/stores/activity.ts`, which does not
      define it; the fields are those the store reads.) */
  datatype ActivityFilters = ActivityFilters(
    year: Option<int>, month: Option<int>, typeId: Option<int>, subTypeId: Option<int>)

  /** `[lat, lon, intensity]`. */
  type HeatPoint = (real, real, real)

  datatype HeatmapResponse = HeatmapResponse(points: seq<HeatPoint>, center: (real, real))

  const HeatmapKeys: seq<QueryKey> := [Year, Month, ActivityTypeId, ActivitySubTypeId]

  /** The parameters `fetchHeatmapData` may append, in its order: each filter when truthy,
      the type ids renamed. */
  function HeatmapSlots(filters: ActivityFilters): seq<Slot>
  {
    [(Year, TruthyText(filters.year)), (Month, TruthyText(filters.month)),
     (ActivityTypeId, TruthyText(filters.typeId)), (ActivitySubTypeId, TruthyText(filters.subTypeId))]
  }

  /** The query of `fetchHeatmapData`. */
  function HeatmapQuery(filters: ActivityFilters): (ps: seq<Param>)
  {
    Appended(HeatmapSlots(filters))
  }

  /** Each filter is sent exactly when it is truthy, so 0 is left out, and the pairs come in the
      order year, month, type, sub type. */
  lemma HeatmapQueryContents(filters: ActivityFilters)
    ensures Lookup(HeatmapQuery(filters), Year) == TruthyText(filters.year)
    ensures Lookup(HeatmapQuery(filters), Month) == TruthyText(filters.month)
    ensures Lookup(HeatmapQuery(filters), ActivityTypeId) == TruthyText(filters.typeId)
    ensures Lookup(HeatmapQuery(filters), ActivitySubTypeId) == TruthyText(filters.subTypeId)
    ensures InOrder(HeatmapQuery(filters), HeatmapKeys)
  {
    var slots := HeatmapSlots(filters);
    AppendedAt(slots, 0);
    AppendedAt(slots, 1);
    AppendedAt(slots, 2);
    AppendedAt(slots, 3);
    AppendedInOrder(slots);
    assert SlotKeys(slots) == HeatmapKeys;
  }

  /** With no truthy filter the query string is empty and the URL ends in `?`. */
  lemma HeatmapQueryEmpty(filters: ActivityFilters)
    ensures HeatmapQuery(filters) == [] <==>
              !Truthy(filters.year) && !Truthy(filters.month)
              && !Truthy(filters.typeId) && !Truthy(filters.subTypeId)
  {
    HeatmapQueryContents(filters);
    LookupNone(HeatmapQuery(filters), Year);
    LookupNone(HeatmapQuery(filters), Month);
    LookupNone(HeatmapQuery(filters), ActivityTypeId);
    LookupNone(HeatmapQuery(filters), ActivitySubTypeId);
  }

  /** The successive `append`s of `fetchHeatmapData`. */
  method BuildHeatmapQuery(filters: ActivityFilters) returns (params: seq<Param>)
    ensures params == HeatmapQuery(filters)
  {
    var year, month := (Year, TruthyText(filters.year)), (Month, TruthyText(filters.month));
    var typeId := (ActivityTypeId, TruthyText(filters.typeId));
    var subTypeId := (ActivitySubTypeId, TruthyText(filters.subTypeId));
    params := [];
    if Truthy(filters.year) {
      params := params + [(Year, IntToString(filters.year.value))];
    }
    assert params == Part(year);
    if Truthy(filters.month) {
      params := params + [(Month, IntToString(filters.month.value))];
    }
    assert params == Part(year) + Part(month);
    if Truthy(filters.typeId) {
      params := params + [(ActivityTypeId, IntToString(filters.typeId.value))];
    }
    assert params == Part(year) + Part(month) + Part(typeId);
    if Truthy(filters.subTypeId) {
      params := params + [(ActivitySubTypeId, IntToString(filters.subTypeId.value))];
    }
    AppendedFour(year, month, typeId, subTypeId);
  }

  class HeatmapStore {
    var heatmapPoints: seq<HeatPoint>
    var heatmapCenter: (real, real)
    var isLoading: bool
    var error: Option<string>

    constructor ()
      ensures heatmapPoints == [] && heatmapCenter == (0.0, 0.0) && !isLoading && error == None
    {
      heatmapPoints := [];
      heatmapCenter := (0.0, 0.0);
      isLoading := false;
      error := None;
    }

    /** `fetchHeatmapData`. */
    method FetchHeatmapData(token: Option<string>, filters: ActivityFilters,
                            response: Outcome<HeatmapResponse>)
      returns (sent: seq<Request>)
      modifies this
      ensures !isLoading
      ensures !Present(token) ==>
                sent == [] && error == Some("Not authenticated")
                && heatmapPoints == old(heatmapPoints) && heatmapCenter == old(heatmapCenter)
      ensures Present(token) ==>
                sent == [Request(Get, "/heatmap/activities?" + QueryString(HeatmapQuery(filters)))]
      ensures Present(token) && response.Ok? ==>
                && heatmapPoints == response.payload.points
                && heatmapCenter == response.payload.center && error == None
      ensures Present(token) && !response.Ok? ==>
                heatmapPoints == old(heatmapPoints) && heatmapCenter == old(heatmapCenter)
      ensures Present(token) && response.NotOk? ==> error == Some("Failed to fetch heatmap data.")
      ensures Present(token) && response.Raised? ==> error == Some(response.message)
    {
      isLoading := true;
      error := None;
      if !Present(token) {
        error := Some("Not authenticated");
        isLoading := false;
        return [];
      }
      var params := BuildHeatmapQuery(filters);
      sent := [Request(Get, "/heatmap/activities?" + QueryString(params))];
      match response {
        case Ok(data) =>
          heatmapPoints := data.points;
          heatmapCenter := data.center;
        case NotOk => error := Some("Failed to fetch heatmap data.");
        case Raised(m) => error := Some(m);
      }
      isLoading := false;
    }
  }
}
