/** `src/stores/weekly.ts`: the per-day figures of one week for one activity type. */
module Weekly {
  import opened Remote
  import opened Text

  /** One metric of the week: a value (or null) per day, a split by sub type, and the total. */
  datatype MetricData = MetricData(perDay: map<string, Option<real>>, pieData: map<string, real>, total: real)

  datatype WeeklyStats = WeeklyStats(distance: MetricData, elevationGain: MetricData, duration: MetricData)

  const WeeklyKeys: seq<QueryKey> := [Year, Week, ActivityTypeId]

  /** The parameters `fetchWeeklyStats` may append, in its order. */
  function WeeklySlots(year: Option<int>, week: Option<int>, activityTypeId: int): seq<Slot>
  {
    [(Year, TruthyText(year)), (Week, TruthyText(week)), (ActivityTypeId, Some(IntToString(activityTypeId)))]
  }

  /** The query of `fetchWeeklyStats`. */
  function WeeklyQuery(year: Option<int>, week: Option<int>, activityTypeId: int): (ps: seq<Param>)
  {
    Appended(WeeklySlots(year, week, activityTypeId))
  }

  /** Year and week are sent only when truthy, the activity type always, and in the order year,
      week, type. */
  lemma WeeklyQueryContents(year: Option<int>, week: Option<int>, activityTypeId: int)
    ensures Lookup(WeeklyQuery(year, week, activityTypeId), Year) == TruthyText(year)
    ensures Lookup(WeeklyQuery(year, week, activityTypeId), Week) == TruthyText(week)
    ensures Lookup(WeeklyQuery(year, week, activityTypeId), ActivityTypeId)
              == Some(IntToString(activityTypeId))
    ensures InOrder(WeeklyQuery(year, week, activityTypeId), WeeklyKeys)
  {
    var slots := WeeklySlots(year, week, activityTypeId);
    AppendedAt(slots, 0);
    AppendedAt(slots, 1);
    AppendedAt(slots, 2);
    AppendedInOrder(slots);
    assert SlotKeys(slots) == WeeklyKeys;
  }

  /** The successive `append`s of `fetchWeeklyStats`. */
  method BuildWeeklyQuery(year: Option<int>, week: Option<int>, activityTypeId: int)
    returns (params: seq<Param>)
    ensures params == WeeklyQuery(year, week, activityTypeId)
  {
    var yearSlot, weekSlot := (Year, TruthyText(year)), (Week, TruthyText(week));
    params := [];
    if Truthy(year) {
      params := params + [(Year, IntToString(year.value))];
    }
    assert params == Part(yearSlot);
    if Truthy(week) {
      params := params + [(Week, IntToString(week.value))];
    }
    assert params == Part(yearSlot) + Part(weekSlot);
    params := params + [(ActivityTypeId, IntToString(activityTypeId))];
    AppendedThree(yearSlot, weekSlot, (ActivityTypeId, Some(IntToString(activityTypeId))));
  }

  class WeeklyStore {
    var weeklyData: Option<WeeklyStats>
    var isLoading: bool
    var error: Option<string>

    constructor ()
      ensures weeklyData == None && !isLoading && error == None
    {
      weeklyData := None;
      isLoading := false;
      error := None;
    }

    /** `fetchWeeklyStats`: a failure keeps the figures held before. */
    method FetchWeeklyStats(token: Option<string>, year: Option<int>, week: Option<int>,
                            activityTypeId: int, response: Outcome<WeeklyStats>)
      returns (sent: seq<Request>)
      modifies this
      ensures !isLoading
      ensures !Present(token) ==>
                sent == [] && error == Some("Not authenticated.") && weeklyData == old(weeklyData)
      ensures Present(token) ==>
                sent == [Request(Get, "/statistics/week?" + QueryString(WeeklyQuery(year, week, activityTypeId)))]
      ensures Present(token) && response.Ok? ==> weeklyData == Some(response.payload) && error == None
      ensures Present(token) && response.NotOk? ==>
                weeklyData == old(weeklyData) && error == Some("Failed to fetch weekly stats.")
      ensures Present(token) && response.Raised? ==>
                weeklyData == old(weeklyData) && error == Some(response.message)
    {
      isLoading := true;
      error := None;
      if !Present(token) {
        error := Some("Not authenticated.");
        isLoading := false;
        return [];
      }
      var params := BuildWeeklyQuery(year, week, activityTypeId);
      sent := [Request(Get, "/statistics/week?" + QueryString(params))];
      match response {
        case Ok(stats) => weeklyData := Some(stats);
        case NotOk => error := Some("Failed to fetch weekly stats.");
        case Raised(m) => error := Some(m);
      }
      isLoading := false;
    }
  }
}
