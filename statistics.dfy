/** `src/stores/statistics.ts`: the totals of one year (or of all time). */
module Statistics {
  import opened Remote
  import opened Text

  /** A total and its split by activity type id. */
  datatype Totals = Totals(total: real, perType: map<string, real>)

  datatype YearStats = YearStats(distance: Totals, duration: Totals, count: Totals)

  /** The URL of `fetchYearlyStats` (`new URL(...)` with its search parameters). */
  function YearStatsUrl(year: Option<int>): (url: string)
  {
    WithQuery("/statistics/year", Appended([(Year, TruthyText(year))]))
  }

  /** `?year=` is added only for a truthy year; otherwise the URL is the bare path. */
  lemma YearStatsUrlShape(year: Option<int>)
    ensures !Truthy(year) ==> YearStatsUrl(year) == "/statistics/year"
    ensures Truthy(year) ==> YearStatsUrl(year) == "/statistics/year?year=" + IntToString(year.value)
  {
    AppendedOne((Year, TruthyText(year)));
    if Truthy(year) {
      assert QueryString([(Year, IntToString(year.value))]) == "year=" + IntToString(year.value);
    }
  }

  class StatisticsStore {
    var yearlyStats: Option<YearStats>
    var isLoading: bool
    var error: Option<string>

    constructor ()
      ensures yearlyStats == None && !isLoading && error == None
    {
      yearlyStats := None;
      isLoading := false;
      error := None;
    }

    /** `fetchYearlyStats`: a failure clears the statistics held before. */
    method FetchYearlyStats(token: Option<string>, year: Option<int>, response: Outcome<YearStats>)
      returns (sent: seq<Request>)
      modifies this
      ensures !isLoading
      ensures !Present(token) ==>
                sent == [] && error == Some("Not authenticated.") && yearlyStats == old(yearlyStats)
      ensures Present(token) ==> sent == [Request(Get, YearStatsUrl(year))]
      ensures Present(token) && response.Ok? ==> yearlyStats == Some(response.payload) && error == None
      ensures Present(token) && response.NotOk? ==>
                yearlyStats == None && error == Some("Failed to fetch statistics.")
      ensures Present(token) && response.Raised? ==>
                yearlyStats == None && error == Some(response.message)
    {
      isLoading := true;
      error := None;
      if !Present(token) {
        error := Some("Not authenticated.");
        isLoading := false;
        return [];
      }
      var params: seq<Param> := [];
      if Truthy(year) {
        params := params + [(Year, IntToString(year.value))];
      }
      AppendedOne((Year, TruthyText(year)));
      sent := [Request(Get, WithQuery("/statistics/year", params))];
      match response {
        case Ok(stats) => yearlyStats := Some(stats);
        case NotOk =>
          error := Some("Failed to fetch statistics.");
          yearlyStats := None;
        case Raised(m) =>
          error := Some(m);
          yearlyStats := None;
      }
      isLoading := false;
    }
  }
}
