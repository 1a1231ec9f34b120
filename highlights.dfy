/** `src/stores/highlights.ts`: the metric names, the highlights of one activity, and the top
    highlights of one metric for the dashboard. */
module Highlights {
  import opened Remote
  import opened Text

  datatype Scope = YearlyScope | Lifetime

  datatype Highlight = Highlight(
    activityId: string, metric: string, scope: Scope, year: int, value: real, rank: int)

  /** The URL of `fetchDashboardHighlights`: the metric's path, with `?year=` only for a truthy
      year. */
  function DashboardUrl(metric: string, year: Option<int>): (url: string)
  {
    WithQuery("/highlights/metric/" + metric, Appended([(Year, TruthyText(year))]))
  }

  /** A falsy year gives the bare metric path; a truthy one appends exactly `?year=<year>`. */
  lemma DashboardUrlShape(metric: string, year: Option<int>)
    ensures !Truthy(year) ==> DashboardUrl(metric, year) == "/highlights/metric/" + metric
    ensures Truthy(year) ==>
              DashboardUrl(metric, year) == "/highlights/metric/" + metric + "?year=" + IntToString(year.value)
  {
    AppendedOne((Year, TruthyText(year)));
    if Truthy(year) {
      assert QueryString([(Year, IntToString(year.value))]) == "year=" + IntToString(year.value);
    }
  }

  class HighlightStore {
    var availableMetrics: seq<string>
    var activityHighlights: seq<Highlight>
    var dashboardHighlights: seq<Highlight>
    var isLoading: bool

    constructor ()
      ensures availableMetrics == [] && activityHighlights == [] && dashboardHighlights == []
      ensures !isLoading
    {
      availableMetrics := [];
      activityHighlights := [];
      dashboardHighlights := [];
      isLoading := false;
    }

    /** `fetchAvailableMetrics`: fetched once; a list already held is kept and nothing is sent.
        Failures are only logged and the loading flag is not used. */
    method FetchAvailableMetrics(response: Outcome<seq<string>>) returns (sent: seq<Request>)
      modifies this
      ensures |old(availableMetrics)| > 0 ==> sent == [] && availableMetrics == old(availableMetrics)
      ensures |old(availableMetrics)| == 0 ==>
                sent == [Request(Get, "/highlights/metrics")]
                && availableMetrics == (if response.Ok? then response.payload else old(availableMetrics))
      ensures activityHighlights == old(activityHighlights)
      ensures dashboardHighlights == old(dashboardHighlights) && isLoading == old(isLoading)
    {
      if |availableMetrics| > 0 {
        return [];
      }
      sent := [Request(Get, "/highlights/metrics")];
      if response.Ok? {
        availableMetrics := response.payload;
      }
    }

    /** `fetchHighlightsForActivity`: replaced on success, emptied on any failure. */
    method FetchHighlightsForActivity(activityId: string, response: Outcome<seq<Highlight>>)
      returns (sent: seq<Request>)
      modifies this
      ensures sent == [Request(Get, "/highlights/activity/" + activityId)]
      ensures activityHighlights == if response.Ok? then response.payload else []
      ensures !isLoading
      ensures availableMetrics == old(availableMetrics)
      ensures dashboardHighlights == old(dashboardHighlights)
    {
      isLoading := true;
      sent := [Request(Get, "/highlights/activity/" + activityId)];
      if !response.Ok? {
        activityHighlights := [];
      } else {
        activityHighlights := response.payload;
      }
      isLoading := false;
    }

    /** `fetchDashboardHighlights`: the previous results are cleared before the request, so a
        failure leaves the list empty. */
    method FetchDashboardHighlights(metric: string, year: Option<int>, response: Outcome<seq<Highlight>>)
      returns (sent: seq<Request>)
      modifies this
      ensures sent == [Request(Get, DashboardUrl(metric, year))]
      ensures dashboardHighlights == if response.Ok? then response.payload else []
      ensures !isLoading
      ensures availableMetrics == old(availableMetrics)
      ensures activityHighlights == old(activityHighlights)
    {
      isLoading := true;
      dashboardHighlights := [];
      var params: seq<Param> := [];
      if Truthy(year) {
        params := params + [(Year, IntToString(year.value))];
      }
      var queryString := QueryString(params);
      var url := "/highlights/metric/" + metric + (if queryString != "" then "?" + queryString else "");
      AppendedOne((Year, TruthyText(year)));
      sent := [Request(Get, url)];
      if response.Ok? {
        dashboardHighlights := response.payload;
      }
      isLoading := false;
    }
  }
}
