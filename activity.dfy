/** `src/stores/activity.ts`: the store of the few most recent activities, refreshed wholesale. */
module Activities {
  import opened Remote
  import opened Datetime
  import opened Records

  const RecentUrl := "/activity/?limit=5"

  /** The entry `fetchRecentActivities` builds for one raw activity: only id, start, distance
      and the two duration forms are set. */
  function FeedEntry(raw: RawActivity): (a: Activity)
    ensures a.durationSeconds == ParseIsoDuration(DurationInput(raw.duration))
    ensures DurationsAgree(a)
    ensures a.id == raw.id && a.start == raw.start && a.distance == raw.distance
    ensures a.elevationGain.Undefined? && a.elevationLoss.Undefined? && a.name.Undefined?
    ensures a.typeId.Undefined? && a.subTypeId.Undefined?
    ensures a.avgSpeed.Undefined? && a.maxSpeed.Undefined?
  {
    Activity(
      id := raw.id,
      start := raw.start,
      duration := FormatDuration(ParseIsoDuration(DurationInput(raw.duration))),
      durationSeconds := ParseIsoDuration(DurationInput(raw.duration)),
      distance := raw.distance,
      elevationGain := Undefined,
      elevationLoss := Undefined,
      typeId := Undefined,
      subTypeId := Undefined,
      name := Undefined,
      avgSpeed := Undefined,
      maxSpeed := Undefined)
  }

  /** `data.data.map(...)`: one entry per raw activity, in the response's order. */
  function FeedEntries(data: seq<RawActivity>): (r: seq<Activity>)
    ensures |r| == |data|
    ensures forall i :: 0 <= i < |data| ==> r[i] == FeedEntry(data[i])
    ensures forall i :: 0 <= i < |r| ==> DurationsAgree(r[i])
  {
    seq(|data|, i requires 0 <= i < |data| => FeedEntry(data[i]))
  }

  /** `e.message || 'An unknown error occurred.'`. */
  function ErrorText(message: string): (r: string)
    ensures r != ""
    ensures message != "" ==> r == message
  {
    if message == "" then "An unknown error occurred." else message
  }

  class ActivityStore {
    var recentActivities: seq<Activity>
    var isLoading: bool
    var error: Option<string>

    constructor ()
      ensures recentActivities == [] && !isLoading && error == None
    {
      recentActivities := [];
      isLoading := false;
      error := None;
    }

    /** `fetchRecentActivities`. */
    method FetchRecentActivities(token: Option<string>, response: Outcome<seq<RawActivity>>)
      returns (sent: seq<Request>)
      modifies this
      // a call while a fetch is in flight changes nothing and issues no request
      ensures old(isLoading) ==>
                sent == [] && isLoading && error == old(error)
                && recentActivities == old(recentActivities)
      // every fetch that starts ends with the loading flag down
      ensures !old(isLoading) ==> !isLoading
      // no token: a local failure, no request, the list untouched
      ensures !old(isLoading) && !Present(token) ==>
                sent == [] && error == Some("Authentication token not found.")
                && recentActivities == old(recentActivities)
      ensures !old(isLoading) && Present(token) ==> sent == [Request(Get, RecentUrl)]
      // success: the error cleared at the start stays clear and the list is replaced wholesale
      ensures !old(isLoading) && Present(token) && response.Ok? ==>
                error == None && recentActivities == FeedEntries(response.payload)
      // failure: an error message, and the previous list survives
      ensures !old(isLoading) && Present(token) && response.NotOk? ==>
                error == Some("Failed to fetch activities.")
                && recentActivities == old(recentActivities)
      ensures !old(isLoading) && Present(token) && response.Raised? ==>
                error == Some(ErrorText(response.message))
                && recentActivities == old(recentActivities)
    {
      if isLoading {
        return [];
      }
      isLoading := true;
      error := None;
      if !Present(token) {
        error := Some("Authentication token not found.");
        isLoading := false;
        return [];
      }
      sent := [Request(Get, RecentUrl)];
      match response {
        case Ok(data) =>
          recentActivities := FeedEntries(data);
        case NotOk =>
          error := Some(ErrorText("Failed to fetch activities."));
        case Raised(m) =>
          error := Some(ErrorText(m));
      }
      isLoading := false;
    }
  }
}
