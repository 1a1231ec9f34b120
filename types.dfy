/** `src/stores/types.ts`: the catalogue of activity types and their sub-types, loaded once.
    The request carries no credential. */
module Types {
  import opened Remote

  datatype SubType = SubType(id: int, name: string)

  datatype ActivityType = ActivityType(id: int, name: string, subTypes: seq<SubType>)

  /** The body of `/resolve/types`: the list sits under a `data` property. */
  datatype TypesResponse = TypesResponse(data: seq<ActivityType>)

  class TypeStore {
    var activityTypes: seq<ActivityType>
    var isLoading: bool

    constructor ()
      ensures activityTypes == [] && !isLoading
    {
      activityTypes := [];
      isLoading := false;
    }

    /** `fetchActivityTypes`: nothing happens when the list is already filled or a load is in
        flight; otherwise one request, after which the list holds the response's data on
        success and is kept on any failure. */
    method FetchActivityTypes(response: Outcome<TypesResponse>) returns (sent: seq<Request>)
      modifies this
      ensures |old(activityTypes)| > 0 || old(isLoading) ==>
                sent == [] && activityTypes == old(activityTypes) && isLoading == old(isLoading)
      ensures |old(activityTypes)| == 0 && !old(isLoading) ==>
                sent == [Request(Get, "/resolve/types")] && !isLoading
                && activityTypes == (if response.Ok? then response.payload.data else old(activityTypes))
    {
      if |activityTypes| > 0 || isLoading {
        return [];
      }
      isLoading := true;
      sent := [Request(Get, "/resolve/types")];
      if response.Ok? {
        activityTypes := response.payload.data;
      }
      isLoading := false;
    }
  }

  /** Once the catalogue is filled, a second call issues no request and changes nothing,
      whatever its outcome would have been. */
  method LoadTwice(store: TypeStore, first: Outcome<TypesResponse>, second: Outcome<TypesResponse>)
    returns (sentFirst: seq<Request>, sentSecond: seq<Request>)
    modifies store
    requires !store.isLoading
    requires first.Ok? && |first.payload.data| > 0
    ensures store.activityTypes == (if |old(store.activityTypes)| > 0 then old(store.activityTypes)
                                    else first.payload.data)
    ensures sentSecond == []
    ensures !store.isLoading
  {
    sentFirst := store.FetchActivityTypes(first);
    var afterFirst := store.activityTypes;
    sentSecond := store.FetchActivityTypes(second);
    assert store.activityTypes == afterFirst;
  }
}
