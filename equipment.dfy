/** `src/stores/equipment.ts`: the user's equipment, equipment sets, the equipment linked to one
    activity, and the catalogue of equipment types. Every mutating action issues its request,
    throws when the response is not ok, and otherwise re-fetches the list it changed. */
module Equipment {
  import opened Remote
  import opened Text

  datatype Item = Item(
    id: string,
    name: string,
    equipmentType: string,
    brand: Option<string>,
    model: Option<string>,
    description: Option<string>,
    purchaseDate: Option<string>)

  /** A named set; `items` are equipment ids. */
  datatype EquipmentSet = EquipmentSet(id: string, name: string, items: seq<string>)

  /** What `if (!response.ok) throw new Error(message)` after a `fetch` leaves: nothing on an ok
      response, the given message on any other, and the fetch's own error when it threw. */
  function Rejection<T>(o: Outcome<T>, message: string): (e: Option<string>)
    ensures e.None? <==> o.Ok?
    ensures o.NotOk? ==> e == Some(message)
    ensures o.Raised? ==> e == Some(o.message)
  {
    match o
    case Ok(_) => None
    case NotOk => Some(message)
    case Raised(m) => Some(m)
  }

  /** The parameters of `setDefaultSet`: the activity type always, the sub-type only when it
      is truthy. */
  function DefaultSetSlots(typeId: int, subTypeId: Option<int>): seq<Slot>
  {
    [(ActivityTypeId, Some(IntToString(typeId))), (ActivitySubTypeId, TruthyText(subTypeId))]
  }

  function DefaultSetQuery(typeId: int, subTypeId: Option<int>): seq<Param>
  {
    Appended(DefaultSetSlots(typeId, subTypeId))
  }

  /** The type is always sent and comes first; the sub-type follows exactly when it is truthy. */
  lemma DefaultSetQueryContents(typeId: int, subTypeId: Option<int>)
    ensures DefaultSetQuery(typeId, subTypeId)[..1] == [(ActivityTypeId, IntToString(typeId))]
    ensures Lookup(DefaultSetQuery(typeId, subTypeId), ActivityTypeId) == Some(IntToString(typeId))
    ensures Lookup(DefaultSetQuery(typeId, subTypeId), ActivitySubTypeId) == TruthyText(subTypeId)
    ensures |DefaultSetQuery(typeId, subTypeId)| == if Truthy(subTypeId) then 2 else 1
  {
    var slots := DefaultSetSlots(typeId, subTypeId);
    AppendedTwo(slots[0], slots[1]);
    AppendedAt(slots, 0);
    AppendedAt(slots, 1);
  }

  /** The URL of `setDefaultSet`: the set's path, then `?` and the query. */
  function DefaultSetUrl(setId: string, typeId: int, subTypeId: Option<int>): string
  {
    "/equipment/set/default/" + setId + "?" + QueryString(DefaultSetQuery(typeId, subTypeId))
  }

  /** `setDefaultSet`: one PUT; the action changes no state and throws 'Failed to set default.'
      when the response is not ok. */
  method SetDefaultSet(setId: string, typeId: int, subTypeId: Option<int>, response: Outcome<()>)
    returns (sent: seq<Request>, thrown: Option<string>)
    ensures sent == [Request(Put, DefaultSetUrl(setId, typeId, subTypeId))]
    ensures thrown == Rejection(response, "Failed to set default.")
  {
    var query: seq<Param> := [(ActivityTypeId, IntToString(typeId))];
    if Truthy(subTypeId) {
      query := query + [(ActivitySubTypeId, IntToString(subTypeId.value))];
    }
    AppendedTwo((ActivityTypeId, Some(IntToString(typeId))), (ActivitySubTypeId, TruthyText(subTypeId)));
    sent := [Request(Put, "/equipment/set/default/" + setId + "?" + QueryString(query))];
    thrown := Rejection(response, "Failed to set default.");
  }

  /** The path of an activity's equipment. */
  function ActivityEquipmentUrl(activityId: string): string
  {
    "/equipment/activity/" + activityId
  }

  class EquipmentStore {
    var allEquipment: seq<Item>
    var equipmentSets: seq<EquipmentSet>
    var activityEquipment: seq<Item>
    var equipmentTypes: seq<string>
    var isLoading: bool
    var areTypesLoading: bool

    constructor ()
      ensures allEquipment == [] && equipmentSets == [] && activityEquipment == []
      ensures equipmentTypes == [] && !isLoading && !areTypesLoading
    {
      allEquipment := [];
      equipmentSets := [];
      activityEquipment := [];
      equipmentTypes := [];
      isLoading := false;
      areTypesLoading := false;
    }

    /** `fetchEquipmentTypes`: cached once filled. A non-ok response keeps the list; an error
        of the fetch itself propagates to the caller. The flag is reset on every path. */
    method FetchEquipmentTypes(response: Outcome<seq<string>>)
      returns (sent: seq<Request>, thrown: Option<string>)
      modifies this
      ensures |old(equipmentTypes)| > 0 ==>
                sent == [] && thrown == None && equipmentTypes == old(equipmentTypes)
                && areTypesLoading == old(areTypesLoading)
      ensures |old(equipmentTypes)| == 0 ==>
                sent == [Request(Get, "/equipment/types")] && !areTypesLoading
                && equipmentTypes == (if response.Ok? then response.payload else old(equipmentTypes))
                && thrown == (if response.Raised? then Some(response.message) else None)
      ensures allEquipment == old(allEquipment) && equipmentSets == old(equipmentSets)
      ensures activityEquipment == old(activityEquipment) && isLoading == old(isLoading)
    {
      if |equipmentTypes| > 0 {
        return [], None;
      }
      areTypesLoading := true;
      sent := [Request(Get, "/equipment/types")];
      thrown := None;
      match response {
        case Ok(data) => equipmentTypes := data;
        case NotOk =>
        case Raised(m) => thrown := Some(m);
      }
      areTypesLoading := false;
    }

    /** `fetchAllEquipment`: a non-ok response keeps the list; an error of the fetch itself
        propagates. `isLoading` ends false on every path. */
    method FetchAllEquipment(response: Outcome<seq<Item>>)
      returns (sent: seq<Request>, thrown: Option<string>)
      modifies this
      ensures sent == [Request(Get, "/equipment/")] && !isLoading
      ensures allEquipment == (if response.Ok? then response.payload else old(allEquipment))
      ensures thrown == (if response.Raised? then Some(response.message) else None)
      ensures equipmentSets == old(equipmentSets) && activityEquipment == old(activityEquipment)
      ensures equipmentTypes == old(equipmentTypes) && areTypesLoading == old(areTypesLoading)
    {
      isLoading := true;
      sent := [Request(Get, "/equipment/")];
      thrown := None;
      match response {
        case Ok(data) => allEquipment := data;
        case NotOk =>
        case Raised(m) => thrown := Some(m);
      }
      isLoading := false;
    }

    /** `createEquipment`: the list is re-fetched only after the backend accepted the item. */
    method CreateEquipment(response: Outcome<()>, refresh: Outcome<seq<Item>>)
      returns (sent: seq<Request>, thrown: Option<string>)
      modifies this
      ensures response.Ok? ==>
                sent == [Request(Post, "/equipment/"), Request(Get, "/equipment/")] && !isLoading
                && allEquipment == (if refresh.Ok? then refresh.payload else old(allEquipment))
                && thrown == (if refresh.Raised? then Some(refresh.message) else None)
      ensures !response.Ok? ==>
                sent == [Request(Post, "/equipment/")] && isLoading == old(isLoading)
                && allEquipment == old(allEquipment)
                && thrown == Rejection(response, "Failed to create equipment.")
      ensures equipmentSets == old(equipmentSets) && activityEquipment == old(activityEquipment)
      ensures equipmentTypes == old(equipmentTypes) && areTypesLoading == old(areTypesLoading)
    {
      sent := [Request(Post, "/equipment/")];
      thrown := Rejection(response, "Failed to create equipment.");
      if thrown.Some? {
        return;
      }
      var again;
      again, thrown := FetchAllEquipment(refresh);
      sent := sent + again;
    }

    /** `fetchAllSets`: every failure is swallowed and the sets are kept. */
    method FetchAllSets(response: Outcome<seq<EquipmentSet>>) returns (sent: seq<Request>)
      modifies this
      ensures sent == [Request(Get, "/equipment/set/")]
      ensures equipmentSets == (if response.Ok? then response.payload else old(equipmentSets))
      ensures allEquipment == old(allEquipment) && activityEquipment == old(activityEquipment)
      ensures equipmentTypes == old(equipmentTypes)
      ensures isLoading == old(isLoading) && areTypesLoading == old(areTypesLoading)
    {
      sent := [Request(Get, "/equipment/set/")];
      if response.Ok? {
        equipmentSets := response.payload;
      }
    }

    /** The shared shape of `createSet`, `deleteSet`, `addEquipmentToSet` and
        `removeEquipmentFromSet`: the request, then a throw on a response that is not ok, and
        otherwise a re-fetch of the sets. */
    method ChangeSets(request: Request, message: string, response: Outcome<()>,
                      refresh: Outcome<seq<EquipmentSet>>)
      returns (sent: seq<Request>, thrown: Option<string>)
      modifies this
      ensures thrown == Rejection(response, message)
      ensures response.Ok? ==>
                sent == [request, Request(Get, "/equipment/set/")]
                && equipmentSets == (if refresh.Ok? then refresh.payload else old(equipmentSets))
      ensures !response.Ok? ==> sent == [request] && equipmentSets == old(equipmentSets)
      ensures allEquipment == old(allEquipment) && activityEquipment == old(activityEquipment)
      ensures equipmentTypes == old(equipmentTypes)
      ensures isLoading == old(isLoading) && areTypesLoading == old(areTypesLoading)
    {
      sent := [request];
      thrown := Rejection(response, message);
      if thrown.None? {
        var again := FetchAllSets(refresh);
        sent := sent + again;
      }
    }

    /** `createSet`: a POST of the new, empty set. */
    method CreateSet(name: string, response: Outcome<()>, refresh: Outcome<seq<EquipmentSet>>)
      returns (sent: seq<Request>, thrown: Option<string>)
      modifies this
      ensures thrown == Rejection(response, "Failed to create set.")
      ensures |sent| >= 1 && sent[0] == Request(Post, "/equipment/set/")
      ensures response.Ok? ==>
                sent == [sent[0], Request(Get, "/equipment/set/")]
                && equipmentSets == (if refresh.Ok? then refresh.payload else old(equipmentSets))
      ensures !response.Ok? ==> |sent| == 1 && equipmentSets == old(equipmentSets)
      ensures allEquipment == old(allEquipment) && activityEquipment == old(activityEquipment)
      ensures equipmentTypes == old(equipmentTypes)
      ensures isLoading == old(isLoading) && areTypesLoading == old(areTypesLoading)
    {
      sent, thrown := ChangeSets(Request(Post, "/equipment/set/"), "Failed to create set.", response, refresh);
    }

    /** `deleteSet`: a DELETE of the set's path. */
    method DeleteSet(setId: string, response: Outcome<()>, refresh: Outcome<seq<EquipmentSet>>)
      returns (sent: seq<Request>, thrown: Option<string>)
      modifies this
      ensures thrown == Rejection(response, "Failed to delete set.")
      ensures |sent| >= 1 && sent[0] == Request(Delete, "/equipment/set/" + setId)
      ensures response.Ok? ==>
                sent == [sent[0], Request(Get, "/equipment/set/")]
                && equipmentSets == (if refresh.Ok? then refresh.payload else old(equipmentSets))
      ensures !response.Ok? ==> |sent| == 1 && equipmentSets == old(equipmentSets)
      ensures allEquipment == old(allEquipment) && activityEquipment == old(activityEquipment)
      ensures equipmentTypes == old(equipmentTypes)
      ensures isLoading == old(isLoading) && areTypesLoading == old(areTypesLoading)
    {
      sent, thrown := ChangeSets(Request(Delete, "/equipment/set/" + setId), "Failed to delete set.",
                                 response, refresh);
    }

    /** `addEquipmentToSet`: a POST of the item's path within the set. */
    method AddEquipmentToSet(setId: string, equipmentId: string, response: Outcome<()>,
                             refresh: Outcome<seq<EquipmentSet>>)
      returns (sent: seq<Request>, thrown: Option<string>)
      modifies this
      ensures thrown == Rejection(response, "Failed to add item to set.")
      ensures |sent| >= 1 && sent[0] == Request(Post, "/equipment/set/" + setId + "/equipment/" + equipmentId)
      ensures response.Ok? ==>
                sent == [sent[0], Request(Get, "/equipment/set/")]
                && equipmentSets == (if refresh.Ok? then refresh.payload else old(equipmentSets))
      ensures !response.Ok? ==> |sent| == 1 && equipmentSets == old(equipmentSets)
      ensures allEquipment == old(allEquipment) && activityEquipment == old(activityEquipment)
      ensures equipmentTypes == old(equipmentTypes)
      ensures isLoading == old(isLoading) && areTypesLoading == old(areTypesLoading)
    {
      sent, thrown := ChangeSets(Request(Post, "/equipment/set/" + setId + "/equipment/" + equipmentId),
                                 "Failed to add item to set.", response, refresh);
    }

    /** `removeEquipmentFromSet`: a DELETE of the item's path within the set. */
    method RemoveEquipmentFromSet(setId: string, equipmentId: string, response: Outcome<()>,
                                  refresh: Outcome<seq<EquipmentSet>>)
      returns (sent: seq<Request>, thrown: Option<string>)
      modifies this
      ensures thrown == Rejection(response, "Failed to remove item from set.")
      ensures |sent| >= 1 && sent[0] == Request(Delete, "/equipment/set/" + setId + "/equipment/" + equipmentId)
      ensures response.Ok? ==>
                sent == [sent[0], Request(Get, "/equipment/set/")]
                && equipmentSets == (if refresh.Ok? then refresh.payload else old(equipmentSets))
      ensures !response.Ok? ==> |sent| == 1 && equipmentSets == old(equipmentSets)
      ensures allEquipment == old(allEquipment) && activityEquipment == old(activityEquipment)
      ensures equipmentTypes == old(equipmentTypes)
      ensures isLoading == old(isLoading) && areTypesLoading == old(areTypesLoading)
    {
      sent, thrown := ChangeSets(Request(Delete, "/equipment/set/" + setId + "/equipment/" + equipmentId),
                                 "Failed to remove item from set.", response, refresh);
    }

    /** `fetchEquipmentForActivity`: replaced on ok, emptied on any other response; an error of
        the fetch itself propagates and leaves the list. */
    method FetchEquipmentForActivity(activityId: string, response: Outcome<seq<Item>>)
      returns (sent: seq<Request>, thrown: Option<string>)
      modifies this
      ensures sent == [Request(Get, ActivityEquipmentUrl(activityId))]
      ensures response.Ok? ==> activityEquipment == response.payload && thrown == None
      ensures response.NotOk? ==> activityEquipment == [] && thrown == None
      ensures response.Raised? ==>
                activityEquipment == old(activityEquipment) && thrown == Some(response.message)
      ensures allEquipment == old(allEquipment) && equipmentSets == old(equipmentSets)
      ensures equipmentTypes == old(equipmentTypes)
      ensures isLoading == old(isLoading) && areTypesLoading == old(areTypesLoading)
    {
      sent := [Request(Get, "/equipment/activity/" + activityId)];
      thrown := None;
      match response {
        case Ok(data) => activityEquipment := data;
        case NotOk => activityEquipment := [];
        case Raised(m) => thrown := Some(m);
      }
    }

    /** The shared shape of the four activity actions: the request, then a throw on a response
        that is not ok, and otherwise a re-fetch of the activity's equipment. */
    method ChangeActivity(request: Request, message: string, activityId: string,
                          response: Outcome<()>, refresh: Outcome<seq<Item>>)
      returns (sent: seq<Request>, thrown: Option<string>)
      modifies this
      ensures !response.Ok? ==>
                sent == [request] && thrown == Rejection(response, message)
                && activityEquipment == old(activityEquipment)
      ensures response.Ok? ==> sent == [request, Request(Get, ActivityEquipmentUrl(activityId))]
      ensures response.Ok? && refresh.Ok? ==> activityEquipment == refresh.payload && thrown == None
      ensures response.Ok? && refresh.NotOk? ==> activityEquipment == [] && thrown == None
      ensures response.Ok? && refresh.Raised? ==>
                activityEquipment == old(activityEquipment) && thrown == Some(refresh.message)
      ensures allEquipment == old(allEquipment) && equipmentSets == old(equipmentSets)
      ensures equipmentTypes == old(equipmentTypes)
      ensures isLoading == old(isLoading) && areTypesLoading == old(areTypesLoading)
    {
      sent := [request];
      thrown := Rejection(response, message);
      if thrown.Some? {
        return;
      }
      var again;
      again, thrown := FetchEquipmentForActivity(activityId, refresh);
      sent := sent + again;
    }

    /** `addEquipmentToActivity`: a POST linking one item. */
    method AddEquipmentToActivity(equipmentId: string, activityId: string, response: Outcome<()>,
                                  refresh: Outcome<seq<Item>>)
      returns (sent: seq<Request>, thrown: Option<string>)
      modifies this
      ensures |sent| >= 1 && sent[0] == Request(Post, "/equipment/" + equipmentId + "/activity/" + activityId)
      ensures !response.Ok? ==>
                |sent| == 1 && thrown == Rejection(response, "Failed to add equipment.")
                && activityEquipment == old(activityEquipment)
      ensures response.Ok? ==> sent == [sent[0], Request(Get, ActivityEquipmentUrl(activityId))]
      ensures response.Ok? && refresh.Ok? ==> activityEquipment == refresh.payload && thrown == None
      ensures response.Ok? && refresh.NotOk? ==> activityEquipment == [] && thrown == None
      ensures response.Ok? && refresh.Raised? ==>
                activityEquipment == old(activityEquipment) && thrown == Some(refresh.message)
      ensures allEquipment == old(allEquipment) && equipmentSets == old(equipmentSets)
      ensures equipmentTypes == old(equipmentTypes)
      ensures isLoading == old(isLoading) && areTypesLoading == old(areTypesLoading)
    {
      sent, thrown := ChangeActivity(Request(Post, "/equipment/" + equipmentId + "/activity/" + activityId),
                                     "Failed to add equipment.", activityId, response, refresh);
    }

    /** `removeEquipmentFromActivity`: a DELETE unlinking one item. */
    method RemoveEquipmentFromActivity(equipmentId: string, activityId: string, response: Outcome<()>,
                                       refresh: Outcome<seq<Item>>)
      returns (sent: seq<Request>, thrown: Option<string>)
      modifies this
      ensures |sent| >= 1 && sent[0] == Request(Delete, "/equipment/" + equipmentId + "/activity/" + activityId)
      ensures !response.Ok? ==>
                |sent| == 1 && thrown == Rejection(response, "Failed to remove equipment.")
                && activityEquipment == old(activityEquipment)
      ensures response.Ok? ==> sent == [sent[0], Request(Get, ActivityEquipmentUrl(activityId))]
      ensures response.Ok? && refresh.Ok? ==> activityEquipment == refresh.payload && thrown == None
      ensures response.Ok? && refresh.NotOk? ==> activityEquipment == [] && thrown == None
      ensures response.Ok? && refresh.Raised? ==>
                activityEquipment == old(activityEquipment) && thrown == Some(refresh.message)
      ensures allEquipment == old(allEquipment) && equipmentSets == old(equipmentSets)
      ensures equipmentTypes == old(equipmentTypes)
      ensures isLoading == old(isLoading) && areTypesLoading == old(areTypesLoading)
    {
      sent, thrown := ChangeActivity(Request(Delete, "/equipment/" + equipmentId + "/activity/" + activityId),
                                     "Failed to remove equipment.", activityId, response, refresh);
    }

    /** `addSetToActivity`: a POST linking a whole set. */
    method AddSetToActivity(setId: string, activityId: string, response: Outcome<()>,
                            refresh: Outcome<seq<Item>>)
      returns (sent: seq<Request>, thrown: Option<string>)
      modifies this
      ensures |sent| >= 1 && sent[0] == Request(Post, "/equipment/set/" + setId + "/activity/" + activityId)
      ensures !response.Ok? ==>
                |sent| == 1 && thrown == Rejection(response, "Failed to add set to activity.")
                && activityEquipment == old(activityEquipment)
      ensures response.Ok? ==> sent == [sent[0], Request(Get, ActivityEquipmentUrl(activityId))]
      ensures response.Ok? && refresh.Ok? ==> activityEquipment == refresh.payload && thrown == None
      ensures response.Ok? && refresh.NotOk? ==> activityEquipment == [] && thrown == None
      ensures response.Ok? && refresh.Raised? ==>
                activityEquipment == old(activityEquipment) && thrown == Some(refresh.message)
      ensures allEquipment == old(allEquipment) && equipmentSets == old(equipmentSets)
      ensures equipmentTypes == old(equipmentTypes)
      ensures isLoading == old(isLoading) && areTypesLoading == old(areTypesLoading)
    {
      sent, thrown := ChangeActivity(Request(Post, "/equipment/set/" + setId + "/activity/" + activityId),
                                     "Failed to add set to activity.", activityId, response, refresh);
    }

    /** `removeSetFromActivity`: a DELETE unlinking a whole set. */
    method RemoveSetFromActivity(setId: string, activityId: string, response: Outcome<()>,
                                 refresh: Outcome<seq<Item>>)
      returns (sent: seq<Request>, thrown: Option<string>)
      modifies this
      ensures |sent| >= 1 && sent[0] == Request(Delete, "/equipment/set/" + setId + "/activity/" + activityId)
      ensures !response.Ok? ==>
                |sent| == 1 && thrown == Rejection(response, "Failed to remove set from activity.")
                && activityEquipment == old(activityEquipment)
      ensures response.Ok? ==> sent == [sent[0], Request(Get, ActivityEquipmentUrl(activityId))]
      ensures response.Ok? && refresh.Ok? ==> activityEquipment == refresh.payload && thrown == None
      ensures response.Ok? && refresh.NotOk? ==> activityEquipment == [] && thrown == None
      ensures response.Ok? && refresh.Raised? ==>
                activityEquipment == old(activityEquipment) && thrown == Some(refresh.message)
      ensures allEquipment == old(allEquipment) && equipmentSets == old(equipmentSets)
      ensures equipmentTypes == old(equipmentTypes)
      ensures isLoading == old(isLoading) && areTypesLoading == old(areTypesLoading)
    {
      sent, thrown := ChangeActivity(Request(Delete, "/equipment/set/" + setId + "/activity/" + activityId),
                                     "Failed to remove set from activity.", activityId, response, refresh);
    }
  }
}
