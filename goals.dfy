/** `src/stores/goals.ts`: the user's goals, as one list for a period and as the three lists of
    the goals view (yearly, monthly, weekly). */
module Goals {
  import opened Remote
  import opened Text

  datatype TemporalType = Yearly | Monthly | Weekly
  datatype GoalType = ActivityGoal | ManualGoal | LocationGoal
  datatype Aggregation = Count | TotalDistance | AvgDistance | MaxDistance | Duration

  datatype Goal = Goal(
    id: string,
    name: string,
    description: Option<string>,
    target: real,
    current: real,
    progress: real,
    reached: bool,
    temporalType: TemporalType,
    year: int,
    month: Option<int>,
    goalType: GoalType,
    aggregation: Aggregation)

  /** The attributes `updateGoal` may change. */
  datatype GoalAttribute = Name | Description | Target

  function AttributeName(a: GoalAttribute): (s: string)
    ensures s in ["name", "description", "target"]
  {
    match a
    case Name => "name"
    case Description => "description"
    case Target => "target"
  }

  /** Different attributes are sent under different names, so the backend can tell which
      attribute an update changes. */
  lemma AttributeNameInjective(a: GoalAttribute, b: GoalAttribute)
    ensures AttributeName(a) == AttributeName(b) ==> a == b
  {
  }

  const GoalKeys: seq<QueryKey> := [Year, Month, Week]

  /** The parameters `_fetch` may append, in its order: the year always, month and week
      whenever they are given. */
  function GoalSlots(year: int, month: Option<int>, week: Option<int>): seq<Slot>
  {
    [(Year, Some(IntToString(year))), (Month, PresentText(month)), (Week, PresentText(week))]
  }

  /** The query of `_fetch`. */
  function GoalQuery(year: int, month: Option<int>, week: Option<int>): (ps: seq<Param>)
  {
    Appended(GoalSlots(year, month, week))
  }

  /** The query holds the year always, and month and week whenever they are given (zero
      included). */
  lemma GoalQueryContents(year: int, month: Option<int>, week: Option<int>)
    ensures Lookup(GoalQuery(year, month, week), Year) == Some(IntToString(year))
    ensures Lookup(GoalQuery(year, month, week), Month) == PresentText(month)
    ensures Lookup(GoalQuery(year, month, week), Week) == PresentText(week)
  {
    var slots := GoalSlots(year, month, week);
    AppendedAt(slots, 0);
    AppendedAt(slots, 1);
    AppendedAt(slots, 2);
  }

  /** The parameters come in the order year, month, week, each at most once. */
  lemma GoalQueryInOrder(year: int, month: Option<int>, week: Option<int>)
    ensures InOrder(GoalQuery(year, month, week), GoalKeys)
  {
    var slots := GoalSlots(year, month, week);
    AppendedInOrder(slots);
    assert SlotKeys(slots) == GoalKeys;
  }

  /** The year is the first parameter. */
  lemma GoalQueryStartsWithYear(year: int, month: Option<int>, week: Option<int>)
    ensures |GoalQuery(year, month, week)| >= 1
    ensures GoalQuery(year, month, week)[0] == (Year, IntToString(year))
  {
    var slots := GoalSlots(year, month, week);
    assert Appended(slots) == Part(slots[0]) + Appended(slots[1..]);
  }

  /** The URL of `_fetch`. */
  function GoalsUrl(year: int, month: Option<int>, week: Option<int>): (url: string)
  {
    WithQuery("/goal/", GoalQuery(year, month, week))
  }

  /** Because the year is always sent, the goals URL always carries a `?`. */
  lemma GoalsUrlHasQuery(year: int, month: Option<int>, week: Option<int>)
    ensures GoalsUrl(year, month, week) == "/goal/?" + QueryString(GoalQuery(year, month, week))
  {
    GoalQueryStartsWithYear(year, month, week);
  }

  /** The successive `append`s of `_fetch`. */
  method BuildGoalQuery(year: int, month: Option<int>, week: Option<int>) returns (params: seq<Param>)
    ensures params == GoalQuery(year, month, week)
  {
    params := [];
    params := params + [(Year, IntToString(year))];
    if month.Some? {
      params := params + [(Month, IntToString(month.value))];
    }
    assert params == Part((Year, Some(IntToString(year)))) + Part((Month, PresentText(month)));
    if week.Some? {
      params := params + [(Week, IntToString(week.value))];
    }
    AppendedThree((Year, Some(IntToString(year))), (Month, PresentText(month)), (Week, PresentText(week)));
  }

  /** `(g) => g.temporal_type === t`. */
  function HasTemporalType(t: TemporalType): Goal -> bool
  {
    (g: Goal) => g.temporalType == t
  }

  /** `(g) => g.id !== id`. */
  function IdIsNot(id: string): Goal -> bool
  {
    (g: Goal) => g.id != id
  }

  /** `(g) => g.id === id`. */
  function IdIs(id: string): Goal -> bool
  {
    (g: Goal) => g.id == id
  }

  /** The list after `modifyManualGoal` received `updated`: the first goal with the id is
      replaced, and a list without that id is unchanged. */
  function ReplaceFirst(goals: seq<Goal>, id: string, updated: Goal): (r: seq<Goal>)
    ensures |r| == |goals|
    ensures FindIndex(goals, IdIs(id)).None? ==> r == goals
    ensures FindIndex(goals, IdIs(id)).Some? ==>
              var i := FindIndex(goals, IdIs(id)).value;
              r[i] == updated && forall j :: 0 <= j < |goals| && j != i ==> r[j] == goals[j]
  {
    match FindIndex(goals, IdIs(id))
    case None => goals
    case Some(i) => goals[i := updated]
  }

  /** Replacing the goal with an id by one of the same id, twice, leaves the second's value. */
  lemma ReplaceFirstTwice(goals: seq<Goal>, id: string, first: Goal, second: Goal)
    requires first.id == id
    ensures ReplaceFirst(ReplaceFirst(goals, id, first), id, second) == ReplaceFirst(goals, id, second)
  {
    var once := ReplaceFirst(goals, id, first);
    match FindIndex(goals, IdIs(id))
    case None =>
    case Some(i) =>
      assert IdIs(id)(once[i]);
      assert forall j :: 0 <= j < i ==> once[j] == goals[j];
      assert FindIndex(once, IdIs(id)) == Some(i);
  }

  /** Every goal kept by filtering for a period is of that period. */
  lemma KeptOfPeriod(xs: seq<Goal>, t: TemporalType)
    ensures forall i :: 0 <= i < |Filter(xs, HasTemporalType(t))| ==>
              Filter(xs, HasTemporalType(t))[i].temporalType == t
  {
    var r := Filter(xs, HasTemporalType(t));
    forall i | 0 <= i < |r| ensures r[i].temporalType == t {
      assert HasTemporalType(t)(r[i]);
    }
  }

  /** Filtering by a period keeps exactly the goals of that period: each kept goal is of the
      period and was fetched, every fetched goal of the period is kept, and a goal fetched before
      another stays before it (the filter of an earlier part precedes that of the later part). */
  lemma FilteredByPeriod(xs: seq<Goal>, t: TemporalType)
    ensures forall i :: 0 <= i < |Filter(xs, HasTemporalType(t))| ==>
              Filter(xs, HasTemporalType(t))[i].temporalType == t
              && Filter(xs, HasTemporalType(t))[i] in xs
    ensures forall g :: g in xs && g.temporalType == t ==> g in Filter(xs, HasTemporalType(t))
    ensures forall k :: 0 <= k <= |xs| ==>
              Filter(xs, HasTemporalType(t))
                == Filter(xs[..k], HasTemporalType(t)) + Filter(xs[k..], HasTemporalType(t))
  {
    var r := Filter(xs, HasTemporalType(t));
    KeptOfPeriod(xs, t);
    forall g | g in xs && g.temporalType == t ensures g in r {
      var i :| 0 <= i < |xs| && xs[i] == g;
      assert HasTemporalType(t)(xs[i]);
    }
    forall k | 0 <= k <= |xs|
      ensures r == Filter(xs[..k], HasTemporalType(t)) + Filter(xs[k..], HasTemporalType(t))
    {
      assert xs[..k] + xs[k..] == xs;
      FilterAppend(xs[..k], xs[k..], HasTemporalType(t));
    }
  }

  /** Every fetch of `fetchAllGoalsForView`'s `Promise.all` succeeds. */
  predicate ViewsOk(week: Option<int>, yearly: Outcome<seq<Goal>>, monthly: Outcome<seq<Goal>>,
                    weekly: Outcome<seq<Goal>>)
  {
    yearly.Ok? && monthly.Ok? && (Truthy(week) ==> weekly.Ok?)
  }

  /** The message the `Promise.all` of `fetchAllGoalsForView` rejects with. */
  function ViewsError(week: Option<int>, yearly: Outcome<seq<Goal>>, monthly: Outcome<seq<Goal>>,
                      weekly: Outcome<seq<Goal>>): string
    requires !ViewsOk(week, yearly, monthly, weekly)
  {
    FirstFailure(yearly, monthly, if Truthy(week) then weekly else Ok([]))
  }

  /** The requests of `fetchAllGoalsForView`: the year's goals, the month's goals, and the
      week's goals only when a week is given (truthy). */
  function ViewsRequests(year: int, month: int, week: Option<int>): seq<Request>
  {
    [Request(Get, GoalsUrl(year, None, None)), Request(Get, GoalsUrl(year, Some(month), None))]
    + (if Truthy(week) then [Request(Get, GoalsUrl(year, None, week))] else [])
  }

  class GoalStore {
    var goals: seq<Goal>
    var yearlyGoals: seq<Goal>
    var monthlyGoals: seq<Goal>
    var weeklyGoals: seq<Goal>
    var isLoading: bool
    var error: Option<string>

    /** The three view lists hold only goals of their own period. */
    predicate ViewsByPeriod()
      reads this
    {
      && (forall i :: 0 <= i < |yearlyGoals| ==> yearlyGoals[i].temporalType == Yearly)
      && (forall i :: 0 <= i < |monthlyGoals| ==> monthlyGoals[i].temporalType == Monthly)
      && (forall i :: 0 <= i < |weeklyGoals| ==> weeklyGoals[i].temporalType == Weekly)
    }

    constructor ()
      ensures goals == [] && yearlyGoals == [] && monthlyGoals == [] && weeklyGoals == []
      ensures !isLoading && error == None
      ensures ViewsByPeriod()
    {
      goals := [];
      yearlyGoals := [];
      monthlyGoals := [];
      weeklyGoals := [];
      isLoading := false;
      error := None;
    }

    /** `_fetch`: one GET for a period; a response that is not ok becomes the error
        'Failed to fetch goals'. */
    method Fetch(year: int, month: Option<int>, week: Option<int>, response: Outcome<seq<Goal>>)
      returns (sent: seq<Request>, result: Result<seq<Goal>, string>)
      ensures sent == [Request(Get, GoalsUrl(year, month, week))]
      ensures result == FetchResult(response)
    {
      var params := BuildGoalQuery(year, month, week);
      var queryString := QueryString(params);
      sent := [Request(Get, "/goal/" + (if queryString != "" then "?" + queryString else ""))];
      match response {
        case Ok(data) => result := Success(data);
        case NotOk => result := Failure("Failed to fetch goals");
        case Raised(m) => result := Failure(m);
      }
    }

    /** `fetchGoals`: the list is replaced on success; on failure it is kept and the error set. */
    method FetchGoals(year: int, month: Option<int>, response: Outcome<seq<Goal>>)
      returns (sent: seq<Request>)
      modifies this
      ensures sent == [Request(Get, GoalsUrl(year, month, None))]
      ensures !isLoading
      ensures response.Ok? ==> goals == response.payload && error == old(error)
      ensures response.NotOk? ==> goals == old(goals) && error == Some("Failed to fetch goals")
      ensures response.Raised? ==> goals == old(goals) && error == Some(response.message)
      ensures yearlyGoals == old(yearlyGoals) && monthlyGoals == old(monthlyGoals)
      ensures weeklyGoals == old(weeklyGoals)
    {
      isLoading := true;
      var result;
      sent, result := Fetch(year, month, None, response);
      match result {
        case Success(data) => goals := data;
        case Failure(m) => error := Some(m);
      }
      isLoading := false;
    }

    /** The `Promise.all` of `fetchAllGoalsForView`: the yearly and monthly fetches, and the
        weekly one only when a week is given (truthy). It settles with the three lists when
        every fetch succeeded, and otherwise with the error of the first failing fetch in
        argument order. */
    method FetchViews(year: int, month: int, week: Option<int>,
                      yearly: Outcome<seq<Goal>>, monthly: Outcome<seq<Goal>>,
                      weekly: Outcome<seq<Goal>>)
      returns (sent: seq<Request>, lists: Result<(seq<Goal>, seq<Goal>, seq<Goal>), string>)
      ensures sent == ViewsRequests(year, month, week)
      ensures lists.Success? <==> ViewsOk(week, yearly, monthly, weekly)
      ensures lists.Success? ==>
                lists.value == (yearly.payload, monthly.payload,
                                if Truthy(week) then weekly.payload else [])
      ensures lists.Failure? ==>
                lists.error == ViewsError(week, yearly, monthly, weekly)
    {
      var sentY, y := Fetch(year, None, None, yearly);
      var sentM, m := Fetch(year, Some(month), None, monthly);
      var sentW: seq<Request> := [];
      var w: Result<seq<Goal>, string> := Success([]);
      if Truthy(week) {
        sentW, w := Fetch(year, None, week, weekly);
      }
      sent := sentY + sentM + sentW;
      if y.Failure? {
        lists := Failure(y.error);
      } else if m.Failure? {
        lists := Failure(m.error);
      } else if w.Failure? {
        lists := Failure(w.error);
      } else {
        lists := Success((y.value, m.value, w.value));
      }
    }

    /** The settling of `fetchAllGoalsForView`'s `Promise.all`: on success the three lists are
        assigned, each filtered to its own period; on failure only the error is set. */
    method SettleViews(lists: Result<(seq<Goal>, seq<Goal>, seq<Goal>), string>)
      modifies this
      requires ViewsByPeriod()
      ensures ViewsByPeriod()
      ensures lists.Success? ==>
                && yearlyGoals == Filter(lists.value.0, HasTemporalType(Yearly))
                && monthlyGoals == Filter(lists.value.1, HasTemporalType(Monthly))
                && weeklyGoals == Filter(lists.value.2, HasTemporalType(Weekly))
                && error == old(error)
      ensures lists.Failure? ==>
                && yearlyGoals == old(yearlyGoals) && monthlyGoals == old(monthlyGoals)
                && weeklyGoals == old(weeklyGoals)
                && error == Some(lists.error)
      ensures goals == old(goals) && isLoading == old(isLoading)
    {
      if lists.Success? {
        var (y, m, w) := lists.value;
        KeptOfPeriod(y, Yearly);
        KeptOfPeriod(m, Monthly);
        KeptOfPeriod(w, Weekly);
        yearlyGoals, monthlyGoals, weeklyGoals :=
          Filter(y, HasTemporalType(Yearly)), Filter(m, HasTemporalType(Monthly)),
          Filter(w, HasTemporalType(Weekly));
      } else {
        error := Some(lists.error);
      }
    }

    /** `fetchAllGoalsForView`: the three view lists are assigned only when every fetch
        succeeded, each filtered to its own period; otherwise all three are kept. */
    method FetchAllGoalsForView(year: int, month: int, week: Option<int>,
                                yearly: Outcome<seq<Goal>>, monthly: Outcome<seq<Goal>>,
                                weekly: Outcome<seq<Goal>>)
      returns (sent: seq<Request>)
      modifies this
      requires ViewsByPeriod()
      ensures ViewsByPeriod()
      ensures !isLoading
      ensures sent == ViewsRequests(year, month, week)
      ensures ViewsOk(week, yearly, monthly, weekly) ==>
                && yearlyGoals == Filter(yearly.payload, HasTemporalType(Yearly))
                && monthlyGoals == Filter(monthly.payload, HasTemporalType(Monthly))
                && weeklyGoals == (if Truthy(week) then Filter(weekly.payload, HasTemporalType(Weekly))
                                   else [])
                && error == old(error)
      ensures !ViewsOk(week, yearly, monthly, weekly) ==>
                && yearlyGoals == old(yearlyGoals) && monthlyGoals == old(monthlyGoals)
                && weeklyGoals == old(weeklyGoals)
                && error == Some(ViewsError(week, yearly, monthly, weekly))
      ensures goals == old(goals)
    {
      isLoading := true;
      var lists;
      sent, lists := FetchViews(year, month, week, yearly, monthly, weekly);
      SettleViews(lists);
      isLoading := false;
    }

    /** `createGoal`: after the backend confirmed, the goals of the payload's period are fetched
        again; the result is true whatever that second fetch brings. */
    method CreateGoal(payloadYear: int, payloadMonth: Option<int>, response: Outcome<Goal>,
                      refresh: Outcome<seq<Goal>>)
      returns (sent: seq<Request>, created: bool)
      modifies this
      ensures created <==> response.Ok?
      ensures !isLoading
      ensures created ==> sent == [Request(Put, "/goal/"), Request(Get, GoalsUrl(payloadYear, payloadMonth, None))]
      ensures created && refresh.Ok? ==> goals == refresh.payload && error == old(error)
      ensures created && refresh.NotOk? ==> goals == old(goals) && error == Some("Failed to fetch goals")
      ensures created && refresh.Raised? ==> goals == old(goals) && error == Some(refresh.message)
      ensures !created ==> sent == [Request(Put, "/goal/")] && goals == old(goals)
      ensures response.NotOk? ==> error == Some("Failed to create goal")
      ensures response.Raised? ==> error == Some(response.message)
      ensures yearlyGoals == old(yearlyGoals) && monthlyGoals == old(monthlyGoals)
      ensures weeklyGoals == old(weeklyGoals)
    {
      isLoading := true;
      sent := [Request(Put, "/goal/")];
      match response {
        case NotOk =>
          error := Some("Failed to create goal");
          created := false;
        case Raised(m) =>
          error := Some(m);
          created := false;
        case Ok(_) =>
          var again := FetchGoals(payloadYear, payloadMonth, refresh);
          sent := sent + again;
          created := true;
      }
      isLoading := false;
    }

    /** `updateGoal`: one POST naming the attribute and its new value; failures are only logged
        and no list changes either way. */
    method UpdateGoal(id: string, attribute: GoalAttribute, value: string, response: Outcome<()>)
      returns (sent: seq<Request>, updated: bool)
      ensures updated <==> response.Ok?
      ensures sent == [Request(Post, "/goal/" + id + "/update?"
                                     + QueryString([(Attribute, AttributeName(attribute)), (ValueKey, value)]))]
    {
      var params: seq<Param> := [];
      params := params + [(Attribute, AttributeName(attribute))];
      params := params + [(ValueKey, value)];
      assert params == [(Attribute, AttributeName(attribute)), (ValueKey, value)];
      sent := [Request(Post, "/goal/" + id + "/update?" + QueryString(params))];
      updated := response.Ok?;
    }

    /** `deleteGoal`: after the backend confirmed, every goal with the id leaves `goals` (the
        view lists are not touched); on failure the error is set. */
    method DeleteGoal(id: string, response: Outcome<()>) returns (sent: seq<Request>, deleted: bool)
      modifies this
      ensures sent == [Request(Delete, "/goal/?id=" + id)]
      ensures deleted <==> response.Ok?
      ensures deleted ==> goals == Filter(old(goals), IdIsNot(id)) && error == old(error)
      ensures response.NotOk? ==> goals == old(goals) && error == Some("Failed to delete goal")
      ensures response.Raised? ==> goals == old(goals) && error == Some(response.message)
      ensures yearlyGoals == old(yearlyGoals) && monthlyGoals == old(monthlyGoals)
      ensures weeklyGoals == old(weeklyGoals) && isLoading == old(isLoading)
    {
      sent := [Request(Delete, "/goal/?id=" + id)];
      match response {
        case Ok(_) =>
          goals := Filter(goals, IdIsNot(id));
          deleted := true;
        case NotOk =>
          error := Some("Failed to delete goal");
          deleted := false;
        case Raised(m) =>
          error := Some(m);
          deleted := false;
      }
    }

    /** `modifyManualGoal`: a GET of the goal by id, whose answer replaces the first goal with
        that id. `increase` and `amount` are accepted and not used. Failures are only logged. */
    method ModifyManualGoal(id: string, increase: bool, amount: int, response: Outcome<Goal>)
      returns (sent: seq<Request>, modified: bool)
      modifies this
      ensures sent == [Request(Get, "/goal/?" + QueryString([(Id, id)]))]
      ensures modified <==> response.Ok?
      ensures goals == if modified then ReplaceFirst(old(goals), id, response.payload) else old(goals)
      ensures yearlyGoals == old(yearlyGoals) && monthlyGoals == old(monthlyGoals)
      ensures weeklyGoals == old(weeklyGoals)
      ensures isLoading == old(isLoading) && error == old(error)
    {
      var params: seq<Param> := [];
      params := params + [(Id, id)];
      sent := [Request(Get, "/goal/?" + QueryString(params))];
      if !response.Ok? {
        return sent, false;
      }
      var index := FindIndex(goals, IdIs(id));
      if index.Some? {
        goals := goals[index.value := response.payload];
      }
      modified := true;
    }
  }

  /** The message Promise.all settles with: that of the first failing fetch in argument order. */
  function FirstFailure(a: Outcome<seq<Goal>>, b: Outcome<seq<Goal>>, c: Outcome<seq<Goal>>): (m: string)
    requires !(a.Ok? && b.Ok? && c.Ok?)
    ensures !a.Ok? ==> m == FetchMessage(a)
    ensures a.Ok? && !b.Ok? ==> m == FetchMessage(b)
    ensures a.Ok? && b.Ok? ==> m == FetchMessage(c)
  {
    if !a.Ok? then FetchMessage(a) else if !b.Ok? then FetchMessage(b) else FetchMessage(c)
  }

  /** What `_fetch` returns or throws for one outcome. */
  function FetchResult(o: Outcome<seq<Goal>>): (r: Result<seq<Goal>, string>)
    ensures r.Success? <==> o.Ok?
    ensures o.Ok? ==> r.value == o.payload
    ensures !o.Ok? ==> r.error == FetchMessage(o)
  {
    match o
    case Ok(goals) => Success(goals)
    case NotOk => Failure("Failed to fetch goals")
    case Raised(m) => Failure(m)
  }

  /** The error a failing `_fetch` throws. */
  function FetchMessage(o: Outcome<seq<Goal>>): (m: string)
    requires !o.Ok?
    ensures o.NotOk? ==> m == "Failed to fetch goals"
    ensures o.Raised? ==> m == o.message
  {
    if o.NotOk? then "Failed to fetch goals" else o.message
  }
}
