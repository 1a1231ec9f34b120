# verve-frontend core, modelled in Dafny

A model of the logic in the verve-frontend client (a Vue/Pinia single-page app for an activity
tracker) and proofs about it. The model covers:

- the ISO 8601 duration codec (`src/utils/datetime.ts`);
- the API helpers and mappers (`src/services/api.ts`, and the mapper in `src/stores/location.ts`);
- the Pinia stores (activity, auth, equipment, goals, heatmap, highlights, location, settings,
  statistics, types, weekly);
- the router's root redirect and global guard (`src/router/index.ts`);
- the version bump of the release script (`scripts/release.ts`).

Each store is a `class` whose fields are the store's refs. Each action is a `method`, and the
backend is given to it as parameters. An `Outcome` is what `fetch` led to:

- `Ok(payload)`: a response with `ok` set, and its parsed body;
- `NotOk`: a response without `ok`;
- `Raised(message)`: a thrown error and its message.

The credential is an `Option<string>` argument. An action returns the requests it issued, as
`sent: seq<Request>`, each with its verb and URL path. The API base URL is left out of every path.
A state-changing action's `ensures` gives its whole new state: its result fields, `isLoading`
and `error`, and the fields it leaves alone.

JavaScript values are modelled by dedicated types:

- `Field<T>` is `undefined`, `null` or a value;
- `Coalesce` is `??`, and `OrNull` is `?? null`;
- `Present` is the truthiness of a token, and `Truthy` that of a number;
- a built query is a sequence of (key, value) pairs, in `URLSearchParams` order.

Modules, one per file:

- `Remote`: shared types, query strings and list helpers;
- `Text`: decimal numerals;
- `Datetime`, `Records`, `Api`;
- one module per store: `Activities`, `Auth`, `Equipment`, `Goals`, `Heatmap`, `Highlights`,
  `Locations`, `Settings`, `Statistics`, `Types`, `Weekly`;
- `Router`;
- `Release`.

Where the code and its own description differ, the model follows the code:

- the stores import `useUserStore` from `src/stores/auth.ts`, which exports `useAuthStore`;
- `ActivityFilters` is imported by `src/stores/heatmap.ts` from `src/stores/activity.ts`, which
  does not define it. The model fills it with the four filters that `fetchHeatmapData` reads.

## Model

| member | source | states |
|---|---|---|
| Remote.Coalesce | src/services/api.ts:27-28 | `x ?? d` is the value when one is present, and `d` when it is `undefined` or `null` |
| Remote.OrNull | src/stores/location.ts:58-64 | `x ?? null` is never `undefined`: a value and `null` pass through, and `undefined` becomes `null` |
| Remote.TruthyText | src/stores/heatmap.ts:35-38 | a number filter is sent exactly when it is truthy (present and non-zero), as its numeral |
| Remote.PresentText | src/stores/goals.ts:57-58 | an optional number is sent exactly when it is neither `undefined` nor `null`, so 0 is sent |
| Remote.QueryString | src/stores/goals.ts:59 | `params.toString()` is empty exactly when no parameter was appended |
| Remote.WithQuery | src/stores/goals.ts:60-61 | `?` and the query string are added exactly when there is at least one parameter |
| Remote.Filter | src/stores/goals.ts:89-91 | `filter` keeps only elements that satisfy the predicate, and keeps every one that does |
| Remote.FilterAppend | src/stores/goals.ts:89-91 | filtering commutes with concatenation |
| Remote.FilterKeepsAll | src/stores/goals.ts:89-91 | a list whose elements all satisfy the predicate is unchanged |
| Remote.FilterIdempotent | src/stores/goals.ts:89-91 | filtering twice is filtering once |
| Remote.FindIndex | src/stores/goals.ts:178 | `findIndex` finds the first matching index; the model's `None` (the source's -1) comes exactly when no element matches |
| Datetime.FindPT | src/utils/datetime.ts:10 | the unanchored match starts at the leftmost `PT`, and there is none exactly when no position holds `PT` |
| Datetime.DigitRun | src/utils/datetime.ts:10 | a greedy `\d+` takes the longest prefix of digits |
| Datetime.ParseIsoDuration | src/utils/datetime.ts:6-18 | an empty duration, or one without `PT`, is 0 seconds |
| Datetime.DigitRunPrefix | src/utils/datetime.ts:10 | a digit run stops exactly at the first non-digit |
| Datetime.GroupSkipped | src/utils/datetime.ts:10 | an optional group for another designator matches nothing and consumes nothing |
| Datetime.GroupTaken | src/utils/datetime.ts:10-15 | a present group is read with its decimal value and consumed |
| Datetime.HoursGroup | src/utils/datetime.ts:10-13 | the hours group of `<h>H<m>M<s>S` reads `h` and leaves the rest |
| Datetime.MinutesGroup | src/utils/datetime.ts:10-14 | the minutes group reads `m` and leaves the seconds group |
| Datetime.SecondsGroupRead | src/utils/datetime.ts:10-15 | the seconds group reads `s` |
| Datetime.ReadGroups | src/utils/datetime.ts:10-17 | the groups after `PT` read as h·3600 + m·60 + s |
| Datetime.ParseDurationText | src/utils/datetime.ts:6-18 | `PT<h>H<m>M<s>S`, with any group absent, parses to h·3600 + m·60 + s |
| Datetime.ParseExampleHours | src/utils/datetime.ts:9-17 | `PT2H` is 7200 seconds |
| Datetime.ParseExampleFull | src/utils/datetime.ts:9-17 | `PT3H21M8S` is 12068 seconds |
| Datetime.ParseWithoutPT | src/utils/datetime.ts:7-11 | the empty text, text without `PT` and `P1DT2H` read as 0 |
| Datetime.Clock | src/utils/datetime.ts:26-28 | hours, minutes and seconds recompose the duration; minutes and seconds are below 60 |
| Datetime.ClockUnique | src/utils/datetime.ts:26-28 | that decomposition is the only one with minutes and seconds below 60 |
| Datetime.FormatDuration | src/utils/datetime.ts:25-34 | from one hour on the text is `<H>h <M>m`, with the clock's hours (positive) and minutes; below it, `<M>m <S>s` with the clock's minutes and seconds; `h` appears exactly from one hour on |
| Datetime.NumeralSplit | src/utils/datetime.ts:31-33 | two numerals each followed by the same non-digit split the text in only one way |
| Datetime.FormatDurationInjectiveBelowHour | src/utils/datetime.ts:33 | below one hour, equal renderings come from equal durations |
| Datetime.ClockOfMinutes | src/utils/datetime.ts:26-27 | the hours and minutes depend only on the whole minutes |
| Datetime.FormatDurationMinutesFromHour | src/utils/datetime.ts:26-31 | from one hour on, two renderings are equal exactly when the whole minutes are |
| Datetime.FormatExamples | src/utils/datetime.ts:25-34 | 0, 59 and 3661 seconds render as `0m 0s`, `0m 59s` and `1h 1m` |
| Records.DurationInput | src/utils/datetime.ts:7 | a missing or null duration parses to 0, like the empty text |
| Api.AuthHeaders | src/services/api.ts:18-22 | the header is `Bearer <token>`; it fails with `Not authenticated` exactly when the token is missing or empty |
| Api.MapApiActivity | src/services/api.ts:25-45 | the duration is parsed and its rendering kept beside it; a missing elevation becomes 0; the other fields are copied |
| Api.ElevationAlwaysNumber | src/services/api.ts:27-28 | a mapped elevation is always a number, and 0 when the backend's is missing or null |
| Api.FetchActivitySummary | src/services/api.ts:50-58 | no request without a token; one GET; `Activity not found.` on a non-ok response; the thrown message on a throw; the mapped activity on success |
| Api.TrackPointRenaming | src/services/api.ts:78-87 | the renaming of a track point's fields is one-to-one in both directions |
| Api.MapTrackPoints | src/services/api.ts:78-87 | one client point per backend point, in order, each of which maps back to its source |
| Api.TrackMappingInjective | src/services/api.ts:78-87 | different tracks map to different point lists |
| Api.FetchActivityTrack | src/services/api.ts:62-88 | no request without a token; a failure for a non-ok response or a throw; an empty list when `data` is missing or null; otherwise the renamed points |
| Activities.FeedEntry | src/stores/activity.ts:56-62 | a feed entry keeps id, start and distance, and the parsed duration with its rendering; the rest is undefined |
| Activities.FeedEntries | src/stores/activity.ts:56-62 | one entry per raw activity, in order |
| Activities.ErrorText | src/stores/activity.ts:65 | the message is never empty: a non-empty message is kept, otherwise the fallback text is used |
| Activities.ActivityStore.constructor | src/stores/activity.ts:20-22 | the initial state is empty, not loading and without error |
| Activities.ActivityStore.FetchRecentActivities | src/stores/activity.ts:25-70 | a call while one is in flight does nothing; without a token no request and `Authentication token not found.`; on success the list is replaced by the feed entries; on a failure the list is kept and the message set |
| Locations.MapApiActivity | src/stores/location.ts:50-66 | the location store's mapper: missing fields become null, and the parsed duration is kept with its rendering |
| Locations.MappersAgree | src/stores/location.ts:58-64 | this mapper and the mapper of the API helpers agree on id, start, distance and duration |
| Locations.LocationActivities | src/stores/location.ts:129 | one mapped activity per raw activity, in order |
| Locations.BoundsParamsContents | src/stores/location.ts:73-78 | the four bounds are sent under their own keys, each with its coordinate's text, and the limit is 100 |
| Locations.BoundsParamsKeys | src/stores/location.ts:73-78 | the keys are exactly the four bounds and the limit, once each, in that order |
| Locations.BuildBoundsQuery | src/stores/location.ts:73-78 | the appends build exactly the bounds query |
| Locations.RemovalKeepsOthers | src/stores/location.ts:167 | removing by id drops every match and keeps every other element |
| Locations.LocationStore.constructor | src/stores/location.ts:34-41 | the initial state is empty |
| Locations.LocationStore.FetchLocationsInBounds | src/stores/location.ts:69-93 | one GET with the bounds query; the visible locations are replaced on success; a failure sets its message; the other lists are kept |
| Locations.LocationStore.FetchAllLocations | src/stores/location.ts:95-108 | one GET; the available locations are replaced on success; failures change nothing else |
| Locations.LocationStore.SelectLocation | src/stores/location.ts:110-136 | the selection is cleared first; the activities are requested only after the details arrived; a failed details request sets its message; a throw of the activities request sets its message, and a non-ok one leaves the error as it was; each failure leaves its part empty |
| Locations.LocationStore.CreateLocation | src/stores/location.ts:138-155 | one PUT; created exactly on an ok response; the new location is added to no list; a failure sets its message |
| Locations.LocationStore.DeleteLocation | src/stores/location.ts:157-177 | one DELETE; on success the location leaves the visible list, and the selection when it was selected; otherwise nothing changes |
| Locations.LocationStore.FetchLocationsForActivity | src/stores/location.ts:179-192 | the activity's locations on success, and an empty list on any failure |
| Locations.LocationStore.AddLocationToActivity | src/stores/location.ts:194-214 | one PATCH, then the activity's locations are fetched again only on success |
| Locations.LocationStore.RemoveLocationFromActivity | src/stores/location.ts:216-234 | one DELETE, then the activity's locations are fetched again only on success |
| Locations.LocationStore.FindLocationMapCenter | src/stores/location.ts:236-256 | the coordinates of the most recent location, or the fixed fallback when there is none or the request fails |
| Goals.GoalStore.constructor | src/stores/goals.ts:39-45 | the initial state is empty |
| Goals.AttributeName | src/stores/goals.ts:121 | each goal attribute is sent under its backend name |
| Goals.AttributeNameInjective | src/stores/goals.ts:121 | different attributes are sent under different backend names |
| Goals.GoalQueryContents | src/stores/goals.ts:55-58 | the year is always sent; month and week are sent exactly when they are neither undefined nor null |
| Goals.GoalQueryInOrder | src/stores/goals.ts:54-58 | the pairs come in the order year, month, week |
| Goals.GoalQueryStartsWithYear | src/stores/goals.ts:55 | the first pair is the year |
| Goals.GoalsUrlHasQuery | src/stores/goals.ts:60-61 | the URL always carries the query, because the year makes it non-empty |
| Goals.BuildGoalQuery | src/stores/goals.ts:54-58 | the appends build exactly the goal query |
| Goals.ReplaceFirst | src/stores/goals.ts:178-181 | only the first goal with the id is replaced; the length and every other element are kept |
| Goals.ReplaceFirstTwice | src/stores/goals.ts:178-181 | replacing the goal with an id twice leaves the second replacement |
| Goals.FilteredByPeriod | src/stores/goals.ts:89-91 | each list keeps only fetched goals of its own period, keeps every fetched goal of that period, and keeps them in fetch order |
| Goals.FirstFailure | src/stores/goals.ts:83-87 | `Promise.all` settles with the first failure in argument order, and only when one fails |
| Goals.FetchResult | src/stores/goals.ts:63-66 | the goals of an ok response, the fixed message for a non-ok one, and the thrown message |
| Goals.FetchMessage | src/stores/goals.ts:64 | the fixed text `Failed to fetch goals` for a non-ok response, and the thrown message for a throw |
| Goals.GoalStore.Fetch | src/stores/goals.ts:53-67 | one GET to the goal URL; its result is the fetch result; no state change |
| Goals.GoalStore.FetchGoals | src/stores/goals.ts:69-78 | the goals are replaced on success; on a failure the error is set and the goals kept |
| Goals.GoalStore.FetchViews | src/stores/goals.ts:83-87 | the three fetches (the weekly one only for a truthy week), and their success or first error |
| Goals.GoalStore.SettleViews | src/stores/goals.ts:89-93 | on success each period list is the filtered fetch; on a failure the lists are kept and the error set |
| Goals.GoalStore.FetchAllGoalsForView | src/stores/goals.ts:80-97 | the same as FetchViews then SettleViews; period lists hold only goals of their period |
| Goals.GoalStore.CreateGoal | src/stores/goals.ts:99-117 | one PUT; created exactly on an ok response; then the goals of the payload's period are fetched again; each failure sets its message |
| Goals.GoalStore.UpdateGoal | src/stores/goals.ts:119-141 | one POST naming the attribute and its new value; updated exactly on an ok response; no list changes |
| Goals.GoalStore.DeleteGoal | src/stores/goals.ts:143-157 | on success every goal with the id leaves the list; otherwise the list is kept and the message set |
| Goals.GoalStore.ModifyManualGoal | src/stores/goals.ts:159-187 | a GET of the goal by id; on success its answer replaces the first goal with that id; nothing else changes |
| Heatmap.HeatmapQueryContents | src/stores/heatmap.ts:34-38 | each truthy filter is sent, 0 is left out, and the keys come in the source's order |
| Heatmap.HeatmapQueryEmpty | src/stores/heatmap.ts:34-38 | the query is empty exactly when no filter is truthy |
| Heatmap.BuildHeatmapQuery | src/stores/heatmap.ts:34-38 | the appends build exactly the heatmap query |
| Heatmap.HeatmapStore.constructor | src/stores/heatmap.ts:16-19 | the initial state is empty with centre (0, 0) |
| Heatmap.HeatmapStore.FetchHeatmapData | src/stores/heatmap.ts:22-59 | without a token no request and `Not authenticated`; one GET with the filter query; the points and centre on success; a failure keeps them and sets its message |
| Highlights.DashboardUrlShape | src/stores/highlights.ts:61-67 | `?year=` is added exactly for a truthy year |
| Highlights.HighlightStore.constructor | src/stores/highlights.ts:17-20 | the initial state is empty |
| Highlights.HighlightStore.FetchAvailableMetrics | src/stores/highlights.ts:28-38 | the metrics are fetched only while the list is empty, and kept on failure |
| Highlights.HighlightStore.FetchHighlightsForActivity | src/stores/highlights.ts:41-54 | the highlights are replaced on success and emptied on any failure |
| Highlights.HighlightStore.FetchDashboardHighlights | src/stores/highlights.ts:57-77 | the results are cleared first, so a failure leaves them empty |
| Statistics.YearStatsUrlShape | src/stores/statistics.ts:47-50 | `?year=` is added exactly for a truthy year |
| Statistics.StatisticsStore.constructor | src/stores/statistics.ts:29-31 | no statistics, not loading, no error |
| Statistics.StatisticsStore.FetchYearlyStats | src/stores/statistics.ts:34-69 | the statistics on success; a failure clears them and sets the error |
| Weekly.WeeklyQueryContents | src/stores/weekly.ts:39-42 | year and week are sent when truthy and the activity type always, in that order |
| Weekly.BuildWeeklyQuery | src/stores/weekly.ts:39-42 | the appends build exactly the weekly query |
| Weekly.WeeklyStore.constructor | src/stores/weekly.ts:19-21 | no figures, not loading, no error |
| Weekly.WeeklyStore.FetchWeeklyStats | src/stores/weekly.ts:23-59 | the figures on success; a failure keeps them and sets the error |
| Settings.LoadError | src/stores/settings.ts:44-63 | there is no error exactly when both responses are ok; a throw takes precedence over a non-ok response, and the profile over the settings |
| Settings.SettingsStore.constructor | src/stores/settings.ts:24-27 | no profile, no settings, not loading, no error |
| Settings.SettingsStore.FetchAllSettings | src/stores/settings.ts:30-67 | one run at a time; `Not authenticated.` without a token; both requests; profile and settings are assigned together or not at all |
| Types.TypeStore.constructor | src/stores/types.ts:18-19 | an empty catalogue, not loading |
| Types.TypeStore.FetchActivityTypes | src/stores/types.ts:22-40 | nothing is sent while the catalogue is filled or loading; otherwise one GET, and the response's data on success |
| Types.LoadTwice | src/stores/types.ts:23 | after a successful load a second call sends nothing and changes nothing |
| Equipment.Rejection | src/stores/equipment.ts:78 | a rejected action throws its fixed message for a non-ok response and the original message for a throw |
| Equipment.DefaultSetQueryContents | src/stores/equipment.ts:134-135 | the activity type is always sent, first; the sub type follows exactly when it is truthy |
| Equipment.SetDefaultSet | src/stores/equipment.ts:133-142 | one PUT; it throws `Failed to set default.` on a non-ok response; no state change |
| Equipment.EquipmentStore.constructor | src/stores/equipment.ts:33-39 | the initial state is empty |
| Equipment.EquipmentStore.FetchEquipmentTypes | src/stores/equipment.ts:49-59 | nothing is sent while types are cached; otherwise one GET, the types replaced on success, and a throw propagated |
| Equipment.EquipmentStore.FetchAllEquipment | src/stores/equipment.ts:61-70 | one GET; the equipment is replaced on success and kept on failure; a throw is propagated |
| Equipment.EquipmentStore.CreateEquipment | src/stores/equipment.ts:72-80 | a POST, then a refresh of the equipment only on success; `Failed to create equipment.` otherwise |
| Equipment.EquipmentStore.FetchAllSets | src/stores/equipment.ts:84-93 | one GET; the sets are replaced on success; failures are swallowed and the sets kept |
| Equipment.EquipmentStore.ChangeSets | src/stores/equipment.ts:95-130 | one change request, then a refresh of the sets on success, or the action's message |
| Equipment.EquipmentStore.CreateSet | src/stores/equipment.ts:95-103 | a POST to the sets, then a refresh; `Failed to create set.` otherwise |
| Equipment.EquipmentStore.DeleteSet | src/stores/equipment.ts:105-112 | a DELETE of the set, then a refresh; `Failed to delete set.` otherwise |
| Equipment.EquipmentStore.AddEquipmentToSet | src/stores/equipment.ts:114-121 | a POST of the item's path in the set, then a refresh; `Failed to add item to set.` otherwise |
| Equipment.EquipmentStore.RemoveEquipmentFromSet | src/stores/equipment.ts:123-130 | a DELETE of the item's path in the set, then a refresh; `Failed to remove item from set.` otherwise |
| Equipment.EquipmentStore.FetchEquipmentForActivity | src/stores/equipment.ts:146-154 | the activity's equipment is replaced on success and emptied on a non-ok response; a throw leaves it unchanged and propagates |
| Equipment.EquipmentStore.ChangeActivity | src/stores/equipment.ts:156-190 | one change request; on success the activity's equipment is fetched again; otherwise the action's message is thrown |
| Equipment.EquipmentStore.AddEquipmentToActivity | src/stores/equipment.ts:156-163 | a POST linking the item to the activity, then a refresh of the activity's equipment |
| Equipment.EquipmentStore.RemoveEquipmentFromActivity | src/stores/equipment.ts:165-172 | a DELETE unlinking the item, then a refresh of the activity's equipment |
| Equipment.EquipmentStore.AddSetToActivity | src/stores/equipment.ts:174-181 | a POST linking the whole set, then a refresh of the activity's equipment |
| Equipment.EquipmentStore.RemoveSetFromActivity | src/stores/equipment.ts:183-190 | a DELETE unlinking the whole set, then a refresh of the activity's equipment |
| Auth.AuthStore.constructor | src/stores/auth.ts:8 | the token starts from local storage, and the two agree |
| Auth.AuthStore.IsAuthenticated | src/stores/auth.ts:12 | signed in exactly when the token is present and non-empty |
| Auth.AuthStore.SetToken | src/stores/auth.ts:19-22 | both copies hold the new token; other storage keys are kept |
| Auth.AuthStore.ClearToken | src/stores/auth.ts:27-30 | the token is null and its storage key removed; other keys are kept |
| Auth.AuthStore.Logout | src/stores/auth.ts:79-83 | the same as clearing the token |
| Auth.AuthStore.Login | src/stores/auth.ts:38-74 | success exactly when the ok response carries a non-empty token; a non-ok or tokenless response changes nothing; a throw clears the token; the copies stay in sync |
| Router.RouteNamed | src/router/index.ts:9-19 | a name lookup returns the route with that name |
| Router.RouteAt | src/router/index.ts:9-19 | a path lookup returns the route at that path |
| Router.RootRedirect | src/router/index.ts:21-27 | `/` leads to an existing route that requires authentication exactly when the user is signed in |
| Router.Guard | src/router/index.ts:32-46 | a protected route sends a signed-out user to `login`; the login page sends a signed-in user to `dashboard`; navigation goes through exactly when neither applies; a redirect names a route of the table |
| Router.GuardProtects | src/router/index.ts:36-38 | a signed-out user never gets onto a protected route |
| Router.GuardKeepsOffLogin | src/router/index.ts:39-41 | a signed-in user never lands on the login page |
| Router.GuardRedirectSettles | src/router/index.ts:32-46 | the guard lets its own redirect target through |
| Router.RootRedirectSettles | src/router/index.ts:22-26 | the guard lets the root redirect's target through |
| Release.KindOf | scripts/release.ts:29-40 | `major` and `minor` are recognised, and anything else bumps the patch |
| Release.SplitDots | scripts/release.ts:28 | `split(".")` gives at least one piece, and no piece contains a dot |
| Release.JoinDotsCons | scripts/release.ts:42 | a character put in front of the first part comes first in the join |
| Release.JoinSplit | scripts/release.ts:28-42 | joining what was split gives back the text |
| Release.SplitJoin | scripts/release.ts:28-42 | splitting a join of dot-free parts gives back the parts |
| Release.SplitNoDot | scripts/release.ts:28 | a text without dots splits into itself |
| Release.SplitPrefix | scripts/release.ts:28 | a dot-free piece before a dot becomes the first part |
| Release.Component | scripts/release.ts:28 | a component is read exactly when it is a digit string |
| Release.Components | scripts/release.ts:28 | every piece is read, and one number per piece, exactly when all are digit strings |
| Release.Numerals | scripts/release.ts:42 | one numeral per component, in order |
| Release.ComponentsOfNumerals | scripts/release.ts:28-42 | reading the numerals gives back the numbers |
| Release.ParseRender | scripts/release.ts:28-42 | parsing a rendered version gives back its components |
| Release.Bumped | scripts/release.ts:31-40 | the bump keeps the length and every component after the third |
| Release.BumpIncreases | scripts/release.ts:31-40 | every bump gives a strictly greater version, in lexicographic order |
| Release.BumpInPlace | scripts/release.ts:31-40 | the in-place updates of the array give the bumped components |
| Release.NextVersion | scripts/release.ts:28-42 | the new version is the bump of the current one; it parses back, with as many components, and is greater |

## Left out

- Headers and request bodies: a request is its verb and URL path. The `Content-Type` header and
  the JSON bodies of the create calls are not modelled. No update call sends a body. The `Authorization` value is
  modelled once, by `Api.AuthHeaders`.
- The API base URL (`import.meta.env.VITE_API_BASE_URL`) is a build-time constant. Every path is
  given without it.
- Concurrency: `Promise.all` in the goals and settings stores runs its fetches together, and
  rejects with whichever rejection comes first in time. The model issues them in argument order
  and settles with the first failure in that order. Interleavings with other actions are not
  modelled.
- Settings.LoadError: when both requests of `fetchAllSettings` throw, the model reports the
  profile's message. The source reports whichever rejection arrives first, which the model cannot
  see.
- The percent-encoding of `URLSearchParams` is not modelled. Queries are kept as (key, value)
  pairs and rendered without encoding. Most values are numerals, ids and coordinates, where the
  encoding changes nothing. The new name or description that `updateGoal` sends is free text, and
  there the real URL differs: a space becomes `+`, and `&` becomes `%26`.
- Floating point: fractional seconds of a duration are dropped (`parseFloat` of `8.5S` counts as
  8). A coordinate is rendered by an unspecified function, passed as a parameter. A `Number`
  larger than 2^53, and the exponent form of its text, are not modelled.
- Datetime.FormatDuration: takes a non-negative whole number of seconds. Negative and
  fractional inputs are not modelled.
- JSON parse failures and a missing `data` property in a response are folded into the outcome.
  The catalogue bodies of the types and equipment stores always carry `data`.
- Settings.SettingsStore.FetchAllSettings: a parse failure of the settings body counts as a
  throw of that request, so the model then assigns neither profile nor settings. In the source
  (`src/stores/settings.ts:58-60`) the profile is assigned before the settings body is parsed,
  so such a failure leaves the new profile in place.
- Local storage is the `storage` map field of the auth store. Browser persistence is not modelled.
- Vue reactivity, component code and `console` logging are not part of this model.
- The credential is given to each action as an argument, rather than read from the auth store.
  The stores import `useUserStore` from `src/stores/auth.ts`, which exports `useAuthStore` under
  another name.
- Goals.GoalStore.UpdateGoal: the new value is the text of `value.toString()`. It is placed in
  the modelled query without encoding.
- Release.NextVersion: a version with fewer than three components, or with a component other
  than a decimal digit string, is outside the model, which gives `None`. Depending on the bump,
  the script writes either a version or one containing `NaN`. The script overwrites components
  it resets, so a major bump of `1` gives `2.0.0`. It writes `NaN` where a missing or non-numeric
  component is incremented, and keeps a non-numeric component as `NaN`. It writes a missing
  component that it keeps as an empty string, so a patch bump of `1` gives `1..NaN`. JavaScript's `Number` also reads texts such as ` 1`, `0x1`
  and `1e1`, which the model refuses.
- The release script's file I/O (reading `package.json`, writing it and `VERSION`) and its
  argument parsing are not modelled. The `--type` value is the `option` argument.
