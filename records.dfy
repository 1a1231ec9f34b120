/** The activity records the stores pass around: the backend's raw activity (`ApiActivity`) and
    the client's `Activity`. The `Activity` interface of `src/stores/activity.ts` declares only
    id, start, duration, distance and durationSeconds; the mappers of `src/services/api.ts` and
    `src/stores/location.ts` fill further properties, so the record here carries all of them and
    a mapper that does not set one leaves it `Undefined`. */
module Records {
  import opened Remote
  import opened Datetime

  /** An activity as the backend sends it; any property may be missing or null. */
  datatype RawActivity = RawActivity(
    id: Field<string>,
    start: Field<string>,
    duration: Field<string>,
    distance: Field<real>,
    elevationChangeUp: Field<real>,
    elevationChangeDown: Field<real>,
    typeId: Field<int>,
    subTypeId: Field<int>,
    name: Field<string>,
    avgSpeed: Field<real>,
    maxSpeed: Field<real>)

  /** An activity as the client holds it. `durationSeconds` is the parsed duration and
      `duration` its rendering. */
  datatype Activity = Activity(
    id: Field<string>,
    start: Field<string>,
    duration: string,
    durationSeconds: nat,
    distance: Field<real>,
    elevationGain: Field<real>,
    elevationLoss: Field<real>,
    typeId: Field<int>,
    subTypeId: Field<int>,
    name: Field<string>,
    avgSpeed: Field<real>,
    maxSpeed: Field<real>)

  /** The text `parseISODuration` is given. A missing or null duration is falsy like the empty
      string, and all three read as 0 seconds. */
  function DurationInput(raw: Field<string>): (s: string)
    ensures !raw.Value? ==> ParseIsoDuration(s) == 0
  {
    if raw.Value? then raw.value else ""
  }

  /** The display form of an activity's duration is the rendering of its seconds count. */
  predicate DurationsAgree(a: Activity)
  {
    a.duration == FormatDuration(a.durationSeconds)
  }
}
