/**
 * The activity records shared by the web client and the backend
 * (backend/src/types/activity.types.ts and web/src/types/activity.types.ts).
 */
module Activities {
  import opened Wrappers

  /** What a user logs: an activity type such as "car_petrol_km", a quantity and its unit. */
  datatype ActivityInput = ActivityInput(
    activityType: string,
    value: real,
    unit: string,
    region: Option<string>,
    notes: Option<string>)

  /** A persisted activity: the input, its owner, the store-assigned id and the CO2e (kg). */
  datatype ActivityRecord = ActivityRecord(
    id: string,
    userId: string,
    input: ActivityInput,
    co2e: real)
}
