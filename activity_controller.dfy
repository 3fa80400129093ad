/**
 * The activity handlers of the backend
 * (backend/src/controllers/activity.controller.ts): validation of a posted
 * activity, its estimation and persistence, the `limit` of the history query,
 * and the lookup of one activity. The document database and the estimation
 * API are oracles; the authenticated user id is given.
 */
module ActivityController {
  import opened Wrappers
  import opened Activities
  import opened JsonValues
  import Climatiq

  datatype ResponseBody =
    | ErrorBody(error: string, message: string)
    | Logged(message: string, activityId: string, calculatedCo2e: real)
    | ActivityList(activities: seq<ActivityRecord>)
    | ActivityFound(activity: ActivityRecord)

  /** An HTTP response: a status code and a JSON body. */
  datatype Response = Response(status: nat, body: ResponseBody)

  const MissingBody := Response(400, ErrorBody("Bad request", "Missing request body"))
  const InvalidData := Response(400, ErrorBody("Bad request", "Invalid activity data"))
  const CalculationFailed := Response(500, ErrorBody("Calculation failed", "Failed to calculate CO2e"))
  const LogFailed := Response(500, ErrorBody("Internal server error", "Failed to log activity"))
  const IdMissing := Response(400, ErrorBody("Bad request", "Acitvity ID missing in URl"))
  const NotFound := Response(404, ErrorBody("Not found", "Activity not found."))
  const ListFailed := Response(500, ErrorBody("Internal Server Error", "Failed to get activities."))
  const GetFailed := Response(500, ErrorBody("Internal Server Error", "Failed to get activity."))

  const LoggedMessage := "Logged activity"
  const DefaultLimit := 50

  // ---------------------------------------------------------------------------
  // logActivity
  // ---------------------------------------------------------------------------

  /** A property read as a string; absent or non-string values read as absent. */
  function OptionalString(j: Json, name: string): Option<string> {
    match Property(j, name)
    case Some(JStr(s)) => Some(s)
    case _ => None
  }

  /** A body the handler accepts: an object whose type and unit are strings and whose value is a number. */
  predicate WellFormedBody(body: Option<Json>) {
    && body.Some? && body.value.JObject?
    && "type" in body.value.fields && body.value.fields["type"].JStr?
    && "value" in body.value.fields && body.value.fields["value"].JNum?
    && "unit" in body.value.fields && body.value.fields["unit"].JStr?
  }

  /**
   * The two shape checks of logActivity, in order: a missing, falsy or
   * non-object body is "Missing request body"; then a non-string type or
   * unit or a non-number value is "Invalid activity data". Both are 400. An
   * accepted body is read as the activity input it carries.
   */
  function ValidateBody(body: Option<Json>): (r: Result<ActivityInput, Response>)
    ensures r.Success? <==> WellFormedBody(body)
    ensures r.Failure? ==> r.error.status == 400
    ensures (body.None? || !Truthy(body.value) || !IsObjectType(body.value)) ==> r == Failure(MissingBody)
    ensures body.Some? && Truthy(body.value) && IsObjectType(body.value) && !WellFormedBody(body) ==>
      r == Failure(InvalidData)
    ensures r.Success? ==>
      && r.value.activityType == body.value.fields["type"].s
      && r.value.value == body.value.fields["value"].n
      && r.value.unit == body.value.fields["unit"].s
      && r.value.region == OptionalString(body.value, "region")
      && r.value.notes == OptionalString(body.value, "notes")
  {
    if body.None? || !Truthy(body.value) || !IsObjectType(body.value) then Failure(MissingBody)
    else
      var t := Property(body.value, "type");
      var v := Property(body.value, "value");
      var u := Property(body.value, "unit");
      if !(t.Some? && t.value.JStr?) || !(v.Some? && v.value.JNum?) || !(u.Some? && u.value.JStr?)
      then Failure(InvalidData)
      else Success(ActivityInput(t.value.s, v.value.n, u.value.s,
                                 OptionalString(body.value, "region"), OptionalString(body.value, "notes")))
  }

  /** What one logActivity call produces: the response, the estimation requests sent and the records written. */
  datatype LogOutcome = LogOutcome(
    response: Response,
    requests: seq<Climatiq.Payload>,
    persisted: seq<ActivityRecord>)

  /**
   * logActivity as a decision. `reply` is the estimation API, `assignedId` the
   * document id the database gives a new record (None when the write fails).
   * A malformed body is 400 with no estimation; a failed estimation is 500 and
   * nothing is written; a failed write is 500 and nothing is written;
   * otherwise exactly one record, with the assigned id, is written, and the
   * 201 answer reports the same id and CO2e as the record holds.
   */
  function LogActivityOutcome(userId: string, body: Option<Json>, reply: Climatiq.Payload -> Option<real>,
                              assignedId: Option<string>): (o: LogOutcome)
    ensures ValidateBody(body).Failure? ==>
      o.response.status == 400 && o.response == ValidateBody(body).error && o.requests == [] && o.persisted == []
    ensures ValidateBody(body).Success? ==>
      o.response.status != 400 && o.requests == Climatiq.RemoteRequests(ValidateBody(body).value)
    ensures ValidateBody(body).Success? && Climatiq.Co2eOf(ValidateBody(body).value, reply).None? ==>
      o.response == CalculationFailed && o.persisted == []
    ensures ValidateBody(body).Success? && Climatiq.Co2eOf(ValidateBody(body).value, reply).Some? ==>
      && (|o.persisted| == 1 <==> assignedId.Some?)
      && (assignedId.None? ==> o.response == LogFailed)
    ensures |o.persisted| <= 1
    ensures o.response.status == 201 <==> |o.persisted| == 1
    ensures |o.persisted| == 1 ==>
      && ValidateBody(body).Success?
      && Some(o.persisted[0].id) == assignedId
      && o.persisted[0].userId == userId
      && o.persisted[0].input == ValidateBody(body).value
      && Climatiq.Co2eOf(o.persisted[0].input, reply) == Some(o.persisted[0].co2e)
      && o.response.body == Logged(LoggedMessage, o.persisted[0].id, o.persisted[0].co2e)
  {
    match ValidateBody(body)
    case Failure(bad) => LogOutcome(bad, [], [])
    case Success(input) =>
      var requests := Climatiq.RemoteRequests(input);
      match Climatiq.Co2eOf(input, reply)
      case None => LogOutcome(CalculationFailed, requests, [])
      case Some(co2e) =>
        match assignedId
        case None => LogOutcome(LogFailed, requests, [])
        case Some(id) =>
          LogOutcome(Response(201, Logged(LoggedMessage, id, co2e)), requests, [ActivityRecord(id, userId, input, co2e)])
  }

  /** The activity documents of all users (Firestore, seen as a list of written records). */
  class ActivityStore {
    var records: seq<ActivityRecord>

    constructor ()
      ensures records == []
    {
      records := [];
    }

    /**
     * addActivitytoDB: `assignedId` is the id the database gives the new
     * document, or None when the write fails (the source then throws).
     */
    method AddActivity(userId: string, input: ActivityInput, co2e: real, assignedId: Option<string>)
      returns (id: Option<string>)
      modifies this
      ensures id == assignedId
      ensures records == old(records) +
        (if assignedId.Some? then [ActivityRecord(assignedId.value, userId, input, co2e)] else [])
    {
      id := assignedId;
      if assignedId.Some? {
        records := records + [ActivityRecord(assignedId.value, userId, input, co2e)];
      }
    }
  }

  /** logActivity: validate, estimate, then write and answer, stopping at the first failure. */
  method LogActivity(userId: string, body: Option<Json>, api: Climatiq.ClimatiqApi, store: ActivityStore,
                     assignedId: Option<string>) returns (res: Response)
    modifies api`sent, store
    ensures var o := LogActivityOutcome(userId, body, api.reply, assignedId);
      && res == o.response
      && store.records == old(store.records) + o.persisted
      && api.sent == old(api.sent) + o.requests
  {
    var validated := ValidateBody(body);
    if validated.Failure? {
      return validated.error;
    }
    var activityInput := validated.value;
    var co2e := Climatiq.GetCo2eForActivity(activityInput, api);
    if co2e.None? {
      return CalculationFailed;
    }
    var newActivityId := store.AddActivity(userId, activityInput, co2e.value, assignedId);
    if newActivityId.None? {
      return LogFailed;
    }
    res := Response(201, Logged(LoggedMessage, newActivityId.value, co2e.value));
  }

  // ---------------------------------------------------------------------------
  // getAllActivities
  // ---------------------------------------------------------------------------

  /**
   * The history size: the query parsed as a base-10 integer (`parseInt`, None
   * for NaN) when it is present, non-empty and strictly positive; 50 otherwise.
   */
  function Limit(limitQuery: Option<string>, parseInt: string -> Option<int>): (limit: int)
    ensures limit >= 1
    ensures (&& limitQuery.Some? && limitQuery.value != ""
             && parseInt(limitQuery.value).Some? && parseInt(limitQuery.value).value > 0)
      ==> limit == parseInt(limitQuery.value).value
    ensures !(&& limitQuery.Some? && limitQuery.value != ""
              && parseInt(limitQuery.value).Some? && parseInt(limitQuery.value).value > 0)
      ==> limit == DefaultLimit
  {
    var limit := DefaultLimit;
    if limitQuery.Some? && limitQuery.value != "" then
      var parsedLimit := parseInt(limitQuery.value);
      if parsedLimit.Some? && parsedLimit.value > 0 then parsedLimit.value else limit
    else limit
  }

  /**
   * getAllActivities: the user's activities fetched with the computed limit
   * (`fetch` is the database query, None when it fails): 200 with them, or 500.
   */
  function GetAllActivities(userId: string, limitQuery: Option<string>, parseInt: string -> Option<int>,
                            fetch: (string, int) -> Option<seq<ActivityRecord>>): (r: Response)
    ensures r.status == 200 || r == ListFailed
    ensures r.status == 200 <==> fetch(userId, Limit(limitQuery, parseInt)).Some?
    ensures r.status == 200 ==> r.body == ActivityList(fetch(userId, Limit(limitQuery, parseInt)).value)
  {
    match fetch(userId, Limit(limitQuery, parseInt))
    case Some(activities) => Response(200, ActivityList(activities))
    case None => ListFailed
  }

  // ---------------------------------------------------------------------------
  // getActivityById
  // ---------------------------------------------------------------------------

  /** The database's answer to a lookup by id. */
  datatype Lookup = Found(record: ActivityRecord) | Missing | LookupFailed

  /**
   * getActivityById: a missing or empty id is 400 and the database is not
   * asked; otherwise 200 with the record found, 404 when there is none, and
   * 500 when the lookup fails.
   */
  function GetActivityById(userId: string, activityId: Option<string>, lookup: (string, string) -> Lookup): (r: Response)
    ensures r.status == 400 <==> activityId.None? || activityId.value == ""
    ensures r.status == 400 ==> r == IdMissing
    ensures r.status == 200 <==> activityId.Some? && activityId.value != "" && lookup(userId, activityId.value).Found?
    ensures r.status == 200 ==> r.body == ActivityFound(lookup(userId, activityId.value).record)
    ensures r.status == 404 <==> activityId.Some? && activityId.value != "" && lookup(userId, activityId.value).Missing?
    ensures r.status == 404 ==> r == NotFound
    ensures r.status == 500 ==> r == GetFailed
    ensures r.status in {200, 400, 404, 500}
  {
    if activityId.None? || activityId.value == "" then IdMissing
    else match lookup(userId, activityId.value)
      case Found(record) => Response(200, ActivityFound(record))
      case Missing => NotFound
      case LookupFailed => GetFailed
  }
}
