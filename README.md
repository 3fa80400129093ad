# karbonkalkulator — a Dafny model of the CO2e estimation path

karbonkalkulator lets a signed-in user log everyday activities: driving, public
transport, flights, electricity, district heating and food. It shows the
CO2e (kg) of each one. The web form derives a unit from the activity type's
suffix and checks the value. It then posts the activity to the backend. The
backend checks the body's shape and estimates the CO2e. It stores the record
and answers with the estimate.

Estimation has two stages:

- Four types (district heating, local bus, national train, domestic flight)
  have a fixed Norwegian coefficient. They are computed as `value * coefficient`.
- Nine types (petrol, diesel and electric car, electricity, and five foods)
  are shaped into a request for the Climatiq estimation API. The request is an
  emission-factor selector plus parameters. It is sent with the data version
  `^21`, and the API's answer is the estimate.

A type in the direct table with the wrong unit fails at once. It never falls
through to the remote stage.

The model has seven modules:

- `Wrappers`: Option and Result.
- `Activities`: the activity input and the stored record.
- `JsonValues`: request bodies, plus JavaScript truthiness and `typeof`.
- `Climatiq`: the estimation service.
- `ActivityForm`: the web form.
- `ActivityController`: the backend handlers.
- `EndToEnd`: the form and the backend together.

Each switch of the source is modelled twice. One copy is the if-chain as
written (`DirectCo2e`, `MappedParts`). The other is a reference table
(`DirectTable`, `MappingTable`). The contracts and lemmas prove the two agree.

State that the source changes in place is modelled with classes:

- `ClimatiqApi` holds the log of requests sent and the service's reply function.
- `ActivityStore` holds the stored records.
- `FormState` holds the React state of the form.

The three handler methods are proved against pure functions:
`GetCo2eForActivity` against `Co2eOf` and `RemoteRequests`, `LogActivity`
against `LogActivityOutcome`, and `FormState.HandleSubmit` against `Submit`.
The properties are proved about those functions. `EstimateRaw`, `AddActivity`
and `SelectType` state their new state directly.

Fossil cars always use region GB and food always uses NO, whatever the caller
sends; only the electric car and electricity use the caller's region.

The outside world enters only as parameters:

- the estimation API's answer to a payload;
- the id the database assigns to a new record, or none when the write fails;
- the database's lookup and list answers;
- the sign-in state and the ID token;
- the authenticated user id the backend handlers work for;
- the backend's reply to the form's request (`server`), which `EndToEnd` instantiates with the backend model;
- `parseFloat` and `parseInt`, where None stands for NaN.

## Model

| member | source | states |
|---|---|---|
| Climatiq.MappedParts | backend/src/services/climatiq.service.ts:16-134 | The switch sets the selector and the parameters together under each case's unit guard: either both are set or neither is. |
| Climatiq.MapActivityToClimatiq | backend/src/services/climatiq.service.ts:137-142 | A request descriptor is produced exactly when the type has a mapping and the unit is that mapping's unit; otherwise null. |
| Climatiq.MappingMatchesTable | backend/src/services/climatiq.service.ts:21-134 | The switch as written agrees on every input with the reference mapping table (activity id, source, region rule, parameter names, conversion factor, unit). |
| Climatiq.BuildPayload | backend/src/services/climatiq.service.ts:151-154 | The payload is the selector with data version `^21` added, and its parameters are unchanged. Dropping the version gives back the selector. |
| Climatiq.ClimatiqApi.constructor | backend/src/services/climatiq.service.ts:146-148 | A fresh client has sent nothing and answers with the given reply function. |
| Climatiq.ClimatiqApi.EstimateRaw | backend/src/services/climatiq.service.ts:150-180 | Exactly one payload, the one BuildPayload makes, is appended to the log. The answer is the service's reply to that payload. |
| Climatiq.DirectCo2e | backend/src/services/climatiq.service.ts:183-224 | A type outside the direct table is not handled here. A direct type with another unit is rejected. A direct type with its unit is `value * coefficient` from the table (0.175 per kWh, 0.059, 0.0058 and 0.181 per km). |
| Climatiq.GetCo2eForActivity | backend/src/services/climatiq.service.ts:188-240 | The result is Co2eOf for the activity and the service's reply. The requests appended to the log are exactly RemoteRequests of the activity. |
| Climatiq.TablesDisjoint | backend/src/services/climatiq.service.ts:192-224 | No type is in both the direct table and the mapping table, so each type has at most one strategy. |
| Climatiq.DirectTypeIsExact | backend/src/services/climatiq.service.ts:227-229 | A direct type with its unit returns `value * coefficient` and sends no request. |
| Climatiq.DirectWrongUnitStops | backend/src/services/climatiq.service.ts:193-197 | A direct type with a wrong unit yields no result and sends no request: there is no fall-through to the remote stage. |
| Climatiq.UnknownTypeUnmapped | backend/src/services/climatiq.service.ts:131-133 | A type in neither table maps to nothing, yields no result and sends no request. |
| Climatiq.MappedTypeUsesService | backend/src/services/climatiq.service.ts:232-239 | A mapped type with the wrong unit sends nothing and yields no result. With its unit, it sends exactly the table's payload, and the result is the service's answer to that payload. |
| Climatiq.ResultHasAnOrigin | backend/src/services/climatiq.service.ts:188-240 | Every estimate is either a direct product or the service's answer to the one request sent; none is made up. |
| Climatiq.FossilCarMapping | backend/src/services/climatiq.service.ts:23-43 | Petrol and diesel cars send the distance in km unchanged, with BEIS factors for region GB. |
| Climatiq.ElectricMapping | backend/src/services/climatiq.service.ts:45-67 | Electric cars send 0.2 kWh per km and electricity sends the kWh given. Both use the grid factor of the caller's region, or NO when none is given, with no source. |
| Climatiq.FoodMapping | backend/src/services/climatiq.service.ts:75-128 | Food sends a NOK spend, mass times 250 (beef), 150 (pork, poultry), 225 (fish) or 50 (dairy), with EXIOBASE factors for region NO. |
| Climatiq.FixedRegionIgnoresCaller | backend/src/services/climatiq.service.ts:23-128 | For types whose region is fixed in the table, the caller's region does not change the request. |
| Climatiq.DistrictHeatingExample | backend/src/services/climatiq.service.ts:193-199 | 200 kWh of district heating is 35 kg CO2e. |
| Climatiq.TrainExample | backend/src/services/climatiq.service.ts:209-215 | 50 km by national train is 0.29 kg CO2e. |
| Climatiq.BeefExample | backend/src/services/climatiq.service.ts:75-84 | 2 kg of beef sends one payload with a 500 NOK spend in region NO, even when the caller says SE. |
| ActivityForm.SuffixesExclusive | web/src/components/ActivityForm.tsx:66-77 | No type name ends with two of `_km`, `_kwh` and `_kg`, so the order of the suffix tests does not matter. |
| ActivityForm.UnitForType | web/src/components/ActivityForm.tsx:66-77 | The unit is km, kWh or kg exactly when the name ends in `_km`, `_kwh` or `_kg`. There is none exactly when no suffix matches. |
| ActivityForm.UnitHint | web/src/components/ActivityForm.tsx:148 | The hint shown next to the value is the unit that would be sent, or empty when there is none. |
| ActivityForm.BuildActivityInput | web/src/components/ActivityForm.tsx:57-84 | A record is built exactly when the value is a positive number and the type has a unit. A NaN or non-positive value gives the value message first; a positive value for a type without a unit suffix gives the unknown-unit message naming the type. The record holds the type, the number and the derived unit, and no region. Its notes are present exactly when non-empty. |
| ActivityForm.EncodeInput | web/src/components/ActivityForm.tsx:79-84 | The body sent is an object with the type, the value and the unit. It carries region and notes exactly when they are present, and no other key. |
| ActivityForm.IsOk | web/src/components/ActivityForm.tsx:103 | A reply is ok exactly when it arrived and its status is in the 2xx class. |
| ActivityForm.Decimal | web/src/components/ActivityForm.tsx:109 | A status code renders as at least one decimal digit with no leading zero. |
| ActivityForm.DecimalRoundTrip | web/src/components/ActivityForm.tsx:109 | Reading the rendered digits back gives the status code. |
| ActivityForm.ServerErrorMessage | web/src/components/ActivityForm.tsx:109 | The error for a non-ok reply is the body's `message` when non-empty, otherwise "Feil fra server: " with the status code and status text. It is never empty. |
| ActivityForm.Submit | web/src/components/ActivityForm.tsx:31-117 | A request is sent exactly when the user is signed in, has a token and a record could be built. The inputs are cleared exactly when the reply is ok, and then the shown result is the reply's calculatedCo2e. Otherwise an error is shown and no result. The error is the sign-in message, the token message, or BuildActivityInput's message (the value message for a NaN or non-positive value). After a request, it is the network message for a failed fetch and ServerErrorMessage for any other non-ok reply. |
| ActivityForm.FormState.constructor | web/src/components/ActivityForm.tsx:24-29 | A fresh form selects the first offered type, has empty inputs, and shows no result or error. |
| ActivityForm.FormState.SelectType | web/src/components/ActivityForm.tsx:128-132 | Choosing a type clears the shown result and error, and changes nothing else. |
| ActivityForm.FormState.HandleSubmit | web/src/components/ActivityForm.tsx:31-117 | The request sent, the shown result, the error and the cleared inputs are those Submit decides from the state before the call. The type is unchanged and loading ends. |
| ActivityForm.KmTypesSendKm | web/src/components/ActivityForm.tsx:8-13 | Every offered `_km` type sends km. |
| ActivityForm.KwhTypesSendKwh | web/src/components/ActivityForm.tsx:14-15 | Every offered `_kwh` type sends kWh. |
| ActivityForm.KgTypesSendKg | web/src/components/ActivityForm.tsx:16-20 | Every offered `_kg` type sends kg. |
| ActivityForm.BackendUnitsOfOfferedTypes | backend/src/services/climatiq.service.ts:16-224 | For each offered type, the unit the backend's guard accepts: km, kWh or kg. |
| ActivityForm.OfferedUnitIsAccepted | web/src/components/ActivityForm.tsx:7-21 | Every offered type has a unit suffix, and the unit the form derives is the one the backend's guard accepts for that type. |
| ActivityForm.EveryBackendTypeOffered | web/src/components/ActivityForm.tsx:7-21 | Every type in either backend table is offered in the drop-down. |
| ActivityController.ValidateBody | backend/src/controllers/activity.controller.ts:11-21 | A missing, falsy or non-object body is 400 "Missing request body". A body whose type or unit is not a string, or whose value is not a number, is 400 "Invalid activity data". An accepted body is read as its type, value and unit, plus region and notes when they are strings. |
| ActivityController.LogActivityOutcome | backend/src/controllers/activity.controller.ts:6-39 | A malformed body is 400, sends nothing and writes nothing. A well-formed body sends exactly the estimation requests and is never 400. A failed estimate is 500 "Failed to calculate CO2e" and writes nothing. After a successful estimate, a record is written exactly when the database assigns an id; a failed write is 500 "Failed to log activity" with nothing written. The answer is 201 exactly when one record is written. That record has the assigned id, belongs to the user, holds the validated input and the estimate, and is what the 201 body reports. |
| ActivityController.ActivityStore.constructor | backend/src/services/firestore.service.ts:6-26 | A fresh store holds no records. |
| ActivityController.ActivityStore.AddActivity | backend/src/services/firestore.service.ts:6-26 | A successful write appends exactly one record (id, owner, input, CO2e) and returns its id. A failed write appends nothing. |
| ActivityController.LogActivity | backend/src/controllers/activity.controller.ts:6-39 | The response, the records appended and the requests sent are those LogActivityOutcome decides. |
| ActivityController.Limit | backend/src/controllers/activity.controller.ts:45-52 | The limit is the parsed query when the query is present, non-empty and parses to a positive integer. Otherwise it is 50, so it is always at least 1. |
| ActivityController.GetAllActivities | backend/src/controllers/activity.controller.ts:42-61 | 200 with the user's activities, fetched with that limit, exactly when the fetch succeeds. Otherwise 500 "Failed to get activities.". |
| ActivityController.GetActivityById | backend/src/controllers/activity.controller.ts:63-84 | 400 exactly when the id is missing or empty. 200 with the record exactly when it is found. 404 "Activity not found." exactly when there is none. Otherwise 500 "Failed to get activity.". |
| EndToEnd.EncodedInputValidates | web/src/components/ActivityForm.tsx:98 | The JSON body the form sends is read back by the backend's validation as the same activity input. |
| EndToEnd.OfferedSubmissionAccepted | web/src/components/ActivityForm.tsx:57-98 | For every offered type and positive value, the form builds a record and the backend accepts its shape. Its unit passes the backend's guard: it is computed directly or mapped to a request, never rejected. |
| EndToEnd.ShownResultIsStored | web/src/components/ActivityForm.tsx:101-106 | Against the backend, the form clears exactly when one record is stored, and the CO2e it shows is that record's. When the estimate and the write both succeed for an offered type, a result is shown. |

## Left out

- The HTTP transport: the axios call and its headers, the API key, the 10-second timeout, and the fetch URL and headers. The estimation API's answer is the `reply` function of `ClimatiqApi`.
- Logging (`console.log`/`console.error`), which has no effect on results.
- Climatiq.ClimatiqApi.EstimateRaw: a success reply whose body has no numeric `co2e` is not modelled; `reply` gives a number or None. In the code such a body yields `undefined`, which the controller's `=== null` test at backend/src/controllers/activity.controller.ts:26 does not catch.
- IEEE floating point: quantities are exact reals, so rounding, NaN and Infinity are not modelled (for example, 50 * 0.0058 is exactly 0.29 here). A JSON number that is NaN is not representable.
- `parseFloat` and `parseInt` are parameters. Their parsing of strings such as "12abc" is not modelled, only their number-or-NaN outcome.
- ActivityController.ValidateBody: only string `region` and `notes` values are carried. A non-string value is read as absent, though the code would pass it on. Extra body fields are dropped, though the code stores them with the record.
- Firebase authentication, the auth middleware, the routes and the server setup. The signed-in user id, the sign-in state and the ID token are parameters, and the token's refresh failure is an absent token.
- Firestore: the store is a list of written records. The server timestamp and the per-user collection path are not modelled. The list query's ordering and its use of the limit are not part of this model. The fetch and lookup are oracles.
- The tips controller and routes, page.tsx and ActivityList.tsx are not part of this model.
- Rendering: the JSX layout, the `isLoading` button state during the request, and how the result is formatted.
- ActivityForm.Submit: the HTTP status text is a parameter of the reply. A reply whose body cannot be read as JSON, and a missing API address, are both a failed fetch.
- EndToEnd.ShownResultIsStored: the backend is reached directly, not over HTTP. Its reply is read as status, `calculatedCo2e` and `message`, with an empty status text.
- The remote service's `reply` is a fixed function of the payload for the life of a `ClimatiqApi`: the same payload is always answered the same way.
- ActivityForm.FormState.HandleSubmit: the handler is atomic. In the source it awaits the ID token (web/src/components/ActivityForm.tsx:44) and then `fetch` and `response.json()` (:92-101), and only the submit button is disabled meanwhile. A type change through the drop-down (:128-132) during those waits is not interleaved, so the model does not capture a result computed for the old type being shown under a newly selected one.
