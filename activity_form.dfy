/**
 * The activity form of the web client (web/src/components/ActivityForm.tsx):
 * the list of offered activity types, the unit derived from a type name's
 * suffix, the validation of the typed value, and what a submission does to
 * the form's state.
 */
module ActivityForm {
  import opened Wrappers
  import opened Activities
  import opened JsonValues
  import Climatiq

  /** One entry of the activity-type drop-down. */
  datatype ActivityOption = ActivityOption(value: string, caption: string)

  const ActivityTypes: seq<ActivityOption> := [
    ActivityOption("car_petrol_km", "Bensinbil (km)"),
    ActivityOption("car_diesel_km", "Dieselbil (km)"),
    ActivityOption("car_electric_km", "Elbil (km)"),
    ActivityOption("bus_local_km", "Lokal Buss (km)"),
    ActivityOption("train_national_km", "Nasjonalt Tog (km)"),
    ActivityOption("flight_domestic_km", "Innenlandsfly (km)"),
    ActivityOption("electricity_kwh", "Strømforbruk (kWh)"),
    ActivityOption("district_heating_kwh", "Fjernvarme (kWh)"),
    ActivityOption("food_beef_kg", "Storfekjøtt (kg)"),
    ActivityOption("food_pork_kg", "Svinekjøtt (kg)"),
    ActivityOption("food_poultry_kg", "Kylling/Fjærkre (kg)"),
    ActivityOption("food_fish_kg", "Fisk (kg)"),
    ActivityOption("food_dairy_kg", "Meieriprodukter (kg)")
  ]

  const NotSignedInMessage := "Feil: Du må være logget inn."
  const TokenMessage := "Kunne ikke hente autentiseringstoken. Prøv å logge ut og inn igjen."
  const ValueMessage := "Verdi må være et positivt tall."
  const NetworkMessage := "Nettverksfeil eller feil ved kommunikasjon med server."

  function UnknownUnitMessage(t: string): string {
    "Ukjent enhet for aktivitetstypen " + t + "."
  }

  // ---------------------------------------------------------------------------
  // Unit derivation
  // ---------------------------------------------------------------------------

  /** `s.endsWith(suffix)`. */
  predicate EndsWith(s: string, suffix: string) {
    |suffix| <= |s| && s[|s| - |suffix|..] == suffix
  }

  /** A string ending with a suffix ends with that suffix's last character. */
  lemma EndsWithLast(s: string, suffix: string)
    requires EndsWith(s, suffix) && |suffix| > 0
    ensures s[|s| - 1] == suffix[|suffix| - 1]
  {
  }

  /** The three unit suffixes end in different letters, so at most one applies. */
  lemma SuffixesExclusive(t: string)
    ensures !(EndsWith(t, "_km") && EndsWith(t, "_kwh"))
    ensures !(EndsWith(t, "_km") && EndsWith(t, "_kg"))
    ensures !(EndsWith(t, "_kwh") && EndsWith(t, "_kg"))
  {
    if EndsWith(t, "_km") { EndsWithLast(t, "_km"); }
    if EndsWith(t, "_kwh") { EndsWithLast(t, "_kwh"); }
    if EndsWith(t, "_kg") { EndsWithLast(t, "_kg"); }
  }

  /**
   * The unit sent for a type, from its suffix, tested in the order _km, _kwh,
   * _kg. Since the suffixes exclude each other, each unit is chosen exactly
   * when its suffix is present.
   */
  function UnitForType(t: string): (unit: Option<string>)
    ensures unit == Some("km") <==> EndsWith(t, "_km")
    ensures unit == Some("kWh") <==> EndsWith(t, "_kwh")
    ensures unit == Some("kg") <==> EndsWith(t, "_kg")
    ensures unit.None? <==> !EndsWith(t, "_km") && !EndsWith(t, "_kwh") && !EndsWith(t, "_kg")
  {
    SuffixesExclusive(t);
    if EndsWith(t, "_km") then Some("km")
    else if EndsWith(t, "_kwh") then Some("kWh")
    else if EndsWith(t, "_kg") then Some("kg")
    else None
  }

  /** The unit hint shown in the value label: the unit that would be sent, or nothing. */
  function UnitHint(t: string): (hint: string)
    ensures hint == UnitForType(t).GetOr("")
  {
    if EndsWith(t, "_km") then "km"
    else if EndsWith(t, "_kwh") then "kWh"
    else if EndsWith(t, "_kg") then "kg"
    else ""
  }

  // ---------------------------------------------------------------------------
  // Building the request
  // ---------------------------------------------------------------------------

  /**
   * The checks of handleSubmit after sign-in and the record they build: the
   * value (None stands for NaN) must be positive, checked first, then the type
   * must have a unit; empty notes are left out.
   */
  function BuildActivityInput(t: string, numericValue: Option<real>, notes: string): (r: Result<ActivityInput, string>)
    ensures r.Success? <==> numericValue.Some? && numericValue.value > 0.0 && UnitForType(t).Some?
    ensures (numericValue.None? || numericValue.value <= 0.0) ==> r == Failure(ValueMessage)
    ensures numericValue.Some? && numericValue.value > 0.0 && UnitForType(t).None? ==> r == Failure(UnknownUnitMessage(t))
    ensures r.Success? ==>
      && r.value.activityType == t
      && r.value.value == numericValue.value
      && r.value.unit == UnitForType(t).value
      && r.value.region == None
      && (r.value.notes.Some? <==> notes != "")
      && (r.value.notes.Some? ==> r.value.notes.value == notes)
  {
    if numericValue.None? || numericValue.value <= 0.0 then Failure(ValueMessage)
    else if EndsWith(t, "_km") || EndsWith(t, "_kwh") || EndsWith(t, "_kg") then
      var unitToSend := if EndsWith(t, "_km") then "km" else if EndsWith(t, "_kwh") then "kWh" else "kg";
      Success(ActivityInput(t, numericValue.value, unitToSend, None, if notes == "" then None else Some(notes)))
    else Failure(UnknownUnitMessage(t))
  }

  /**
   * `JSON.stringify` of an activity input: an object with the type, the value
   * and the unit, and with region and notes only when present.
   */
  function EncodeInput(a: ActivityInput): (j: Json)
    ensures j.JObject?
    ensures "type" in j.fields && j.fields["type"] == JStr(a.activityType)
    ensures "value" in j.fields && j.fields["value"] == JNum(a.value)
    ensures "unit" in j.fields && j.fields["unit"] == JStr(a.unit)
    ensures ("region" in j.fields <==> a.region.Some?) && ("notes" in j.fields <==> a.notes.Some?)
    ensures a.region.Some? ==> j.fields["region"] == JStr(a.region.value)
    ensures a.notes.Some? ==> j.fields["notes"] == JStr(a.notes.value)
    ensures forall k | k in j.fields :: k in {"type", "value", "unit", "region", "notes"}
  {
    var base := map["type" := JStr(a.activityType), "value" := JNum(a.value), "unit" := JStr(a.unit)];
    var withRegion := if a.region.Some? then base["region" := JStr(a.region.value)] else base;
    JObject(if a.notes.Some? then withRegion["notes" := JStr(a.notes.value)] else withRegion)
  }

  // ---------------------------------------------------------------------------
  // Submitting
  // ---------------------------------------------------------------------------

  /**
   * The server's answer as the form reads it: the status, its text and the two
   * body fields it looks at (`message` is "" when absent), or a failed fetch
   * (network error, unreadable body, or no API address configured).
   */
  datatype ServerReply =
    | Reply(status: nat, statusText: string, calculatedCo2e: Option<real>, message: string)
    | FetchFailed

  /** `response.ok`: a status in the 2xx class. */
  predicate IsOk(reply: ServerReply)
    ensures IsOk(reply) <==> reply.Reply? && reply.status / 100 == 2
  {
    reply.Reply? && 200 <= reply.status < 300
  }

  function DigitChar(d: nat): (c: char)
    requires d < 10
    ensures '0' <= c <= '9' && c as int - '0' as int == d
  {
    "0123456789"[d]
  }

  /** The number a string of decimal digits denotes. */
  function DigitsValue(s: string): nat
    requires forall i | 0 <= i < |s| :: '0' <= s[i] <= '9'
  {
    if s == [] then 0 else 10 * DigitsValue(s[..|s| - 1]) + (s[|s| - 1] as int - '0' as int)
  }

  /**
   * The decimal digits of a status code, as a template string renders it:
   * at least one digit, no leading zero, and reading them back gives `n`.
   */
  function Decimal(n: nat): (s: string)
    ensures |s| >= 1 && forall i | 0 <= i < |s| :: '0' <= s[i] <= '9'
    ensures s[0] == '0' ==> n == 0
  {
    if n < 10 then [DigitChar(n)] else Decimal(n / 10) + [DigitChar(n % 10)]
  }

  /** Reading the rendered digits of a status code gives the code back. */
  lemma {:induction false} DecimalRoundTrip(n: nat)
    ensures DigitsValue(Decimal(n)) == n
  {
    if n >= 10 {
      DecimalRoundTrip(n / 10);
      var s := Decimal(n);
      assert s[..|s| - 1] == Decimal(n / 10);
    }
  }

  const ServerErrorPrefix := "Feil fra server: "

  /**
   * The error shown for a reply that is not ok: the body's `message` when it
   * is non-empty, otherwise the status code and status text. It is never empty.
   */
  function ServerErrorMessage(reply: ServerReply): (msg: string)
    requires reply.Reply?
    ensures msg != ""
    ensures reply.message != "" ==> msg == reply.message
    ensures reply.message == "" ==> msg == ServerErrorPrefix + Decimal(reply.status) + " " + reply.statusText
  {
    if reply.message != "" then reply.message
    else ServerErrorPrefix + Decimal(reply.status) + " " + reply.statusText
  }

  /** What a submission leaves behind. */
  datatype SubmitOutcome = SubmitOutcome(
    request: Option<ActivityInput>,
    resultCo2e: Option<real>,
    errorMsg: Option<string>,
    cleared: bool)

  /**
   * The decisions of handleSubmit: a request is sent only for a signed-in user
   * with a token and a valid record; the shown result is the server's
   * `calculatedCo2e` and comes only with an ok reply, which also clears the
   * inputs; an error and a result are never shown together.
   */
  function Submit(signedIn: bool, token: Option<string>, numericValue: Option<real>,
                  t: string, notes: string, server: ActivityInput -> ServerReply): (o: SubmitOutcome)
    ensures o.request.Some? <==>
      signedIn && token.Some? && token.value != "" && BuildActivityInput(t, numericValue, notes).Success?
    ensures o.request.Some? ==> o.request == Some(BuildActivityInput(t, numericValue, notes).value)
    ensures o.cleared <==> o.request.Some? && IsOk(server(o.request.value))
    ensures o.cleared ==> o.resultCo2e == server(o.request.value).calculatedCo2e && o.errorMsg.None?
    ensures !o.cleared ==> o.resultCo2e.None? && o.errorMsg.Some?
    ensures !signedIn ==> o.errorMsg == Some(NotSignedInMessage)
    ensures signedIn && (token.None? || token.value == "") ==> o.errorMsg == Some(TokenMessage)
    ensures signedIn && token.Some? && token.value != "" && BuildActivityInput(t, numericValue, notes).Failure? ==>
      o.errorMsg == Some(BuildActivityInput(t, numericValue, notes).error)
    ensures o.request.Some? && !IsOk(server(o.request.value)) ==>
      o.errorMsg == Some(if server(o.request.value).FetchFailed? then NetworkMessage
                         else ServerErrorMessage(server(o.request.value)))
  {
    if !signedIn then SubmitOutcome(None, None, Some(NotSignedInMessage), false)
    else if token.None? || token.value == "" then SubmitOutcome(None, None, Some(TokenMessage), false)
    else match BuildActivityInput(t, numericValue, notes)
      case Failure(msg) => SubmitOutcome(None, None, Some(msg), false)
      case Success(input) =>
        var reply := server(input);
        if IsOk(reply) then SubmitOutcome(Some(input), reply.calculatedCo2e, None, true)
        else if reply.FetchFailed? then SubmitOutcome(Some(input), None, Some(NetworkMessage), false)
        else SubmitOutcome(Some(input), None, Some(ServerErrorMessage(reply)), false)
  }

  /** The form's React state. */
  class FormState {
    var activityType: string
    var value: string
    var notes: string
    var isLoading: bool
    var resultCo2e: Option<real>
    var errorMsg: Option<string>

    /** A fresh form: the first offered type, empty inputs, nothing shown. */
    constructor ()
      ensures activityType == ActivityTypes[0].value && value == "" && notes == ""
      ensures !isLoading && resultCo2e.None? && errorMsg.None?
    {
      activityType := ActivityTypes[0].value;
      value := "";
      notes := "";
      isLoading := false;
      resultCo2e := None;
      errorMsg := None;
    }

    /** Choosing a type in the drop-down clears the shown result and error. */
    method SelectType(t: string)
      modifies this
      ensures activityType == t && resultCo2e.None? && errorMsg.None?
      ensures value == old(value) && notes == old(notes) && isLoading == old(isLoading)
    {
      activityType := t;
      resultCo2e := None;
      errorMsg := None;
    }

    /**
     * handleSubmit. `signedIn` and `token` stand for the identity provider,
     * `parseFloat` for the number parser (None is NaN), and `server` for the
     * backend's reply to the request sent. Returns the request sent, if any.
     */
    method HandleSubmit(signedIn: bool, token: Option<string>, parseFloat: string -> Option<real>,
                        server: ActivityInput -> ServerReply) returns (request: Option<ActivityInput>)
      modifies this
      ensures var o := Submit(signedIn, token, parseFloat(old(value)), old(activityType), old(notes), server);
        && request == o.request
        && resultCo2e == o.resultCo2e
        && errorMsg == o.errorMsg
        && (if o.cleared then value == "" && notes == "" else value == old(value) && notes == old(notes))
      ensures activityType == old(activityType) && !isLoading
    {
      isLoading := true;
      resultCo2e := None;
      errorMsg := None;
      request := None;

      if !signedIn {
        errorMsg := Some(NotSignedInMessage);
        isLoading := false;
        return;
      }
      if token.None? || token.value == "" {
        errorMsg := Some(TokenMessage);
        isLoading := false;
        return;
      }

      var unitToSend := "";
      var numericValue := parseFloat(value);
      if numericValue.None? || numericValue.value <= 0.0 {
        errorMsg := Some(ValueMessage);
        isLoading := false;
        return;
      }

      if EndsWith(activityType, "_km") {
        unitToSend := "km";
      } else if EndsWith(activityType, "_kwh") {
        unitToSend := "kWh";
      } else if EndsWith(activityType, "_kg") {
        unitToSend := "kg";
      } else {
        errorMsg := Some(UnknownUnitMessage(activityType));
        isLoading := false;
        return;
      }

      var activityInput := ActivityInput(activityType, numericValue.value, unitToSend, None,
                                         if notes == "" then None else Some(notes));
      request := Some(activityInput);
      var reply := server(activityInput);
      if IsOk(reply) {
        resultCo2e := reply.calculatedCo2e;
        value := "";
        notes := "";
      } else if reply.FetchFailed? {
        errorMsg := Some(NetworkMessage);
      } else {
        errorMsg := Some(ServerErrorMessage(reply));
      }
      isLoading := false;
    }
  }

  // ---------------------------------------------------------------------------
  // The offered list against the backend's dispatch tables
  // ---------------------------------------------------------------------------

  /** The offered type names ending in "_km" all send "km". */
  lemma KmTypesSendKm()
    ensures forall t | t in ["car_petrol_km", "car_diesel_km", "car_electric_km", "bus_local_km", "train_national_km", "flight_domestic_km"] ::
      UnitForType(t) == Some("km")
  {
  }

  /** The offered type names ending in "_kwh" all send "kWh". */
  lemma KwhTypesSendKwh()
    ensures forall t | t in ["electricity_kwh", "district_heating_kwh"] :: UnitForType(t) == Some("kWh")
  {
  }

  /** The offered type names ending in "_kg" all send "kg". */
  lemma KgTypesSendKg()
    ensures forall t | t in ["food_beef_kg", "food_pork_kg", "food_poultry_kg", "food_fish_kg", "food_dairy_kg"] ::
      UnitForType(t) == Some("kg")
  {
  }

  /** The unit the backend's guard accepts for each offered type. */
  lemma BackendUnitsOfOfferedTypes()
    ensures forall t | t in ["car_petrol_km", "car_diesel_km", "car_electric_km", "bus_local_km", "train_national_km", "flight_domestic_km"] ::
      Climatiq.AcceptedUnit(t) == Some("km")
    ensures forall t | t in ["electricity_kwh", "district_heating_kwh"] :: Climatiq.AcceptedUnit(t) == Some("kWh")
    ensures forall t | t in ["food_beef_kg", "food_pork_kg", "food_poultry_kg", "food_fish_kg", "food_dairy_kg"] ::
      Climatiq.AcceptedUnit(t) == Some("kg")
  {
  }

  /**
   * Every offered type has a unit suffix, and the unit the form derives from it
   * is the one the backend's guard for that type accepts: no offered type is
   * ever rejected for its unit.
   */
  lemma OfferedUnitIsAccepted()
    ensures forall o | o in ActivityTypes ::
      UnitForType(o.value).Some? && UnitForType(o.value) == Climatiq.AcceptedUnit(o.value)
  {
    KmTypesSendKm();
    KwhTypesSendKwh();
    KgTypesSendKg();
    BackendUnitsOfOfferedTypes();
  }

  /** The position of a backend activity type in the offered list. */
  function OfferedIndex(t: string): nat {
    if t == "car_petrol_km" then 0 else if t == "car_diesel_km" then 1
    else if t == "car_electric_km" then 2 else if t == "bus_local_km" then 3
    else if t == "train_national_km" then 4 else if t == "flight_domestic_km" then 5
    else if t == "electricity_kwh" then 6 else if t == "district_heating_kwh" then 7
    else if t == "food_beef_kg" then 8 else if t == "food_pork_kg" then 9
    else if t == "food_poultry_kg" then 10 else if t == "food_fish_kg" then 11
    else 12
  }

  /** Every type of either backend table is offered by the form. */
  lemma EveryBackendTypeOffered()
    ensures forall t | t in Climatiq.DirectTable.Keys + Climatiq.MappingTable.Keys ::
      exists i :: 0 <= i < |ActivityTypes| && ActivityTypes[i].value == t
  {
    forall t | t in Climatiq.DirectTable.Keys + Climatiq.MappingTable.Keys
      ensures exists i :: 0 <= i < |ActivityTypes| && ActivityTypes[i].value == t
    {
      var i := OfferedIndex(t);
      assert ActivityTypes[i].value == t;
    }
  }
}
