/**
 * The CO2e estimation dispatcher of the backend
 * (backend/src/services/climatiq.service.ts).
 *
 * An activity is estimated in two stages. Four activity types carry a locally
 * known coefficient and are computed as `value * coefficient` (the direct stage).
 * Nine other types are shaped into a request for the Climatiq estimation API:
 * a selector naming an emission factor and the parameters it is applied to
 * (the mapping stage). The remote service itself is an oracle.
 */
module Climatiq {
  import opened Wrappers
  import opened Activities

  // ---------------------------------------------------------------------------
  // Request vocabulary of the remote API (backend/src/types/climatiq.types.ts)
  // ---------------------------------------------------------------------------

  /** An emission-factor selector without its `data_version`. */
  datatype Selector = Selector(
    activityId: string,
    source: Option<string>,
    region: Option<string>,
    year: Option<int>)

  /** A parameter value: the API accepts numbers and strings. */
  datatype ParamValue = Num(amount: real) | Text(text: string)

  /** Parameters are a dictionary from parameter name to value. */
  type Parameters = map<string, ParamValue>

  /** What the mapping stage hands to the remote stage. */
  datatype EstimateInput = EstimateInput(selector: Selector, parameters: Parameters)

  /** The selector as it is sent, with the data version attached. */
  datatype EmissionFactor = EmissionFactor(
    activityId: string,
    source: Option<string>,
    region: Option<string>,
    year: Option<int>,
    dataVersion: string)

  /** The body of one request to the estimation API. */
  datatype Payload = Payload(emissionFactor: EmissionFactor, parameters: Parameters)

  // ---------------------------------------------------------------------------
  // Constants
  // ---------------------------------------------------------------------------

  const DefaultRegion := "NO"
  const DataVersion := "^21"

  /** Energy use of an electric car, kWh per km. */
  const NorwayEvKwhPerKm: real := 0.2

  /** Retail prices used as a spend proxy for food, NOK per kg. */
  const NokPerKgBeef: real := 250.0
  const NokPerKgPork: real := 150.0
  const NokPerKgPoultry: real := 150.0
  const NokPerKgFish: real := 225.0
  const NokPerKgDairy: real := 50.0

  /** Direct emission coefficients, kg CO2e per unit. */
  const NorwayHeatingCo2ePerKwh: real := 0.175
  const NorwayBusCo2ePerKm: real := 0.059
  const NorwayTrainCo2ePerKm: real := 0.0058
  const NorwayDomesticFlightCo2ePerKm: real := 0.181

  const PetrolCarId := "passenger_vehicle-vehicle_type_car-fuel_source_petrol-engine_size_na-vehicle_age_na-vehicle_weight_na"
  const DieselCarId := "passenger_vehicle-vehicle_type_car-fuel_source_diesel-engine_size_na-vehicle_age_na-vehicle_weight_na"
  const GridElectricityId := "electricity-supply_grid-source_production_mix"
  const BeefId := "consumer_goods-type_meat_products_beef"
  const PorkId := "consumer_goods-type_meat_products_pork"
  const PoultryId := "consumer_goods-type_meat_products_poultry"
  const FishId := "consumer_goods-type_fish_products"
  const DairyId := "consumer_goods-type_dairy_products"

  // ---------------------------------------------------------------------------
  // Reference tables: the two dispatch tables, written as data
  // ---------------------------------------------------------------------------

  /** A direct entry: the coefficient and the one unit it applies to. */
  datatype DirectFactor = DirectFactor(coefficient: real, unit: string)

  const DirectTable: map<string, DirectFactor> := map[
    "district_heating_kwh" := DirectFactor(NorwayHeatingCo2ePerKwh, "kWh"),
    "bus_local_km" := DirectFactor(NorwayBusCo2ePerKm, "km"),
    "train_national_km" := DirectFactor(NorwayTrainCo2ePerKm, "km"),
    "flight_domestic_km" := DirectFactor(NorwayDomesticFlightCo2ePerKm, "km")
  ]

  /** Where a mapped selector's region comes from. */
  datatype RegionRule = FixedRegion(code: string) | CallerRegion

  /**
   * A mapped entry: the unit it accepts, the selector fields, and the one
   * quantity it sends, `amountKey := value * factor` with `unitKey := quantityUnit`.
   */
  datatype MappingRule = MappingRule(
    unit: string,
    activityId: string,
    source: Option<string>,
    region: RegionRule,
    amountKey: string,
    factor: real,
    unitKey: string,
    quantityUnit: string)

  const MappingTable: map<string, MappingRule> := map[
    "car_petrol_km" := MappingRule("km", PetrolCarId, Some("BEIS"), FixedRegion("GB"), "distance", 1.0, "distance_unit", "km"),
    "car_diesel_km" := MappingRule("km", DieselCarId, Some("BEIS"), FixedRegion("GB"), "distance", 1.0, "distance_unit", "km"),
    "car_electric_km" := MappingRule("km", GridElectricityId, None, CallerRegion, "energy", NorwayEvKwhPerKm, "energy_unit", "kWh"),
    "electricity_kwh" := MappingRule("kWh", GridElectricityId, None, CallerRegion, "energy", 1.0, "energy_unit", "kWh"),
    "food_beef_kg" := MappingRule("kg", BeefId, Some("EXIOBASE"), FixedRegion("NO"), "money", NokPerKgBeef, "money_unit", "nok"),
    "food_pork_kg" := MappingRule("kg", PorkId, Some("EXIOBASE"), FixedRegion("NO"), "money", NokPerKgPork, "money_unit", "nok"),
    "food_poultry_kg" := MappingRule("kg", PoultryId, Some("EXIOBASE"), FixedRegion("NO"), "money", NokPerKgPoultry, "money_unit", "nok"),
    "food_fish_kg" := MappingRule("kg", FishId, Some("EXIOBASE"), FixedRegion("NO"), "money", NokPerKgFish, "money_unit", "nok"),
    "food_dairy_kg" := MappingRule("kg", DairyId, Some("EXIOBASE"), FixedRegion("NO"), "money", NokPerKgDairy, "money_unit", "nok")
  ]

  /** The request a mapping rule describes for an activity. */
  function RuleRequest(rule: MappingRule, a: ActivityInput): EstimateInput {
    var region := match rule.region
      case FixedRegion(code) => code
      case CallerRegion => a.region.GetOr(DefaultRegion);
    EstimateInput(
      Selector(rule.activityId, rule.source, Some(region), None),
      map[rule.amountKey := Num(a.value * rule.factor), rule.unitKey := Text(rule.quantityUnit)])
  }

  /** The mapping stage read off the table: unknown type or wrong unit gives nothing. */
  function MapByTable(a: ActivityInput): Option<EstimateInput> {
    if a.activityType in MappingTable && a.unit == MappingTable[a.activityType].unit
    then Some(RuleRequest(MappingTable[a.activityType], a))
    else None
  }

  /** The unit the backend accepts for a type, from whichever table holds it. */
  function AcceptedUnit(t: string): Option<string> {
    if t in DirectTable then Some(DirectTable[t].unit)
    else if t in MappingTable then Some(MappingTable[t].unit)
    else None
  }

  // ---------------------------------------------------------------------------
  // Mapping stage (mapActivityToClimatiq)
  // ---------------------------------------------------------------------------

  /**
   * The locals `selector` and `parameters` as the switch leaves them: each case
   * sets both under its unit guard, so they are either both set or both unset.
   */
  function MappedParts(a: ActivityInput): (parts: (Option<Selector>, Option<Parameters>))
    ensures parts.0.Some? <==> parts.1.Some?
  {
    var region := a.region.GetOr(DefaultRegion);
    var t := a.activityType;
    var u := a.unit;
    var v := a.value;
    if t == "car_petrol_km" then
      if u == "km"
      then (Some(Selector(PetrolCarId, Some("BEIS"), Some("GB"), None)),
            Some(map["distance" := Num(v), "distance_unit" := Text("km")]))
      else (None, None)
    else if t == "car_diesel_km" then
      if u == "km"
      then (Some(Selector(DieselCarId, Some("BEIS"), Some("GB"), None)),
            Some(map["distance" := Num(v), "distance_unit" := Text("km")]))
      else (None, None)
    else if t == "car_electric_km" then
      if u == "km"
      then
        var totalEnergyKwh := v * NorwayEvKwhPerKm;
        (Some(Selector(GridElectricityId, None, Some(region), None)),
         Some(map["energy" := Num(totalEnergyKwh), "energy_unit" := Text("kWh")]))
      else (None, None)
    else if t == "electricity_kwh" then
      if u == "kWh"
      then (Some(Selector(GridElectricityId, None, Some(region), None)),
            Some(map["energy" := Num(v), "energy_unit" := Text("kWh")]))
      else (None, None)
    else if t == "food_beef_kg" then
      if u == "kg"
      then (Some(Selector(BeefId, Some("EXIOBASE"), Some("NO"), None)),
            Some(map["money" := Num(v * NokPerKgBeef), "money_unit" := Text("nok")]))
      else (None, None)
    else if t == "food_pork_kg" then
      if u == "kg"
      then (Some(Selector(PorkId, Some("EXIOBASE"), Some("NO"), None)),
            Some(map["money" := Num(v * NokPerKgPork), "money_unit" := Text("nok")]))
      else (None, None)
    else if t == "food_poultry_kg" then
      if u == "kg"
      then (Some(Selector(PoultryId, Some("EXIOBASE"), Some("NO"), None)),
            Some(map["money" := Num(v * NokPerKgPoultry), "money_unit" := Text("nok")]))
      else (None, None)
    else if t == "food_fish_kg" then
      if u == "kg"
      then (Some(Selector(FishId, Some("EXIOBASE"), Some("NO"), None)),
            Some(map["money" := Num(v * NokPerKgFish), "money_unit" := Text("nok")]))
      else (None, None)
    else if t == "food_dairy_kg" then
      if u == "kg"
      then (Some(Selector(DairyId, Some("EXIOBASE"), Some("NO"), None)),
            Some(map["money" := Num(v * NokPerKgDairy), "money_unit" := Text("nok")]))
      else (None, None)
    else
      // default: the type is not mapped
      (None, None)
  }

  /**
   * mapActivityToClimatiq: a full request descriptor when both locals were set,
   * otherwise nothing. It agrees with the mapping table entry by entry.
   */
  function MapActivityToClimatiq(a: ActivityInput): (r: Option<EstimateInput>)
    ensures r.Some? <==> a.activityType in MappingTable && a.unit == MappingTable[a.activityType].unit
  {
    var parts := MappedParts(a);
    if parts.0.Some? && parts.1.Some?
    then Some(EstimateInput(parts.0.value, parts.1.value))
    else None
  }

  /** The switch of mapActivityToClimatiq and the mapping table agree on every input. */
  lemma MappingMatchesTable(a: ActivityInput)
    ensures MapActivityToClimatiq(a) == MapByTable(a)
  {
  }

  // ---------------------------------------------------------------------------
  // Remote stage (estimateRaw)
  // ---------------------------------------------------------------------------

  /** The selector fields of an emission factor, without its data version. */
  function SelectorOf(ef: EmissionFactor): Selector {
    Selector(ef.activityId, ef.source, ef.region, ef.year)
  }

  /**
   * The request body: the selector with the fixed data version attached and the
   * parameters unchanged. Dropping the version gives back the selector.
   */
  function BuildPayload(selector: Selector, parameters: Parameters): (p: Payload)
    ensures p.emissionFactor.dataVersion == DataVersion
    ensures SelectorOf(p.emissionFactor) == selector
    ensures p.parameters == parameters
  {
    Payload(
      EmissionFactor(selector.activityId, selector.source, selector.region, selector.year, DataVersion),
      parameters)
  }

  /**
   * The estimation API seen from the backend: every request sent is logged in
   * `sent`, and `reply` is what the service answers (None for a network error,
   * a timeout or a failure status; a success body is taken to carry its `co2e`).
   */
  class ClimatiqApi {
    var sent: seq<Payload>
    var reply: Payload -> Option<real>

    constructor (reply: Payload -> Option<real>)
      ensures sent == [] && this.reply == reply
    {
      sent := [];
      this.reply := reply;
    }

    /** estimateRaw: exactly one request, whose answer is returned as it is. */
    method EstimateRaw(selector: Selector, parameters: Parameters) returns (co2e: Option<real>)
      modifies this`sent
      ensures sent == old(sent) + [BuildPayload(selector, parameters)]
      ensures co2e == reply(BuildPayload(selector, parameters))
    {
      var payload := BuildPayload(selector, parameters);
      sent := sent + [payload];
      co2e := reply(payload);
    }
  }

  // ---------------------------------------------------------------------------
  // Direct stage and orchestration (getCo2eForActivity)
  // ---------------------------------------------------------------------------

  /** The outcome of the direct switch. */
  datatype DirectOutcome = NotDirect | UnitRejected | Direct(co2e: real)

  /**
   * The direct switch of getCo2eForActivity: a type in the direct table with
   * its unit yields `value * coefficient` exactly; with another unit it is
   * rejected; any other type is left to the mapping stage.
   */
  function DirectCo2e(a: ActivityInput): (r: DirectOutcome)
    ensures r.NotDirect? <==> a.activityType !in DirectTable
    ensures r.UnitRejected? <==> a.activityType in DirectTable && a.unit != DirectTable[a.activityType].unit
    ensures r.Direct? ==> r.co2e == a.value * DirectTable[a.activityType].coefficient
  {
    var t := a.activityType;
    if t == "district_heating_kwh" then
      if a.unit != "kWh" then UnitRejected else Direct(a.value * NorwayHeatingCo2ePerKwh)
    else if t == "bus_local_km" then
      if a.unit != "km" then UnitRejected else Direct(a.value * NorwayBusCo2ePerKm)
    else if t == "train_national_km" then
      if a.unit != "km" then UnitRejected else Direct(a.value * NorwayTrainCo2ePerKm)
    else if t == "flight_domestic_km" then
      if a.unit != "km" then UnitRejected else Direct(a.value * NorwayDomesticFlightCo2ePerKm)
    else
      NotDirect
  }

  /** The requests getCo2eForActivity sends to the estimation API: none or one. */
  function RemoteRequests(a: ActivityInput): seq<Payload> {
    if !DirectCo2e(a).NotDirect? then []
    else match MapActivityToClimatiq(a)
      case None => []
      case Some(input) => [BuildPayload(input.selector, input.parameters)]
  }

  /** The estimate getCo2eForActivity returns when the service answers with `reply`. */
  function Co2eOf(a: ActivityInput, reply: Payload -> Option<real>): Option<real> {
    match DirectCo2e(a)
    case Direct(c) => Some(c)
    case UnitRejected => None
    case NotDirect =>
      match MapActivityToClimatiq(a)
      case None => None
      case Some(input) => reply(BuildPayload(input.selector, input.parameters))
  }

  /**
   * getCo2eForActivity: the direct stage first, returning early on a result or
   * a rejected unit; then the mapping stage, returning early when it maps to
   * nothing; then one remote call whose answer is the result.
   */
  method GetCo2eForActivity(a: ActivityInput, api: ClimatiqApi) returns (co2e: Option<real>)
    modifies api`sent
    ensures co2e == Co2eOf(a, api.reply)
    ensures api.sent == old(api.sent) + RemoteRequests(a)
  {
    var direct := DirectCo2e(a);
    if direct.UnitRejected? {
      return None;
    }
    if direct.Direct? {
      return Some(direct.co2e);
    }
    var climatiqInput := MapActivityToClimatiq(a);
    if climatiqInput.None? {
      return None;
    }
    co2e := api.EstimateRaw(climatiqInput.value.selector, climatiqInput.value.parameters);
  }

  // ---------------------------------------------------------------------------
  // Properties
  // ---------------------------------------------------------------------------

  /** No type is in both tables, so every type has at most one strategy. */
  lemma TablesDisjoint()
    ensures DirectTable.Keys !! MappingTable.Keys
  {
  }

  /** A direct type with its unit is exactly `value * coefficient`, with no remote call. */
  lemma DirectTypeIsExact(a: ActivityInput, reply: Payload -> Option<real>)
    requires a.activityType in DirectTable && a.unit == DirectTable[a.activityType].unit
    ensures Co2eOf(a, reply) == Some(a.value * DirectTable[a.activityType].coefficient)
    ensures RemoteRequests(a) == []
  {
  }

  /** A direct type with a wrong unit fails at once: no fall-through, no remote call. */
  lemma DirectWrongUnitStops(a: ActivityInput, reply: Payload -> Option<real>)
    requires a.activityType in DirectTable && a.unit != DirectTable[a.activityType].unit
    ensures Co2eOf(a, reply) == None
    ensures RemoteRequests(a) == []
  {
  }

  /** A type in neither table is unmappable and never reaches the service. */
  lemma UnknownTypeUnmapped(a: ActivityInput, reply: Payload -> Option<real>)
    requires a.activityType !in DirectTable && a.activityType !in MappingTable
    ensures MapActivityToClimatiq(a) == None
    ensures Co2eOf(a, reply) == None
    ensures RemoteRequests(a) == []
  {
  }

  /**
   * A mapped type: with the wrong unit nothing is sent and the result is None;
   * with its unit exactly one payload is sent, carrying the table's selector
   * plus the data version and the table's parameters, and the result is
   * exactly the service's answer to it.
   */
  lemma MappedTypeUsesService(a: ActivityInput, reply: Payload -> Option<real>)
    requires a.activityType in MappingTable
    ensures a.unit != MappingTable[a.activityType].unit ==>
      RemoteRequests(a) == [] && Co2eOf(a, reply) == None
    ensures a.unit == MappingTable[a.activityType].unit ==>
      var request := RuleRequest(MappingTable[a.activityType], a);
      var payload := BuildPayload(request.selector, request.parameters);
      && RemoteRequests(a) == [payload]
      && Co2eOf(a, reply) == reply(payload)
  {
  }

  /** A result is never made up: it is a direct product or the service's own answer. */
  lemma ResultHasAnOrigin(a: ActivityInput, reply: Payload -> Option<real>)
    ensures Co2eOf(a, reply).Some? ==>
      || DirectCo2e(a) == Direct(Co2eOf(a, reply).value)
      || (|RemoteRequests(a)| == 1 && Co2eOf(a, reply) == reply(RemoteRequests(a)[0]))
  {
  }

  /** Fossil cars: distance in km as given, BEIS factors, region GB whatever the caller says. */
  lemma FossilCarMapping(a: ActivityInput)
    requires a.activityType == "car_petrol_km" || a.activityType == "car_diesel_km"
    requires a.unit == "km"
    ensures MapActivityToClimatiq(a).Some?
    ensures MapActivityToClimatiq(a).value.parameters == map["distance" := Num(a.value), "distance_unit" := Text("km")]
    ensures MapActivityToClimatiq(a).value.selector.source == Some("BEIS")
    ensures MapActivityToClimatiq(a).value.selector.region == Some("GB")
  {
  }

  /**
   * Electricity and electric cars: energy in kWh (0.2 kWh per km for the car),
   * the grid mix of the caller's region, "NO" when the caller gives none.
   */
  lemma ElectricMapping(a: ActivityInput)
    requires (a.activityType == "car_electric_km" && a.unit == "km") || (a.activityType == "electricity_kwh" && a.unit == "kWh")
    ensures MapActivityToClimatiq(a).Some?
    ensures var energy := if a.activityType == "car_electric_km" then a.value * 0.2 else a.value;
      MapActivityToClimatiq(a).value.parameters == map["energy" := Num(energy), "energy_unit" := Text("kWh")]
    ensures MapActivityToClimatiq(a).value.selector.region == Some(if a.region.Some? then a.region.value else "NO")
    ensures MapActivityToClimatiq(a).value.selector.source == None
  {
  }

  /** Food: mass converted to a NOK spend at a fixed price, EXIOBASE factors, region NO. */
  lemma FoodMapping(a: ActivityInput)
    requires a.unit == "kg"
    requires a.activityType in {"food_beef_kg", "food_pork_kg", "food_poultry_kg", "food_fish_kg", "food_dairy_kg"}
    ensures MapActivityToClimatiq(a).Some?
    ensures var price :=
        if a.activityType == "food_beef_kg" then 250.0
        else if a.activityType == "food_fish_kg" then 225.0
        else if a.activityType == "food_dairy_kg" then 50.0
        else 150.0;
      MapActivityToClimatiq(a).value.parameters == map["money" := Num(a.value * price), "money_unit" := Text("nok")]
    ensures MapActivityToClimatiq(a).value.selector.source == Some("EXIOBASE")
    ensures MapActivityToClimatiq(a).value.selector.region == Some("NO")
  {
  }

  /** Types with a fixed region ignore the caller's region altogether. */
  lemma FixedRegionIgnoresCaller(a: ActivityInput, other: Option<string>)
    requires a.activityType in MappingTable && MappingTable[a.activityType].region.FixedRegion?
    ensures MapActivityToClimatiq(a) == MapActivityToClimatiq(a.(region := other))
  {
  }

  /** Worked example: 200 kWh of district heating is 35 kg CO2e. */
  lemma DistrictHeatingExample(reply: Payload -> Option<real>)
    ensures Co2eOf(ActivityInput("district_heating_kwh", 200.0, "kWh", None, None), reply) == Some(35.0)
  {
  }

  /** Worked example: 50 km by national train is 0.29 kg CO2e. */
  lemma TrainExample(reply: Payload -> Option<real>)
    ensures Co2eOf(ActivityInput("train_national_km", 50.0, "km", None, None), reply) == Some(0.29)
  {
  }

  /** Worked example: 2 kg of beef is sent as a 500 NOK spend in region NO. */
  lemma BeefExample()
    ensures RemoteRequests(ActivityInput("food_beef_kg", 2.0, "kg", Some("SE"), None)) ==
      [Payload(EmissionFactor(BeefId, Some("EXIOBASE"), Some("NO"), None, "^21"),
               map["money" := Num(500.0), "money_unit" := Text("nok")])]
  {
  }
}
