/**
 Which devices and which alarms take part in the cooling chain: the tiers, the
 name sets and the eligibility tests of backend/app/alarms/cooling_correlation.py.
 */
module CoolingTaxonomy {
  import opened Wrappers

  /** Where a machine stands on the chain; `Rank` orders the tiers upwards. */
  datatype Tier = Server | Zone | Unit | Plant | Power

  function Rank(t: Tier): nat {
    match t
    case Server => 0
    case Zone => 1
    case Unit => 2
    case Plant => 3
    case Power => 4
  }

  /** The device type codes the cooling chain knows by name; every other code is `Other`. */
  datatype DeviceType =
    | Chiller | CoolingTower | Pump | Valve
    | Crah | Crac | Cdu | InRowCooler | Rdhx
    | Sensor | Pdu
    | ServerBox | Switch | OobSwitch | Firewall | Router | LoadBalancer | Storage
    | Other(code: string)
  {
    predicate IsPlant() { Chiller? || CoolingTower? || Pump? || Valve? }

    predicate IsUnit() { Crah? || Crac? || Cdu? || InRowCooler? || Rdhx? }

    /** Units that cool the room's air; a CDU cools only the cold plates on its own loop. */
    predicate IsAirUnit() { Crah? || Crac? || InRowCooler? || Rdhx? }

    predicate IsZone() { Sensor? || Pdu? }

    predicate IsIt() { ServerBox? || Switch? || OobSwitch? || Firewall? || Router? || LoadBalancer? || Storage? }
  }

  function DeviceTier(t: DeviceType): Option<Tier> {
    if t.IsPlant() then Some(Plant)
    else if t.IsUnit() then Some(Unit)
    else if t.IsZone() then Some(Zone)
    else if t.IsIt() then Some(Server)
    else None
  }

  predicate NotACapacityLoss(name: string) {
    name in {
      "cascade_incident",
      "crah_filter_dirty", "cooling_filter_dirty", "crah_low_delta_t",
      "chiller_low_delta_t", "crah_valve_hunting", "valve_hunting",
      "chiller_short_cycling", "cdu_condensation_risk", "tower_basin_imbalance",
      "makeup_water_low", "humidity_high", "humidity_low", "humidity_critical"
    }
  }

  predicate UnitGeneric(name: string) {
    name in {"equipment_alarm", "plant_unit_stopped", "supply_temp_high"}
  }

  predicate PowerRootType(name: string) {
    name in {"breaker_tripped", "switchgear_breaker_trip"}
  }

  predicate ThermalSymptom(name: string) {
    name in {
      "ambient_temp_high", "ambient_temp_critical",
      "sensor_ambient_temp_high", "sensor_ambient_temp_critical",
      "sensor_mid_temp_high", "sensor_outlet_temp_high", "pdu_temp_high",
      "inlet_rate_of_change", "cpu_temp_high", "cpu_temp_critical",
      "inlet_temp_high", "inlet_temp_critical"
    }
  }

  predicate ThermalMetric(name: string) {
    name in {"inlet_temperature", "ambient_temperature", "cpu_temperature", "exhaust_temperature"}
  }

  predicate HasCoolingPrefix(name: string) {
    "crah_" <= name || "crac_" <= name || "chiller_" <= name || "cdu_" <= name || "cooling_" <= name ||
    "tower_" <= name || "pump_" <= name || "valve_" <= name || "plant_" <= name
  }

  predicate IsThermal(alarmType: string, metric: Option<string>) {
    ThermalSymptom(alarmType) || (metric.Some? && ThermalMetric(metric.value))
  }

  predicate IsCoolingCondition(alarmType: string, category: Option<string>) {
    !NotACapacityLoss(alarmType) &&
    (category == Some("cooling") || UnitGeneric(alarmType) ||
     HasCoolingPrefix(alarmType))
  }

  /** Can this alarm, on a device acting at `tier`, explain heat below it? */
  predicate RootEligible(alarmType: string, category: Option<string>, tier: Tier, instance: string) {
    match tier
    case Power => PowerRootType(alarmType) && instance == ""
    case Plant => IsCoolingCondition(alarmType, category)
    case Unit => IsCoolingCondition(alarmType, category)
    case Zone => false
    case Server => false
  }

  /** Can this alarm be the consequence of something upstream? */
  predicate SymptomEligible(alarmType: string, category: Option<string>, tier: Option<Tier>, metric: Option<string>) {
    match tier
    case Some(Server) => IsThermal(alarmType, metric)
    case Some(Zone) => IsThermal(alarmType, metric)
    case Some(Unit) => IsCoolingCondition(alarmType, category)
    case Some(Plant) => IsCoolingCondition(alarmType, category)
    case _ => false
  }

  predicate MightTakePart(alarmType: string, category: Option<string>, metric: Option<string>) {
    IsThermal(alarmType, metric) || IsCoolingCondition(alarmType, category)
  }

  /** The values of the severity column. */
  predicate IsSeverity(s: string) {
    s == "CRITICAL" || s == "MAJOR" || s == "MINOR" || s == "WARNING" || s == "INFO" || s == "CLEAR"
  }

  /** The severity order of backend/app/integrations/config.py: lower is worse, unknown is 9. */
  function SeverityRank(severity: string): nat {
    if severity == "CRITICAL" then 0
    else if severity == "MAJOR" then 1
    else if severity == "MINOR" then 2
    else if severity == "WARNING" then 3
    else if severity == "INFO" then 4
    else if severity == "CLEAR" then 5
    else 9
  }

  /** The enumeration from the gravest down, and everything else after it. */
  lemma SeveritiesInOrder(other: string)
    requires !IsSeverity(other)
    ensures SeverityRank("CRITICAL") < SeverityRank("MAJOR") < SeverityRank("MINOR") < SeverityRank("WARNING")
    ensures SeverityRank("WARNING") < SeverityRank("INFO") < SeverityRank("CLEAR") < SeverityRank(other)
  {
  }

  /** A whole-machine electrical trip: the only alarm that is a root at the power tier. */
  predicate PowerTrip(alarmType: string, instance: string) {
    RootEligible(alarmType, None, Power, instance)
  }

  /** A trip that carries neither the cooling category nor a thermal metric. */
  predicate PlainTrip(alarmType: string, instance: string, category: Option<string>, metric: Option<string>) {
    PowerTrip(alarmType, instance) ==>
      category != Some("cooling") && (metric.None? || !ThermalMetric(metric.value))
  }

  lemma TripNames(alarmType: string)
    requires PowerRootType(alarmType)
    ensures !ThermalSymptom(alarmType) && !UnitGeneric(alarmType) && !HasCoolingPrefix(alarmType)
  {
    assert alarmType[0] == 'b' || (alarmType[0] == 's' && alarmType[1] == 'w');
  }

  /** Such a trip is nobody's consequence, on a device of any tier: it ends every chain. */
  lemma PlainTripIsNoSymptom(
    alarmType: string, instance: string, category: Option<string>, metric: Option<string>, tier: Option<Tier>)
    requires PowerTrip(alarmType, instance)
    requires PlainTrip(alarmType, instance, category, metric)
    ensures !SymptomEligible(alarmType, category, tier, metric)
  {
    TripNames(alarmType);
  }
}
