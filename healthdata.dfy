/**
 * The upload model `HealthData` and its construction from stored samples:
 * a quantity type identifier is mapped to a measurement type, which fixes
 * the unit the value is expressed in and the unit string sent alongside.
 */
module HealthModel {
  import opened Wrappers
  import HK = HealthKitTypes

  datatype HealthProvider = Samsung | Apple | Google

  datatype MeasurementType =
    | StepCount
    | HeartRate
    | BloodPressure
    | OxygenSaturation
    | BodyTemperature
    | RespiratoryRate
    | Height
    | Weight
    | SleepAnalysis
    | RunningSpeed
    | ActiveEnergy
    | BasalEnergy
  {
    /** The raw value the type is encoded with (its Swift case name). */
    function RawValue(): (name: string) {
      match this
      case StepCount => "stepCount"
      case HeartRate => "heartRate"
      case BloodPressure => "bloodPressure"
      case OxygenSaturation => "oxygenSaturation"
      case BodyTemperature => "bodyTemperature"
      case RespiratoryRate => "respiratoryRate"
      case Height => "height"
      case Weight => "weight"
      case SleepAnalysis => "sleepAnalysis"
      case RunningSpeed => "runningSpeed"
      case ActiveEnergy => "activeEnergy"
      case BasalEnergy => "basalEnergy"
    }
  }

  /** A value read as `quantity` expressed in `unit`; the number itself is opaque. */
  datatype MeasuredValue = InUnit(quantity: HK.Quantity, unit: HK.Unit)

  datatype HealthMeasurement = HealthMeasurement(
    measurementType: MeasurementType,
    value: MeasuredValue,
    unit: string,
    date: HK.Date)

  datatype HealthData = HealthData(
    userId: string,
    provider: HealthProvider,
    measurements: seq<HealthMeasurement>,
    timestamp: HK.Date)

  // ------------------------------------------------------------ mappings

  /** `getMeasurementType`: `None` is the `fatalError` branch. */
  function GetMeasurementType(id: HK.QuantityTypeId): (r: Option<MeasurementType>)
    ensures r.Some? <==> id in MappedIds
    ensures r != Some(SleepAnalysis)
  {
    match id
    case StepCount => Some(StepCount)
    case HeartRate => Some(HeartRate)
    case BloodPressureSystolic => Some(BloodPressure)
    case OxygenSaturation => Some(OxygenSaturation)
    case BodyTemperature => Some(BodyTemperature)
    case RespiratoryRate => Some(RespiratoryRate)
    case Height => Some(Height)
    case BodyMass => Some(Weight)
    case RunningSpeed => Some(RunningSpeed)
    case ActiveEnergyBurned => Some(ActiveEnergy)
    case BasalEnergyBurned => Some(BasalEnergy)
    case BloodPressureDiastolic => None
    case OtherQuantity(_) => None
  }

  /** The eleven identifiers `getMeasurementType` handles. */
  const MappedIds: set<HK.QuantityTypeId> := {
    HK.StepCount, HK.HeartRate, HK.BloodPressureSystolic, HK.OxygenSaturation,
    HK.BodyTemperature, HK.RespiratoryRate, HK.Height, HK.BodyMass,
    HK.RunningSpeed, HK.ActiveEnergyBurned, HK.BasalEnergyBurned }

  /** `getUnit`, as a unit tag. */
  function GetUnit(t: MeasurementType): (u: HK.Unit)
    ensures u == HK.Count <==> t == StepCount || t == SleepAnalysis
    ensures u == HK.CountPerMinute <==> t == HeartRate || t == RespiratoryRate
    ensures u == HK.Kilocalorie <==> t == ActiveEnergy || t == BasalEnergy
  {
    match t
    case StepCount => HK.Count
    case HeartRate => HK.CountPerMinute
    case BloodPressure => HK.MillimeterOfMercury
    case OxygenSaturation => HK.Percent
    case BodyTemperature => HK.DegreeCelsius
    case RespiratoryRate => HK.CountPerMinute
    case Height => HK.Meter
    case Weight => HK.Kilogram
    case RunningSpeed => HK.MeterPerSecond
    case ActiveEnergy => HK.Kilocalorie
    case BasalEnergy => HK.Kilocalorie
    case SleepAnalysis => HK.Count
  }

  /** `getUnitString`. */
  function GetUnitString(t: MeasurementType): (u: string)
    ensures u != ""
    ensures u == "kcal" <==> t == ActiveEnergy || t == BasalEnergy
  {
    match t
    case StepCount => "count"
    case HeartRate => "bpm"
    case BloodPressure => "mmHg"
    case OxygenSaturation => "%"
    case BodyTemperature => "°C"
    case RespiratoryRate => "breaths/min"
    case Height => "m"
    case Weight => "kg"
    case RunningSpeed => "m/s"
    case ActiveEnergy => "kcal"
    case BasalEnergy => "kcal"
    case SleepAnalysis => "hours"
  }

  lemma MeasurementTypeDomain(id: HK.QuantityTypeId)
    ensures GetMeasurementType(id).Some? <==> id in MappedIds
    ensures GetMeasurementType(HK.BloodPressureDiastolic) == None
  {
  }

  /** Four identifiers are renamed; the other mapped ones keep their case name. */
  lemma MeasurementTypeNames(id: HK.QuantityTypeId)
    requires GetMeasurementType(id).Some?
    ensures id == HK.BloodPressureSystolic ==> GetMeasurementType(id) == Some(BloodPressure)
    ensures id == HK.BodyMass ==> GetMeasurementType(id) == Some(Weight)
    ensures id == HK.ActiveEnergyBurned ==> GetMeasurementType(id) == Some(ActiveEnergy)
    ensures id == HK.BasalEnergyBurned ==> GetMeasurementType(id) == Some(BasalEnergy)
    ensures id !in {HK.BloodPressureSystolic, HK.BodyMass, HK.ActiveEnergyBurned, HK.BasalEnergyBurned} ==>
      GetMeasurementType(id).value.RawValue() == id.CaseName()
  {
  }

  /** No identifier maps to sleep analysis; every other type is reached by exactly one identifier. */
  lemma MeasurementTypeRange(t: MeasurementType)
    ensures Some(SleepAnalysis) !in set id | id in MappedIds :: GetMeasurementType(id)
    ensures t != SleepAnalysis ==> exists id :: id in MappedIds && GetMeasurementType(id) == Some(t)
  {
    match t
    case StepCount => assert GetMeasurementType(HK.StepCount) == Some(t);
    case HeartRate => assert GetMeasurementType(HK.HeartRate) == Some(t);
    case BloodPressure => assert GetMeasurementType(HK.BloodPressureSystolic) == Some(t);
    case OxygenSaturation => assert GetMeasurementType(HK.OxygenSaturation) == Some(t);
    case BodyTemperature => assert GetMeasurementType(HK.BodyTemperature) == Some(t);
    case RespiratoryRate => assert GetMeasurementType(HK.RespiratoryRate) == Some(t);
    case Height => assert GetMeasurementType(HK.Height) == Some(t);
    case Weight => assert GetMeasurementType(HK.BodyMass) == Some(t);
    case RunningSpeed => assert GetMeasurementType(HK.RunningSpeed) == Some(t);
    case ActiveEnergy => assert GetMeasurementType(HK.ActiveEnergyBurned) == Some(t);
    case BasalEnergy => assert GetMeasurementType(HK.BasalEnergyBurned) == Some(t);
    case SleepAnalysis =>
  }

  lemma MeasurementTypeInjective(a: HK.QuantityTypeId, b: HK.QuantityTypeId)
    requires GetMeasurementType(a).Some? && GetMeasurementType(a) == GetMeasurementType(b)
    ensures a == b
  {
  }

  /** Unit strings tell types apart, except that both energies are "kcal". */
  lemma UnitStringsDistinct(a: MeasurementType, b: MeasurementType)
    ensures GetUnitString(a) == GetUnitString(b) <==>
      a == b || {a, b} == {ActiveEnergy, BasalEnergy}
  {
    if {a, b} == {ActiveEnergy, BasalEnergy} {
      assert a in {ActiveEnergy, BasalEnergy} && b in {ActiveEnergy, BasalEnergy};
    }
    if GetUnitString(a) == GetUnitString(b) && a != b {
      assert GetUnitString(a) == "kcal";
      assert {a, b} == {ActiveEnergy, BasalEnergy};
    }
  }

  lemma UnitStringExamples()
    ensures GetUnitString(HeartRate) == "bpm"
    ensures GetUnitString(SleepAnalysis) == "hours"
    ensures GetUnitString(ActiveEnergy) == GetUnitString(BasalEnergy) == "kcal"
  {
  }

  // --------------------------------------------------------- conversion

  /** A sample that `from` can convert without reaching `fatalError`. */
  predicate Convertible(s: HK.Sample) {
    s.QuantitySample? ==> GetMeasurementType(s.qid).Some?
  }

  predicate AllConvertible(samples: seq<HK.Sample>) {
    forall i :: 0 <= i < |samples| ==> Convertible(samples[i])
  }

  /** The quantity samples of `samples`, in their original order. */
  function QuantitySamples(samples: seq<HK.Sample>): (r: seq<HK.Sample>)
    ensures forall i :: 0 <= i < |r| ==> r[i].QuantitySample?
  {
    if samples == [] then []
    else if samples[0].QuantitySample? then [samples[0]] + QuantitySamples(samples[1..])
    else QuantitySamples(samples[1..])
  }

  /** The closure passed to `compactMap`, for a quantity sample. */
  function ToMeasurement(s: HK.Sample): (m: HealthMeasurement)
    requires s.QuantitySample? && Convertible(s)
    ensures Some(m.measurementType) == GetMeasurementType(s.qid)
    ensures m.unit == GetUnitString(m.measurementType) && m.unit != ""
    ensures m.value == InUnit(s.quantity, GetUnit(m.measurementType)) && m.date == s.startDate
  {
    var t := GetMeasurementType(s.qid).value;
    HealthMeasurement(t, InUnit(s.quantity, GetUnit(t)), GetUnitString(t), s.startDate)
  }

  /** `healthKitData.compactMap { ... }`. */
  function Measurements(samples: seq<HK.Sample>): (r: seq<HealthMeasurement>)
    requires AllConvertible(samples)
    ensures |r| == |QuantitySamples(samples)|
    ensures forall i :: 0 <= i < |r| ==>
      Convertible(QuantitySamples(samples)[i]) && r[i] == ToMeasurement(QuantitySamples(samples)[i])
  {
    if samples == [] then []
    else if samples[0].QuantitySample? then [ToMeasurement(samples[0])] + Measurements(samples[1..])
    else Measurements(samples[1..])
  }

  /** `HealthData.from(healthKitData:)`; `storedUserId` is the "userId" default, `now` is `Date()`. */
  function From(samples: seq<HK.Sample>, storedUserId: Option<string>, now: HK.Date): (r: HealthData)
    requires AllConvertible(samples)
    ensures r.provider == Apple
    ensures r.userId == (if storedUserId.Some? then storedUserId.value else "")
    ensures r.timestamp == now
    ensures |r.measurements| <= |samples|
    ensures forall i :: 0 <= i < |r.measurements| ==>
      r.measurements[i].unit == GetUnitString(r.measurements[i].measurementType) &&
      r.measurements[i].measurementType != SleepAnalysis
  {
    QuantitySamplesLength(samples);
    HealthData(storedUserId.GetOr(""), Apple, Measurements(samples), now)
  }

  /** The filter keeps quantity samples and drops the rest, one element at a time. */
  lemma QuantitySamplesSingleton(s: HK.Sample)
    ensures QuantitySamples([s]) == if s.QuantitySample? then [s] else []
  {
    assert [s][1..] == [];
  }

  lemma {:induction false} QuantitySamplesAppend(a: seq<HK.Sample>, b: seq<HK.Sample>)
    ensures QuantitySamples(a + b) == QuantitySamples(a) + QuantitySamples(b)
  {
    if a != [] {
      assert (a + b)[0] == a[0] && (a + b)[1..] == a[1..] + b;
      QuantitySamplesAppend(a[1..], b);
    } else {
      assert a + b == b;
    }
  }

  lemma {:induction false} QuantitySamplesLength(samples: seq<HK.Sample>)
    ensures |QuantitySamples(samples)| <= |samples|
  {
    if samples != [] {
      QuantitySamplesLength(samples[1..]);
    }
  }

  /** Conversion is order preserving: the measurements of a concatenation are
      the concatenation of the measurements, and a lone sample yields its own
      measurement exactly when it is a quantity sample. */
  lemma {:induction false} MeasurementsAppend(a: seq<HK.Sample>, b: seq<HK.Sample>)
    requires AllConvertible(a) && AllConvertible(b)
    ensures AllConvertible(a + b)
    ensures Measurements(a + b) == Measurements(a) + Measurements(b)
  {
    if a != [] {
      assert (a + b)[0] == a[0] && (a + b)[1..] == a[1..] + b;
      MeasurementsAppend(a[1..], b);
    } else {
      assert a + b == b;
    }
  }

  lemma MeasurementsSingleton(s: HK.Sample)
    requires Convertible(s)
    ensures AllConvertible([s])
    ensures Measurements([s]) == if s.QuantitySample? then [ToMeasurement(s)] else []
  {
    assert [s][1..] == [];
  }

  /** Each measurement takes its date from its sample's start date, and its
      value is the sample's quantity in the type's unit. */
  lemma MeasurementOfSample(samples: seq<HK.Sample>, i: nat)
    requires AllConvertible(samples) && i < |QuantitySamples(samples)|
    ensures var q := QuantitySamples(samples)[i];
      var m := Measurements(samples)[i];
      Some(m.measurementType) == GetMeasurementType(q.qid) &&
      m.date == q.startDate &&
      m.value == InUnit(q.quantity, GetUnit(m.measurementType))
  {
  }
}
