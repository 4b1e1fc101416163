/**
 * The slice of the platform health store's vocabulary that the app touches:
 * type identifiers, samples and unit tags. Physical values stay opaque.
 */
module HealthKitTypes {

  /** An instant on an abstract clock, in seconds. */
  type Date = int

  /** Quantity type identifiers the app names; `OtherQuantity` stands for
      every identifier outside that list. */
  datatype QuantityTypeId =
    | StepCount
    | HeartRate
    | BloodPressureSystolic
    | BloodPressureDiastolic
    | OxygenSaturation
    | BodyTemperature
    | RespiratoryRate
    | Height
    | BodyMass
    | RunningSpeed
    | ActiveEnergyBurned
    | BasalEnergyBurned
    | OtherQuantity(identifier: string)
  {
    /** The Swift case name of the identifier. */
    function CaseName(): (name: string) {
      match this
      case StepCount => "stepCount"
      case HeartRate => "heartRate"
      case BloodPressureSystolic => "bloodPressureSystolic"
      case BloodPressureDiastolic => "bloodPressureDiastolic"
      case OxygenSaturation => "oxygenSaturation"
      case BodyTemperature => "bodyTemperature"
      case RespiratoryRate => "respiratoryRate"
      case Height => "height"
      case BodyMass => "bodyMass"
      case RunningSpeed => "runningSpeed"
      case ActiveEnergyBurned => "activeEnergyBurned"
      case BasalEnergyBurned => "basalEnergyBurned"
      case OtherQuantity(id) => id
    }
  }

  /** Category type identifiers; only sleep analysis is named by the app. */
  datatype CategoryTypeId = SleepAnalysis | OtherCategory(identifier: string)

  /** A sample type: a quantity type or a category type. */
  datatype SampleType = QuantityType(qid: QuantityTypeId) | CategoryType(cid: CategoryTypeId)

  /** A physical quantity; its numeric value in a given unit is not modelled. */
  datatype Quantity = Quantity(token: int)

  /** A stored sample: quantity samples carry a quantity, category samples a category value. */
  datatype Sample =
    | QuantitySample(qid: QuantityTypeId, quantity: Quantity, startDate: Date, endDate: Date)
    | CategorySample(cid: CategoryTypeId, categoryValue: int, startDate: Date, endDate: Date)

  /** Unit tags for the units the app asks quantities to be expressed in. */
  datatype Unit =
    | Count
    | CountPerMinute
    | MillimeterOfMercury
    | Percent
    | DegreeCelsius
    | Meter
    | Kilogram
    | MeterPerSecond
    | Kilocalorie
}
