/**
 * `HealthKitManager`: the set of types the app reads, the authorization
 * request, and the best-effort collection of the latest sample of each
 * quantity type. The health store is a value: the samples it holds and the
 * quantity types whose query reports an error.
 */
module HealthKitManagerModel {
  import opened Wrappers
  import HK = HealthKitTypes
  import HM = HealthModel

  /** The thirteen types of the `allTypes` initialiser, in its order. */
  const ListedSeq: seq<HK.SampleType> := [
    HK.QuantityType(HK.StepCount), HK.QuantityType(HK.RunningSpeed),
    HK.QuantityType(HK.BasalEnergyBurned), HK.QuantityType(HK.ActiveEnergyBurned),
    HK.CategoryType(HK.SleepAnalysis), HK.QuantityType(HK.Height),
    HK.QuantityType(HK.BodyMass), HK.QuantityType(HK.HeartRate),
    HK.QuantityType(HK.OxygenSaturation), HK.QuantityType(HK.BloodPressureSystolic),
    HK.QuantityType(HK.BloodPressureDiastolic), HK.QuantityType(HK.RespiratoryRate),
    HK.QuantityType(HK.BodyTemperature)]

  const ListedTypes: set<HK.SampleType> := set st | st in ListedSeq

  /** `allTypes`: `resolvable` holds the types the platform lookups return
      (a lookup that yields nil leaves its type out). One failed lookup empties the set. */
  function AllTypes(resolvable: set<HK.SampleType>): (r: set<HK.SampleType>)
    ensures r <= resolvable && r <= ListedTypes
    ensures r == {} <==> exists st :: st in ListedSeq && st !in resolvable
    ensures r != {} ==> r == ListedTypes && |r| == 13 && |QuantityTypes(r)| == 12
  {
    ListedTypesShape();
    if ListedTypes <= resolvable then ListedTypes else {}
  }

  /** Thirteen distinct types, of which only sleep analysis is not a quantity type. */
  lemma ListedTypesShape()
    ensures |ListedTypes| == 13
    ensures |QuantityTypes(ListedTypes)| == 12
    ensures ListedTypes - QuantityTypes(ListedTypes) == {HK.CategoryType(HK.SleepAnalysis)}
  {
    DistinctCard(ListedSeq);
    assert QuantityTypes(ListedTypes) == ListedTypes - {HK.CategoryType(HK.SleepAnalysis)};
  }

  lemma {:induction false} DistinctCard<T>(q: seq<T>)
    requires forall i, j :: 0 <= i < j < |q| ==> q[i] != q[j]
    ensures |set x | x in q| == |q|
  {
    if q != [] {
      DistinctCard(q[1..]);
      assert (set x | x in q) == {q[0]} + (set x | x in q[1..]);
    }
  }

  // -------------------------------------------------------------- queries

  /** The health store as seen by a query. */
  datatype Store = Store(samples: seq<HK.Sample>, failing: set<HK.QuantityTypeId>)

  /** What one latest-sample query resumes with. */
  datatype QueryResult = QueryFailed | NoData | Found(sample: HK.Sample)

  predicate OfType(s: HK.Sample, t: HK.QuantityTypeId) {
    s.QuantitySample? && s.qid == t
  }

  /** The sample of type `t` with the greatest end date (the first such in
      store order on a tie), as a query sorted by end date descending with limit 1. */
  function LatestOf(samples: seq<HK.Sample>, t: HK.QuantityTypeId): (r: Option<HK.Sample>)
    ensures r.None? <==> forall i :: 0 <= i < |samples| ==> !OfType(samples[i], t)
    ensures r.Some? ==> r.value in samples && OfType(r.value, t)
    ensures r.Some? ==> forall i :: 0 <= i < |samples| && OfType(samples[i], t) ==>
      samples[i].endDate <= r.value.endDate
  {
    if samples == [] then None
    else
      var rest := LatestOf(samples[1..], t);
      if OfType(samples[0], t) && (rest.None? || rest.value.endDate <= samples[0].endDate)
      then Some(samples[0])
      else rest
  }

  /** `fetchLatestData(for:)`. */
  function FetchLatestData(store: Store, t: HK.QuantityTypeId): (r: QueryResult)
    ensures r == QueryFailed <==> t in store.failing
    ensures r.Found? ==> r.sample in store.samples && OfType(r.sample, t)
    ensures r.Found? ==> forall s | s in store.samples && OfType(s, t) :: s.endDate <= r.sample.endDate
    ensures r == NoData <==> t !in store.failing && forall s | s in store.samples :: !OfType(s, t)
  {
    if t in store.failing then QueryFailed
    else match LatestOf(store.samples, t)
      case None => NoData
      case Some(s) => Found(s)
  }

  /** The quantity types among `types`. */
  function QuantityTypes(types: set<HK.SampleType>): (r: set<HK.SampleType>)
    ensures r <= types
  {
    set st | st in types && st.QuantityType?
  }

  /** The quantity types among `types` whose query finds a sample. */
  function Contributing(types: set<HK.SampleType>, store: Store): (r: set<HK.SampleType>)
    ensures r <= QuantityTypes(types)
  {
    set st | st in types && st.QuantityType? && FetchLatestData(store, st.qid).Found?
  }

  /** `fetchData(for:)`: one query per quantity type, in the set's unspecified
      order; category types are skipped, a failing query is swallowed and an
      empty one appends nothing. */
  method FetchData(types: set<HK.SampleType>, store: Store) returns (samples: seq<HK.Sample>)
    ensures forall i :: 0 <= i < |samples| ==>
      samples[i].QuantitySample? && HK.QuantityType(samples[i].qid) in types &&
      FetchLatestData(store, samples[i].qid) == Found(samples[i])
    ensures forall i, j :: 0 <= i < j < |samples| ==> samples[i].qid != samples[j].qid
    ensures forall st | st in Contributing(types, store) ::
      FetchLatestData(store, st.qid).sample in samples
    ensures |samples| == |Contributing(types, store)|
  {
    samples := [];
    var remaining := types;
    ghost var done: set<HK.SampleType> := {};
    while remaining != {}
      invariant done <= types && remaining == types - done
      invariant FetchedSoFar(samples, done, store)
      decreases remaining
    {
      var st :| st in remaining;
      FetchStep(samples, done, st, store);
      var found := if st.QuantityType? then FetchLatestData(store, st.qid) else NoData;
      if found.Found? {
        samples := samples + [found.sample];
      }
      remaining := remaining - {st};
      done := done + {st};
    }
    assert done == types;
  }

  /** The loop invariant of `FetchData` after examining the types in `done`:
      one sample per contributing type, each that type's finding. */
  ghost predicate FetchedSoFar(samples: seq<HK.Sample>, done: set<HK.SampleType>, store: Store)
  {
    var seen := Contributing(done, store);
    |samples| == |seen| && FetchedFrom(samples, seen, store) && DistinctQids(samples) && Covers(samples, seen, store)
  }

  /** Examining one more type keeps the loop invariant of `FetchData`. */
  lemma FetchStep(samples: seq<HK.Sample>, done: set<HK.SampleType>, st: HK.SampleType, store: Store)
    requires FetchedSoFar(samples, done, store) && st !in done
    ensures var found := if st.QuantityType? then FetchLatestData(store, st.qid) else NoData;
      FetchedSoFar(if found.Found? then samples + [found.sample] else samples, done + {st}, store)
  {
    ContributingStep(done, st, store);
    var found := if st.QuantityType? then FetchLatestData(store, st.qid) else NoData;
    if found.Found? {
      AppendFetched(samples, Contributing(done, store), st, found.sample, store);
    }
  }

  /** Every sample is the finding of a distinct quantity type in `within`. */
  ghost predicate FetchedFrom(samples: seq<HK.Sample>, within: set<HK.SampleType>, store: Store)
  {
    forall i :: 0 <= i < |samples| ==>
      samples[i].QuantitySample? && HK.QuantityType(samples[i].qid) in within &&
      FetchLatestData(store, samples[i].qid) == Found(samples[i])
  }

  /** Every type in `among` has its finding among `samples`. */
  ghost predicate Covers(samples: seq<HK.Sample>, among: set<HK.SampleType>, store: Store)
  {
    forall st | st in among ::
      st.QuantityType? && FetchLatestData(store, st.qid).Found? && FetchLatestData(store, st.qid).sample in samples
  }

  ghost predicate DistinctQids(samples: seq<HK.Sample>)
  {
    forall i, j :: 0 <= i < j < |samples| && samples[i].QuantitySample? && samples[j].QuantitySample? ==>
      samples[i].qid != samples[j].qid
  }

  /** Appending the finding of a type not yet examined keeps the samples
      drawn from the examined types and their quantity identifiers distinct. */
  lemma AppendFetched(samples: seq<HK.Sample>, seen: set<HK.SampleType>, st: HK.SampleType, s: HK.Sample, store: Store)
    requires FetchedFrom(samples, seen, store) && DistinctQids(samples) && Covers(samples, seen, store)
    requires st.QuantityType? && st !in seen && FetchLatestData(store, st.qid) == Found(s)
    ensures FetchedFrom(samples + [s], seen + {st}, store)
    ensures DistinctQids(samples + [s])
    ensures Covers(samples + [s], seen + {st}, store)
  {
    forall i | 0 <= i < |samples| ensures samples[i].qid != st.qid {
      assert HK.QuantityType(samples[i].qid) in seen;
    }
  }

  /** One more type examined: it joins the contributing types iff it is a
      quantity type whose query finds a sample. */
  lemma ContributingStep(done: set<HK.SampleType>, st: HK.SampleType, store: Store)
    requires st !in done
    ensures st !in Contributing(done, store)
    ensures Contributing(done + {st}, store) ==
      Contributing(done, store) + (if st.QuantityType? && FetchLatestData(store, st.qid).Found? then {st} else {})
  {
  }

  /** `fetchAllHealthData()`. */
  method FetchAllHealthData(resolvable: set<HK.SampleType>, store: Store) returns (samples: seq<HK.Sample>)
    ensures forall i :: 0 <= i < |samples| ==>
      samples[i].QuantitySample? && HK.QuantityType(samples[i].qid) in AllTypes(resolvable) &&
      FetchLatestData(store, samples[i].qid) == Found(samples[i])
    ensures forall st | st in Contributing(AllTypes(resolvable), store) ::
      FetchLatestData(store, st.qid).sample in samples
    ensures |samples| <= 12
  {
    samples := FetchData(AllTypes(resolvable), store);
    ContributingBounded(AllTypes(resolvable), store);
    ListedTypesShape();
  }

  /** Each quantity type contributes at most one sample. */
  lemma ContributingBounded(types: set<HK.SampleType>, store: Store)
    ensures |Contributing(types, store)| <= |QuantityTypes(types)| <= |types|
  {
    SubsetCard(Contributing(types, store), QuantityTypes(types));
    SubsetCard(QuantityTypes(types), types);
  }

  lemma SubsetCard<T>(a: set<T>, b: set<T>)
    requires a <= b
    ensures |a| <= |b|
  {
    assert b == a + (b - a);
  }

  /** Adding a category type to the requested set changes nothing that is collected. */
  lemma CategoryTypesContributeNothing(types: set<HK.SampleType>, c: HK.CategoryTypeId, store: Store)
    ensures Contributing(types + {HK.CategoryType(c)}, store) == Contributing(types, store)
  {
  }

  // ---------------------------------------------------------------- units

  /** `preferredUnit(for:)`, as a unit tag; unlisted identifiers default to count. */
  function PreferredUnit(id: HK.QuantityTypeId): (u: HK.Unit)
    ensures id.OtherQuantity? ==> u == HK.Count
    ensures u == HK.MillimeterOfMercury <==> id == HK.BloodPressureSystolic || id == HK.BloodPressureDiastolic
    ensures u == HK.Kilocalorie <==> id == HK.ActiveEnergyBurned || id == HK.BasalEnergyBurned
  {
    match id
    case StepCount => HK.Count
    case HeartRate => HK.CountPerMinute
    case OxygenSaturation => HK.Percent
    case BodyTemperature => HK.DegreeCelsius
    case BloodPressureSystolic => HK.MillimeterOfMercury
    case BloodPressureDiastolic => HK.MillimeterOfMercury
    case RespiratoryRate => HK.CountPerMinute
    case Height => HK.Meter
    case BodyMass => HK.Kilogram
    case ActiveEnergyBurned => HK.Kilocalorie
    case BasalEnergyBurned => HK.Kilocalorie
    case RunningSpeed => HK.MeterPerSecond
    case OtherQuantity(_) => HK.Count
  }

  lemma PreferredUnitCases(name: string)
    ensures PreferredUnit(HK.HeartRate) == PreferredUnit(HK.RespiratoryRate) == HK.CountPerMinute
    ensures PreferredUnit(HK.OtherQuantity(name)) == HK.Count
    ensures PreferredUnit(HK.BloodPressureDiastolic) == PreferredUnit(HK.BloodPressureSystolic) == HK.MillimeterOfMercury
  {
  }

  /** For every identifier both tables handle, logging and conversion use the same unit. */
  lemma PreferredUnitAgreesWithGetUnit(id: HK.QuantityTypeId)
    requires HM.GetMeasurementType(id).Some?
    ensures PreferredUnit(id) == HM.GetUnit(HM.GetMeasurementType(id).value)
  {
  }

  // --------------------------------------------------------- the hazard

  /** `allTypes` includes diastolic blood pressure, which `getMeasurementType`
      does not handle: as soon as the store holds such a sample, the collected
      samples contain one that `HealthData.from` cannot convert. */
  lemma CollectedDiastolicIsNotConvertible(resolvable: set<HK.SampleType>, store: Store, s: HK.Sample)
    requires ListedTypes <= resolvable
    requires s in store.samples && OfType(s, HK.BloodPressureDiastolic)
    requires HK.BloodPressureDiastolic !in store.failing
    ensures HK.QuantityType(HK.BloodPressureDiastolic) in Contributing(AllTypes(resolvable), store)
    ensures !HM.Convertible(FetchLatestData(store, HK.BloodPressureDiastolic).sample)
  {
    var r := FetchLatestData(store, HK.BloodPressureDiastolic);
    assert r != NoData;
  }

  // -------------------------------------------------------- authorization

  datatype AuthorizationError = NotAvailable | StoreError(description: string)

  class HealthKitManager {
    var isAuthorized: bool
    /** The types the platform lookups resolve; fixes `allTypes`. */
    const resolvable: set<HK.SampleType>
    /** The read set of the last authorization request handed to the store. */
    var requestedReadTypes: set<HK.SampleType>

    constructor (resolvable: set<HK.SampleType>)
      ensures !isAuthorized && this.resolvable == resolvable && requestedReadTypes == {}
    {
      isAuthorized := false;
      this.resolvable := resolvable;
      requestedReadTypes := {};
    }

    /** `requestAuthorization()`: `available` is `isHealthDataAvailable()`,
        `storeReply` the store's answer to a read request for `allTypes`. */
    method RequestAuthorization(available: bool, storeReply: Outcome<string>)
      returns (r: Outcome<AuthorizationError>)
      modifies this`isAuthorized, this`requestedReadTypes
      ensures available ==> requestedReadTypes == AllTypes(resolvable)
      ensures !available ==> requestedReadTypes == old(requestedReadTypes)
      ensures !available ==> r == Fail(NotAvailable) && isAuthorized == old(isAuthorized)
      ensures available && storeReply.Fail? ==>
        r == Fail(StoreError(storeReply.error)) && isAuthorized == old(isAuthorized)
      ensures available && storeReply.Pass? ==> r == Pass && isAuthorized
      ensures r.Pass? <==> available && storeReply.Pass?
    {
      if !available {
        return Fail(NotAvailable);
      }
      requestedReadTypes := AllTypes(resolvable);
      match storeReply
      case Fail(e) =>
        return Fail(StoreError(e));
      case Pass =>
        isAuthorized := true;
        return Pass;
    }
  }
}
