/** The TumaRide delivery pricing engine: a fixed catalogue of parcel types,
    a flat penalty per kilogram above a type's included weight, and a
    progressive distance charge over six bands, each kilometre charged at the
    rate of the band it falls in. */
module Pricing {
  import opened Wrappers

  // ---------------------------------------------------------------------------
  // Configuration
  // ---------------------------------------------------------------------------

  /** The four parcel categories a sender can choose. */
  datatype ParcelType = Documents | Small | Medium | Large
  {
    /** The key under which the catalogue stores this category. */
    function Key(): string {
      match this
      case Documents => "documents"
      case Small => "small"
      case Medium => "medium"
      case Large => "large"
    }
  }

  /** One catalogue entry: the weight included in the base price (kg), the
      base price (KES) and the display strings. `displayName` is the source's
      `label` field, renamed because `label` is a Dafny keyword. */
  datatype ParcelTypeInfo = ParcelTypeInfo(maxWeight: real, basePrice: real, displayName: string, description: string)

  /** The parcel-type catalogue, keyed by the string a caller passes in. */
  const ParcelTypes: map<string, ParcelTypeInfo> := map[
    "documents" := ParcelTypeInfo(1.0, 200.0, "Documents", "Papers, letters, small documents"),
    "small" := ParcelTypeInfo(5.0, 200.0, "Small Box (<5kg)", "Small packages, electronics"),
    "medium" := ParcelTypeInfo(15.0, 250.0, "Medium Box (5-15kg)", "Clothing, books, medium items"),
    "large" := ParcelTypeInfo(30.0, 350.0, "Large Box (15-30kg)", "Appliances, bulk items")
  ]

  /** The upper bound of a distance band: a kilometre mark or `Infinity`. */
  datatype Bound = Km(km: int) | Unbounded

  /** One distance band: its bounds in kilometres and its rate in KES per km. */
  datatype DistanceRate = DistanceRate(min: int, max: Bound, rate: int)

  /** The six distance bands, walked from the first to the last. */
  const DistanceRates: seq<DistanceRate> := [
    DistanceRate(0, Km(20), 0),
    DistanceRate(21, Km(50), 10),
    DistanceRate(51, Km(100), 8),
    DistanceRate(101, Km(200), 6),
    DistanceRate(201, Km(500), 4),
    DistanceRate(501, Unbounded, 3)
  ]

  /** KES charged per kilogram above a parcel type's included weight. */
  const WeightPenalty: real := 40.0

  /** Why pricing failed. `calculatePrice` throws 'Invalid parcel type' for a
      key missing from the catalogue; `getPriceBreakdown` does not check and
      fails when it reads `basePrice` of the missing entry. */
  datatype PricingError = InvalidParcelType | UndefinedTypeInfo

  /** One explanation line of a breakdown, holding the figures it displays. */
  datatype LineItem =
    | BaseLine(displayName: string, amount: real)
    | WeightLine(excessKg: real, amount: real)
    | DistanceLine(km: real, amount: real)

  /** The explanation lines: the base line always, the other two only when
      their charge applies (`null` otherwise). */
  datatype Explanation = Explanation(base: LineItem, weight: Option<LineItem>, distance: Option<LineItem>)

  /** What `getPriceBreakdown` returns: the unrounded parts, the rounded total
      and the explanation. */
  datatype PriceBreakdown = PriceBreakdown(
    basePrice: real,
    weightCharge: real,
    distanceCharge: real,
    total: int,
    breakdown: Explanation)

  // ---------------------------------------------------------------------------
  // Arithmetic helpers (`Math.max`, `Math.min`, `Math.round`)
  // ---------------------------------------------------------------------------

  function Max(a: real, b: real): real { if a >= b then a else b }

  function Min(a: real, b: real): real { if a <= b then a else b }

  /** `Math.round`: the nearest integer, halves rounded up. */
  function RoundHalfUp(x: real): (r: int)
    ensures x - 0.5 < r as real <= x + 0.5
  {
    (x + 0.5).Floor
  }

  // ---------------------------------------------------------------------------
  // Specification of a price
  // ---------------------------------------------------------------------------

  /** The kilograms above the type's included weight, never negative. */
  function ExcessWeight(weight: real, info: ParcelTypeInfo): (e: real)
    ensures e >= 0.0
    ensures e > 0.0 <==> weight > info.maxWeight
    ensures e > 0.0 ==> e == weight - info.maxWeight
  {
    Max(0.0, weight - info.maxWeight)
  }

  function WeightCharge(weight: real, info: ParcelTypeInfo): real {
    ExcessWeight(weight, info) * WeightPenalty
  }

  /** The distance charge in closed form. Each band is `max - min + 1`
      kilometres wide, so the free first band covers 21 km and the later
      bands begin at 21, 51, 101, 201 and 501 km. */
  function DistanceCharge(d: real): (c: real)
    ensures c >= 0.0
    ensures c > 0.0 <==> d > 21.0
  {
    if d <= 21.0 then 0.0
    else if d <= 51.0 then 10.0 * (d - 21.0)
    else if d <= 101.0 then 300.0 + 8.0 * (d - 51.0)
    else if d <= 201.0 then 700.0 + 6.0 * (d - 101.0)
    else if d <= 501.0 then 1300.0 + 4.0 * (d - 201.0)
    else 2500.0 + 3.0 * (d - 501.0)
  }

  /** The unrounded price: base price plus weight and distance charges. */
  function Subtotal(info: ParcelTypeInfo, weight: real, distance: real): real {
    info.basePrice + WeightCharge(weight, info) + DistanceCharge(distance)
  }

  /** The breakdown the engine owes for a catalogue entry. */
  function Quote(info: ParcelTypeInfo, weight: real, distance: real): (q: PriceBreakdown)
    ensures q.basePrice == info.basePrice
    ensures q.weightCharge >= 0.0 && q.distanceCharge >= 0.0
    ensures q.basePrice + q.weightCharge + q.distanceCharge - 0.5 < q.total as real
                <= q.basePrice + q.weightCharge + q.distanceCharge + 0.5
    ensures q.breakdown.base == BaseLine(info.displayName, info.basePrice)
    ensures q.breakdown.weight.Some? <==> weight > info.maxWeight
    ensures q.breakdown.distance.Some? <==> distance > 21.0
  {
    var excess := ExcessWeight(weight, info);
    var weightCharge := WeightCharge(weight, info);
    var distanceCharge := DistanceCharge(distance);
    PriceBreakdown(
      info.basePrice, weightCharge, distanceCharge,
      RoundHalfUp(Subtotal(info, weight, distance)),
      Explanation(
        BaseLine(info.displayName, info.basePrice),
        if excess > 0.0 then Some(WeightLine(excess, weightCharge)) else None,
        if distanceCharge > 0.0 then Some(DistanceLine(distance, distanceCharge)) else None))
  }

  // ---------------------------------------------------------------------------
  // The band walk
  // ---------------------------------------------------------------------------

  /** `rate.max - rate.min + 1`, infinite for the open-ended last band. */
  function Width(r: DistanceRate): Bound {
    match r.max
    case Km(m) => Km(m - r.min + 1)
    case Unbounded => Unbounded
  }

  /** `Math.min(remainingDistance, rate.max - rate.min + 1)`. */
  function InRange(remaining: real, r: DistanceRate): real {
    match Width(r)
    case Km(w) => Min(remaining, w as real)
    case Unbounded => remaining
  }

  /** The kilometres the walk has consumed before it reaches band `i`: the sum
      of the widths of the earlier bands. Because each width counts both of
      its band's bounds, that sum is exactly band `i`'s own `min`. */
  function Consumed(i: nat): (c: int)
    requires i < |DistanceRates|
    ensures c == DistanceRates[i].min
  {
    if i == 0 then 0
    else Consumed(i - 1) + Width(DistanceRates[i - 1]).km
  }

  /** The part of a trip of `d` km that lies in the first `i` bands. */
  function Reach(i: nat, d: real): real
    requires i <= |DistanceRates|
  {
    if i == 0 then 0.0
    else if i < |DistanceRates| then Min(d, Consumed(i) as real)
    else d
  }

  /** Once the remaining distance is used up, or every band has been walked,
      the charge so far is the charge for the whole trip. */
  lemma WalkComplete(i: nat, d: real)
    requires i <= |DistanceRates|
    requires i == |DistanceRates| || d - Reach(i, d) <= 0.0
    ensures DistanceCharge(Reach(i, d)) == DistanceCharge(d)
  {
  }

  /** What one pass of the loop does at band `i` while distance remains:
      the guard `distance > rate.min` holds, so the band is charged; the
      remaining distance drops to the part of the trip beyond band `i`; and
      the charge grows from the closed form at the band's start to the closed
      form at its end. */
  lemma {:induction false} ChargeThroughBand(i: nat, d: real, remaining: real, rate: DistanceRate)
    requires i < |DistanceRates| && rate == DistanceRates[i]
    requires 0.0 < remaining == d - Reach(i, d)
    ensures d > rate.min as real
    ensures remaining - InRange(remaining, rate) == d - Reach(i + 1, d)
    ensures DistanceCharge(Reach(i, d)) + InRange(remaining, rate) * rate.rate as real
              == DistanceCharge(Reach(i + 1, d))
  {
    assert remaining == d - Consumed(i) as real;
    if i < |DistanceRates| - 1 {
      assert Consumed(i + 1) == DistanceRates[i + 1].min;
    }
    if i == 0 {
    } else if i == 1 {
    } else if i == 2 {
    } else if i == 3 {
    } else if i == 4 {
    } else {
      assert i == 5;
    }
  }

  // ---------------------------------------------------------------------------
  // The operations
  // ---------------------------------------------------------------------------

  /** The walk over the distance bands that `calculatePrice` and
      `getPriceBreakdown` both run: stop once no distance remains, take
      `Math.min(remainingDistance, rate.max - rate.min + 1)` km from each band,
      and charge them when `distance > rate.min`. The walk adds up to the
      closed-form charge. */
  method ChargeDistance(distance: real) returns (distanceCharge: real)
    ensures distanceCharge == DistanceCharge(distance)
  {
    distanceCharge := 0.0;
    var remainingDistance := distance;
    for i := 0 to |DistanceRates|
      invariant remainingDistance == distance - Reach(i, distance)
      invariant distanceCharge == DistanceCharge(Reach(i, distance))
    {
      if remainingDistance <= 0.0 {
        WalkComplete(i, distance);
        break;
      }
      var rate := DistanceRates[i];
      ChargeThroughBand(i, distance, remainingDistance, rate);
      var distanceInRange := InRange(remainingDistance, rate);
      if distance > rate.min as real {
        distanceCharge := distanceCharge + distanceInRange * rate.rate as real;
      }
      remainingDistance := remainingDistance - distanceInRange;
    }
  }

  /** `calculatePrice`: the rounded total for the parcel type stored under
      `parcelType`, or an error for a key the catalogue lacks. */
  method CalculatePrice(parcelType: string, weight: real, distance: real) returns (r: Result<int, PricingError>)
    ensures parcelType !in ParcelTypes ==> r == Failure(InvalidParcelType)
    ensures parcelType in ParcelTypes ==> r == Success(Quote(ParcelTypes[parcelType], weight, distance).total)
  {
    if parcelType !in ParcelTypes {
      return Failure(InvalidParcelType);
    }
    var typeInfo := ParcelTypes[parcelType];
    var totalPrice := typeInfo.basePrice;
    var excessWeight := Max(0.0, weight - typeInfo.maxWeight);
    totalPrice := totalPrice + excessWeight * WeightPenalty;

    var distanceCharge := ChargeDistance(distance);
    totalPrice := totalPrice + distanceCharge;
    return Success(RoundHalfUp(totalPrice));
  }

  /** `getPriceBreakdown`: the same computation, returning the unrounded
      parts, the rounded total and the explanation lines. */
  method GetPriceBreakdown(parcelType: string, weight: real, distance: real) returns (r: Result<PriceBreakdown, PricingError>)
    ensures parcelType !in ParcelTypes ==> r == Failure(UndefinedTypeInfo)
    ensures parcelType in ParcelTypes ==> r == Success(Quote(ParcelTypes[parcelType], weight, distance))
  {
    if parcelType !in ParcelTypes {
      return Failure(UndefinedTypeInfo);
    }
    var typeInfo := ParcelTypes[parcelType];
    var basePrice := typeInfo.basePrice;
    var excessWeight := Max(0.0, weight - typeInfo.maxWeight);
    var weightCharge := excessWeight * WeightPenalty;

    var distanceCharge := ChargeDistance(distance);

    var total := basePrice + weightCharge + distanceCharge;
    var explanation := Explanation(
      BaseLine(typeInfo.displayName, basePrice),
      if excessWeight > 0.0 then Some(WeightLine(excessWeight, weightCharge)) else None,
      if distanceCharge > 0.0 then Some(DistanceLine(distance, distanceCharge)) else None);
    return Success(PriceBreakdown(basePrice, weightCharge, distanceCharge, RoundHalfUp(total), explanation));
  }

  /** Both operations fail on the same keys, and where they succeed the price
      `calculatePrice` returns is the total of the breakdown. */
  method PriceAgreesWithBreakdown(parcelType: string, weight: real, distance: real)
    returns (price: Result<int, PricingError>, breakdown: Result<PriceBreakdown, PricingError>)
    ensures price.Failure? <==> parcelType !in ParcelTypes
    ensures breakdown.Failure? <==> parcelType !in ParcelTypes
    ensures price.Success? ==> breakdown.Success? && price.value == breakdown.value.total
  {
    price := CalculatePrice(parcelType, weight, distance);
    breakdown := GetPriceBreakdown(parcelType, weight, distance);
  }

  // ---------------------------------------------------------------------------
  // Properties of the price
  // ---------------------------------------------------------------------------

  /** The catalogue holds exactly the four parcel types, each with a positive
      included weight and a positive base price. */
  lemma CatalogIsParcelTypes()
    ensures ParcelTypes.Keys == set t: ParcelType | true :: t.Key()
    ensures forall k :: k in ParcelTypes ==> ParcelTypes[k].maxWeight > 0.0 && ParcelTypes[k].basePrice > 0.0
  {
    var keys := set t: ParcelType | true :: t.Key();
    assert Documents.Key() in keys && Small.Key() in keys && Medium.Key() in keys && Large.Key() in keys;
    forall k | k in keys ensures k in ParcelTypes {
      var t: ParcelType :| t.Key() == k;
      match t
      case Documents =>
      case Small =>
      case Medium =>
      case Large =>
    }
  }

  /** The bands start at 0, each finite band ends one kilometre before the
      next begins, only the last band is open-ended, and all rates are
      non-negative. */
  lemma DistanceRatesContiguous()
    ensures DistanceRates[0].min == 0
    ensures forall i :: 0 < i < |DistanceRates| ==> DistanceRates[i - 1].max == Km(DistanceRates[i].min - 1)
    ensures DistanceRates[|DistanceRates| - 1].max == Unbounded
    ensures forall i :: 0 <= i < |DistanceRates| ==> DistanceRates[i].rate >= 0
  {
  }

  /** The weight charge is 40 KES per kilogram above the included weight and
      nothing at or below it, zero and negative weights included. */
  lemma WeightChargeIsPenaltyOnExcess(weight: real, info: ParcelTypeInfo)
    ensures weight <= info.maxWeight ==> WeightCharge(weight, info) == 0.0
    ensures weight > info.maxWeight ==> WeightCharge(weight, info) == 40.0 * (weight - info.maxWeight)
  {
  }

  /** The distance charge never decreases as the distance grows, and it grows
      by at most the highest rate, 10 KES, per kilometre: there is no jump at
      a band boundary. */
  lemma DistanceChargeMonotone(d1: real, d2: real)
    requires d1 <= d2
    ensures DistanceCharge(d1) <= DistanceCharge(d2) <= DistanceCharge(d1) + 10.0 * (d2 - d1)
  {
  }

  /** Rounding half up preserves order. */
  lemma RoundHalfUpMonotone(x: real, y: real)
    requires x <= y
    ensures RoundHalfUp(x) <= RoundHalfUp(y)
  {
  }

  /** A longer trip never costs less. */
  lemma TotalMonotoneInDistance(info: ParcelTypeInfo, weight: real, d1: real, d2: real)
    requires d1 <= d2
    ensures Quote(info, weight, d1).total <= Quote(info, weight, d2).total
  {
    DistanceChargeMonotone(d1, d2);
    RoundHalfUpMonotone(Subtotal(info, weight, d1), Subtotal(info, weight, d2));
  }

  /** A heavier parcel never costs less. */
  lemma TotalMonotoneInWeight(info: ParcelTypeInfo, w1: real, w2: real, distance: real)
    requires w1 <= w2
    ensures Quote(info, w1, distance).total <= Quote(info, w2, distance).total
  {
    assert WeightCharge(w1, info) <= WeightCharge(w2, info);
    RoundHalfUpMonotone(Subtotal(info, w1, distance), Subtotal(info, w2, distance));
  }

  /** Within the included weight and the first 21 km the customer pays the
      base price and nothing more. */
  lemma FreeAllowance(parcelType: string, weight: real, distance: real)
    requires parcelType in ParcelTypes
    requires weight <= ParcelTypes[parcelType].maxWeight && distance <= 21.0
    ensures Quote(ParcelTypes[parcelType], weight, distance).total as real == ParcelTypes[parcelType].basePrice
  {
  }

  /** Concrete prices: the distance charge of 480 km is 2416 KES and that of
      150 km is 994 KES. */
  lemma WorkedExamples()
    ensures Quote(ParcelTypes["small"], 3.0, 10.0).total == 200
    ensures Quote(ParcelTypes["small"], 7.0, 10.0).total == 280
    ensures Quote(ParcelTypes["documents"], 0.5, 480.0).total == 2616
    ensures Quote(ParcelTypes["medium"], 10.0, 150.0).total == 1244
    ensures Quote(ParcelTypes["large"], 30.0, 0.0).total == 350
  {
  }
}
