/**
  The FlyTaxi fare calculator: a car-class name and a trip distance give an
  integer price. Up to the included two kilometres the price is the class's
  starting fee; beyond that each kilometre (or fraction of one) is charged at
  the class's rate and the sum is truncated to a whole amount.

  The distance is a Python float in the calculator; here it is an exact real.
  The calculator does not reject negative distances (they take the
  starting-fee branch), so neither does the model.
 */
module Pricing {
  import opened Tariffs

  /** Python's `int()` on a number: rounding toward zero. */
  function Trunc(x: real): (n: int)
    ensures 0.0 <= x ==> n as real <= x < n as real + 1.0
    ensures x <= 0.0 ==> n as real - 1.0 < x <= n as real
  {
    if x >= 0.0 then x.Floor else -((-x).Floor)
  }

  /** `calculate_price(car_class, distance_km)`. */
  function CalculatePrice(carClass: string, distanceKm: real): (price: int)
    ensures distanceKm <= IncludedKm ==> price == TariffFor(carClass).pickupFee
    ensures IncludedKm < distanceKm ==>
      var raw := TariffFor(carClass).pickupFee as real + (distanceKm - IncludedKm) * TariffFor(carClass).perKmRate as real;
      price as real <= raw < price as real + 1.0
  {
    var t := TariffFor(carClass);
    if distanceKm <= IncludedKm then
      t.pickupFee
    else
      var extraKm := distanceKm - IncludedKm;
      Trunc(t.pickupFee as real + extraKm * t.perKmRate as real)
  }

  /** Distance charged beyond the starting fee: never negative. */
  function BillableKm(distanceKm: real): (b: real)
    ensures 0.0 <= b
    ensures b == 0.0 <==> distanceKm <= IncludedKm
    ensures IncludedKm < distanceKm ==> b + IncludedKm == distanceKm
  {
    if distanceKm <= IncludedKm then 0.0 else distanceKm - IncludedKm
  }

  /** The undiscounted fare: starting fee plus billable distance at the rate. */
  function RawFare(t: Tariff, distanceKm: real): (fare: real)
  {
    t.pickupFee as real + BillableKm(distanceKm) * t.perKmRate as real
  }

  /** `price` is the whole part of the fare a tariff charges for a distance. */
  ghost predicate IsFare(t: Tariff, distanceKm: real, price: int)
  {
    price as real <= RawFare(t, distanceKm) < price as real + 1.0
  }

  /** Truncation is the floor on non-negative values, so `int()` never rounds up here. */
  lemma TruncIsFloorWhenNonNegative(x: real)
    requires 0.0 <= x
    ensures Trunc(x) == x.Floor
  {
  }

  /**
    The calculator returns exactly the whole part of the raw fare: the
    price is a fare, and no other integer is.
   */
  lemma PriceIsTheFare(carClass: string, distanceKm: real, price: int)
    ensures IsFare(TariffFor(carClass), distanceKm, price) <==> price == CalculatePrice(carClass, distanceKm)
  {
    var t := TariffFor(carClass);
    var p := CalculatePrice(carClass, distanceKm);
    if distanceKm <= IncludedKm {
      assert RawFare(t, distanceKm) == t.pickupFee as real;
    } else {
      assert RawFare(t, distanceKm) == t.pickupFee as real + (distanceKm - IncludedKm) * t.perKmRate as real;
    }
    assert IsFare(t, distanceKm, p);
    if IsFare(t, distanceKm, price) {
      FareIsUnique(t, distanceKm, price, p);
    }
  }

  /** Two integers within one unit below the same value are equal. */
  lemma FareIsUnique(t: Tariff, distanceKm: real, p: int, q: int)
    requires IsFare(t, distanceKm, p) && IsFare(t, distanceKm, q)
    ensures p == q
  {
  }

  /** Within the included distance the price is the class's starting fee, with no per-km charge. */
  lemma StartingFeeWithinIncludedKm(c: CarClass, distanceKm: real)
    requires distanceKm <= IncludedKm
    ensures CalculatePrice(Name(c), distanceKm) == Rates(c).pickupFee
  {
    TariffForKnownClass(c);
  }

  /** A name that is not a car class is priced exactly as "Стандарт". */
  lemma UnknownClassPricedAsStandard(name: string, distanceKm: real)
    requires ClassNamed(name).None?
    ensures CalculatePrice(name, distanceKm) == CalculatePrice(Name(Standard), distanceKm)
  {
    TariffForUnknownName(name);
    TariffForKnownClass(Standard);
  }

  /** The price never drops below the class's starting fee. */
  lemma PriceAtLeastStartingFee(carClass: string, distanceKm: real)
    ensures CalculatePrice(carClass, distanceKm) >= TariffFor(carClass).pickupFee
  {
    if IncludedKm < distanceKm {
      var t := TariffFor(carClass);
      var extra := (distanceKm - IncludedKm) * t.perKmRate as real;
      assert 0.0 <= extra;
      FloorMonotone(t.pickupFee as real, t.pickupFee as real + extra);
    }
  }

  /** The floor of a larger value is at least the floor of a smaller one. */
  lemma FloorMonotone(x: real, y: real)
    requires x <= y
    ensures x.Floor <= y.Floor
  {
  }

  /** A longer trip never costs less, including across the 2 km boundary. */
  lemma MonotoneInDistance(carClass: string, d1: real, d2: real)
    requires d1 <= d2
    ensures CalculatePrice(carClass, d1) <= CalculatePrice(carClass, d2)
  {
    var t := TariffFor(carClass);
    if IncludedKm < d1 {
      ScaleMonotone(d1 - IncludedKm, d2 - IncludedKm, t.perKmRate as real);
      FloorMonotone(t.pickupFee as real + (d1 - IncludedKm) * t.perKmRate as real,
                    t.pickupFee as real + (d2 - IncludedKm) * t.perKmRate as real);
    } else {
      PriceAtLeastStartingFee(carClass, d2);
    }
  }

  /** Multiplying by a non-negative rate keeps the order of distances. */
  lemma ScaleMonotone(a: real, b: real, k: real)
    requires a <= b && 0.0 <= k
    ensures a * k <= b * k
  {
    assert b * k - a * k == (b - a) * k;
  }

  /**
    There is no jump at the boundary: just past 2 km, until the charged
    distance reaches one whole currency unit, the price is still the starting fee.
   */
  lemma ContinuousAtBoundary(carClass: string, distanceKm: real)
    requires IncludedKm < distanceKm
    requires (distanceKm - IncludedKm) * TariffFor(carClass).perKmRate as real < 1.0
    ensures CalculatePrice(carClass, distanceKm) == CalculatePrice(carClass, IncludedKm)
  {
  }

  /** For a whole number of kilometres beyond 2 nothing is truncated. */
  lemma WholeKilometres(c: CarClass, n: int)
    requires 2 < n
    ensures CalculatePrice(Name(c), n as real) == Rates(c).pickupFee + (n - 2) * Rates(c).perKmRate
  {
    TariffForKnownClass(c);
    var t := Rates(c);
    assert t.pickupFee as real + (n as real - IncludedKm) * t.perKmRate as real
        == (t.pickupFee + (n - 2) * t.perKmRate) as real;
  }

  /** A "Стандарт" ride of 10 km costs 120 + 8 * 20 = 280. */
  lemma TenKilometresStandard()
    ensures CalculatePrice("Стандарт", 10.0) == 280
  {
    WholeKilometres(Standard, 10);
  }

  /** From 2 km on, every further kilometre adds exactly the class's rate. */
  lemma ExtraKilometreAddsRate(carClass: string, distanceKm: real)
    requires IncludedKm <= distanceKm
    ensures CalculatePrice(carClass, distanceKm + 1.0) == CalculatePrice(carClass, distanceKm) + TariffFor(carClass).perKmRate
  {
    var t := TariffFor(carClass);
    var x := t.pickupFee as real + (distanceKm - IncludedKm) * t.perKmRate as real;
    assert t.pickupFee as real + (distanceKm + 1.0 - IncludedKm) * t.perKmRate as real == x + t.perKmRate as real;
    FloorShift(x, t.perKmRate);
  }

  /** Adding a whole number shifts the floor by that number. */
  lemma FloorShift(x: real, k: int)
    ensures (x + k as real).Floor == x.Floor + k
  {
  }

  /**
    A kilometre-by-kilometre meter: the starting fee, plus the rate for each
    of `n` whole kilometres driven past the included distance.
   */
  function MeterAfter(t: Tariff, n: nat): (total: int)
    ensures total == t.pickupFee + n * t.perKmRate
  {
    if n == 0 then t.pickupFee else MeterAfter(t, n - 1) + t.perKmRate
  }

  /**
    The calculator agrees with the meter: a trip of 2 km, `n` whole kilometres
    and a fraction `f` of one more costs the meter's total after `n` kilometres
    plus the truncated charge for the fraction.
   */
  lemma {:induction false} MeterMatchesPrice(carClass: string, n: nat, f: real)
    requires 0.0 <= f < 1.0
    ensures CalculatePrice(carClass, IncludedKm + n as real + f)
         == MeterAfter(TariffFor(carClass), n) + Trunc(f * TariffFor(carClass).perKmRate as real)
  {
    if n > 0 {
      MeterMatchesPrice(carClass, n - 1, f);
      ExtraKilometreAddsRate(carClass, IncludedKm + (n - 1) as real + f);
      assert IncludedKm + (n - 1) as real + f + 1.0 == IncludedKm + n as real + f;
    }
  }

  /** At any distance, a higher class never costs less: Стандарт <= Комфорт <= Бізнес. */
  lemma ClassesOrdered(distanceKm: real)
    ensures CalculatePrice(Name(Standard), distanceKm) <= CalculatePrice(Name(Comfort), distanceKm)
    ensures CalculatePrice(Name(Comfort), distanceKm) <= CalculatePrice(Name(Business), distanceKm)
  {
    var s, c, b := Rates(Standard), Rates(Comfort), Rates(Business);
    TariffForKnownClass(Standard);
    TariffForKnownClass(Comfort);
    TariffForKnownClass(Business);
    RatesOrdered();
    if IncludedKm < distanceKm {
      var e := distanceKm - IncludedKm;
      ScaleMonotone(s.perKmRate as real, c.perKmRate as real, e);
      ScaleMonotone(c.perKmRate as real, b.perKmRate as real, e);
      FloorMonotone(s.pickupFee as real + e * s.perKmRate as real, c.pickupFee as real + e * c.perKmRate as real);
      FloorMonotone(c.pickupFee as real + e * c.perKmRate as real, b.pickupFee as real + e * b.perKmRate as real);
    }
  }
}
