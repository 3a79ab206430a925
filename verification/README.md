# FlyTaxi fare calculator — a Dafny model

FlyTaxi is a Telegram taxi-ordering bot. Its fare calculator,
`calculate_price(car_class, distance_km)` in `cd.py`, turns a car-class name
and a trip distance into an integer price:

- each class has a starting fee that covers the first 2 km
  (Стандарт 120, Комфорт 150, Бізнес 180);
- every kilometre beyond 2 km is charged at a per-class rate
  (Стандарт 20, Комфорт 25, Бізнес 27), fractions of a kilometre included;
- the sum is converted to an integer with Python's `int()`, which truncates;
- a class name that is in neither dictionary is looked up with the defaults
  120 and 20, i.e. it is priced as Стандарт.

The model has two modules:

- `Tariffs` (`tariffs.dfy`): the two dictionaries exactly as written, the
  `dict.get` lookups with their defaults (`TariffFor`), and next to them an
  independent reference table over an enumerated `CarClass` (`Rates`), with
  lemmas that connect the two.
- `Pricing` (`pricing.dfy`): `CalculatePrice`, Python's `int()` as `Trunc`
  (rounding toward zero, written out), a reference definition of the fare
  (`IsFare`: the price is the whole part of starting fee plus billable
  distance times rate) and the lemmas about the price: the fare
  characterisation, the floor, monotonicity, the boundary, whole-kilometre
  prices, the fallback and the ordering of classes.

The distance is a Python `float`; here it is an exact `real`. The calculator
does not reject negative distances (they take the `<= 2` branch and cost the
starting fee), so the model takes any real distance.

An unknown class name is not an error here: the calculator silently prices
it as Стандарт. A design in which only validated class names reach the
calculator would reject such a name earlier; the model follows the code.

## Model

| member | source | states |
|---|---|---|
| Pricing.CalculatePrice | cd.py:4-18 | up to 2 km the price is the class's starting fee; beyond 2 km the price is the integer `r` with `r <= fee + (d - 2) * rate < r + 1` |
| Pricing.Trunc | cd.py:18 | `int()` rounds toward zero: for `x >= 0` the result is the greatest integer not above `x`, for `x <= 0` the least integer not below `x` |
| Pricing.TruncIsFloorWhenNonNegative | cd.py:18 | on non-negative values truncation equals the floor |
| Pricing.PriceIsTheFare | cd.py:11-18 | an integer is the calculator's price exactly when it is the whole part of starting fee plus `max(0, d - 2)` times the rate (both directions) |
| Pricing.StartingFeeWithinIncludedKm | cd.py:14-15 | for every class and every distance up to 2 km the price is that class's starting fee (120 / 150 / 180) |
| Pricing.UnknownClassPricedAsStandard | cd.py:11-12 | a name that is not one of the three classes is priced exactly as Стандарт at every distance |
| Pricing.PriceAtLeastStartingFee | cd.py:11-18 | for every class name and every distance the price is at least the starting fee the name is looked up to |
| Pricing.MonotoneInDistance | cd.py:14-18 | for a fixed class name a longer distance never gives a lower price, across the 2 km boundary too |
| Pricing.ContinuousAtBoundary | cd.py:14-18 | just past 2 km, while the per-km charge is under one unit, the price equals the price at 2 km: the two branches meet |
| Pricing.WholeKilometres | cd.py:16-18 | for a whole number `n > 2` of kilometres the price is exactly `fee + (n - 2) * rate`, nothing truncated |
| Pricing.TenKilometresStandard | cd.py:16-18 | a Стандарт ride of 10 km costs 280 |
| Pricing.ExtraKilometreAddsRate | cd.py:16-18 | from 2 km on, one more kilometre adds exactly the class's per-km rate to the price |
| Pricing.BillableKm | cd.py:14-17 | the distance charged per kilometre is never negative, is zero exactly when the trip is within 2 km, and is the excess over 2 km otherwise |
| Pricing.MeterAfter | cd.py:16-18 | a meter that starts at the starting fee and adds the class's rate for each whole kilometre past 2 km shows exactly `fee + n * rate` after `n` kilometres |
| Pricing.MeterMatchesPrice | cd.py:14-18 | for `n` whole kilometres and a fraction `f` past 2 km, the price equals the meter's total after `n` kilometres plus the truncated charge for `f` |
| Pricing.ClassesOrdered | cd.py:6-18 | at any equal distance Стандарт costs no more than Комфорт, and Комфорт no more than Бізнес |
| Tariffs.TariffFor | cd.py:11-12 | the two lookups give a class name its own row of the table and every other name the Стандарт row (120, 20) |
| Tariffs.ClassNamed | cd.py:6-9 | a name denotes a class exactly when it is that class's dictionary key; otherwise it is no class's name |
| Tariffs.NameRoundTrip | cd.py:6-9 | class names and classes correspond one to one |
| Tariffs.DictionariesCoverExactlyTheClasses | cd.py:6-9 | both dictionaries are keyed by exactly the three class names |
| Tariffs.TariffForKnownClass | cd.py:6-12 | the dictionaries hold the fixed table Стандарт (120, 20), Комфорт (150, 25), Бізнес (180, 27) |
| Tariffs.TariffForUnknownName | cd.py:11-12 | a name that is no class gets fee 120 and rate 20, the Стандарт row |
| Tariffs.TariffForIsATableRow | cd.py:6-12 | every name, known or not, is priced by a row of the table |
| Tariffs.RatesOrdered | cd.py:6-9 | fees and rates both rise from Стандарт to Комфорт to Бізнес |

## Left out

- `main.py`: the aiogram bot and dispatcher, the `/start` handler with its fixed greeting, and the polling loop are network I/O with no pricing logic.
- Reading `BOT_TOKEN` from the environment is process configuration.
- IEEE-754 rounding of `distance_km` and of `pickup + extra_km * per_km`: the model computes exactly in the reals, so a float sum that lands just below a whole number (and truncates one unit lower) is not reproduced, and neither is one that lands at or just above a whole number when the exact fare lies just below it (and truncates one unit higher). NaN and infinite distances are not modelled, nor is a finite distance so large (above roughly 6.7e306 km) that the fare overflows to infinity and `int()` raises `OverflowError`; the model returns an integer price for every real distance.
- The ride-ordering state machine, surge and curfew windows, the rating ledger and the rider profile store are not part of the calculator and are not part of this model; `calculate_price` takes no surge multiplier.
