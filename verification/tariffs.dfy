/**
  The static tariff table of the FlyTaxi fare calculator.

  The calculator keeps two dictionaries keyed by the car-class name: the
  starting fee (which covers the first two kilometres) and the rate for every
  kilometre beyond that. A name missing from a dictionary is looked up with a
  default, and the two defaults happen to be the "Стандарт" values. This
  module models the dictionaries as written, and next to them an independent
  reference table over an enumerated class type, so that lemmas can connect
  the two.
 */
module Tariffs {

  datatype Option<T> = None | Some(value: T)

  /** The price parameters of one car class, in whole currency units. */
  datatype Tariff = Tariff(pickupFee: nat, perKmRate: nat)

  /** The three car classes the service offers. */
  datatype CarClass = Standard | Comfort | Business

  /** Distance, in kilometres, covered by the starting fee. */
  const IncludedKm: real := 2.0

  /** The starting-fee dictionary, keyed by class name. */
  const PickupFees: map<string, nat> := map["Стандарт" := 120, "Комфорт" := 150, "Бізнес" := 180]

  /** The per-kilometre dictionary, keyed by class name. */
  const PerKmRates: map<string, nat> := map["Стандарт" := 20, "Комфорт" := 25, "Бізнес" := 27]

  /** The defaults passed to the two dictionary lookups. */
  const DefaultPickupFee: nat := 120
  const DefaultPerKmRate: nat := 20

  /** A dictionary lookup with a default, as Python's `dict.get(key, default)`. */
  function GetOr(m: map<string, nat>, key: string, default: nat): (v: nat)
  {
    if key in m then m[key] else default
  }

  /**
    The tariff the calculator uses for a class name: two independent lookups,
    which together give the class's row, or the "Стандарт" row for any other name.
   */
  function TariffFor(carClass: string): (t: Tariff)
    ensures t == Rates(match ClassNamed(carClass) case Some(c) => c case None => Standard)
  {
    Tariff(GetOr(PickupFees, carClass, DefaultPickupFee), GetOr(PerKmRates, carClass, DefaultPerKmRate))
  }

  /** The name under which each class appears in the dictionaries. */
  function Name(c: CarClass): (name: string)
  {
    match c
    case Standard => "Стандарт"
    case Comfort => "Комфорт"
    case Business => "Бізнес"
  }

  /** The class a name denotes, if any. */
  function ClassNamed(name: string): (r: Option<CarClass>)
    ensures r.Some? ==> Name(r.value) == name
    ensures r.None? ==> forall c: CarClass :: Name(c) != name
  {
    if name == "Стандарт" then Some(Standard)
    else if name == "Комфорт" then Some(Comfort)
    else if name == "Бізнес" then Some(Business)
    else None
  }

  /** Reference tariff table, one row per class. */
  function Rates(c: CarClass): (t: Tariff)
  {
    match c
    case Standard => Tariff(120, 20)
    case Comfort => Tariff(150, 25)
    case Business => Tariff(180, 27)
  }

  /** Names and classes correspond one to one. */
  lemma NameRoundTrip(c: CarClass, name: string)
    ensures ClassNamed(Name(c)) == Some(c)
    ensures ClassNamed(name) == Some(c) <==> name == Name(c)
  {
  }

  /** Both dictionaries are keyed by exactly the three class names. */
  lemma DictionariesCoverExactlyTheClasses(name: string)
    ensures name in PickupFees <==> ClassNamed(name).Some?
    ensures name in PerKmRates <==> ClassNamed(name).Some?
  {
  }

  /** The dictionaries hold the reference table: a known name gets its class's row. */
  lemma TariffForKnownClass(c: CarClass)
    ensures TariffFor(Name(c)) == Rates(c)
  {
  }

  /** A name that is not a class gets the "Стандарт" row from the two defaults. */
  lemma TariffForUnknownName(name: string)
    requires ClassNamed(name).None?
    ensures TariffFor(name) == Rates(Standard)
  {
  }

  /** Every name, known or not, is priced by the row of some class. */
  lemma TariffForIsATableRow(name: string)
    ensures TariffFor(name) == Rates(match ClassNamed(name) case Some(c) => c case None => Standard)
  {
    match ClassNamed(name)
    case Some(c) => TariffForKnownClass(c);
    case None => TariffForUnknownName(name);
  }

  /** Fees and rates both rise from Стандарт to Комфорт to Бізнес. */
  lemma RatesOrdered()
    ensures Rates(Standard).pickupFee <= Rates(Comfort).pickupFee <= Rates(Business).pickupFee
    ensures Rates(Standard).perKmRate <= Rates(Comfort).perKmRate <= Rates(Business).perKmRate
  {
  }
}
