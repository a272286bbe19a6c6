/**
  The page's `getTotalStats`: one pass over the cities that adds up five
  figures of each city, starting from all zeros.
 */
module TotalStats {
  import opened DashboardTypes
  import opened Sums

  /** The five figures `getTotalStats` returns. */
  datatype Totals = Totals(
    totalArea: real,
    otherTotalArea: real,
    monokulturTarget: real,
    tumpangSariTarget: real,
    totalTarget: real)
  {
    function Get(f: StatField): real
    {
      match f
      case TotalArea => totalArea
      case OtherTotalArea => otherTotalArea
      case MonokulturTarget => monokulturTarget
      case TumpangSariTarget => tumpangSariTarget
      case TotalTarget => totalTarget
    }
  }

  /** Names for the five summed figures, so that statements can range over them. */
  datatype StatField = TotalArea | OtherTotalArea | MonokulturTarget | TumpangSariTarget | TotalTarget

  /** The figure of one city that field `f` sums. */
  function CityStat(c: City, f: StatField): real
  {
    match f
    case TotalArea => c.totalArea
    case OtherTotalArea => c.otherTotalArea
    case MonokulturTarget => c.monokulturTarget
    case TumpangSariTarget => c.tumpangSariTarget
    case TotalTarget => c.totalTarget
  }

  /** `CityStat` for a fixed field, as a function value for `SumBy`. */
  function StatOf(f: StatField): City -> real
  {
    (c: City) => CityStat(c, f)
  }

  /** The reduce's initial accumulator. */
  const ZeroTotals := Totals(0.0, 0.0, 0.0, 0.0, 0.0)

  /** The reducer: adds one city's figures to the accumulator. */
  function AddCity(acc: Totals, c: City): (r: Totals)
    ensures forall f :: r.Get(f) == acc.Get(f) + CityStat(c, f)
  {
    Totals(
      acc.totalArea + c.totalArea,
      acc.otherTotalArea + c.otherTotalArea,
      acc.monokulturTarget + c.monokulturTarget,
      acc.tumpangSariTarget + c.tumpangSariTarget,
      acc.totalTarget + c.totalTarget)
  }

  /** `reduce` as JavaScript runs it: left to right, threading the accumulator. */
  function FoldCities(acc: Totals, cities: seq<City>): Totals
    decreases |cities|
  {
    if |cities| == 0 then acc else FoldCities(AddCity(acc, cities[0]), cities[1..])
  }

  /** The left fold leaves each field at its start value plus that field's sum over the cities. */
  lemma {:induction false} FoldCitiesSums(acc: Totals, cities: seq<City>)
    ensures forall f :: FoldCities(acc, cities).Get(f) == acc.Get(f) + SumBy(cities, StatOf(f))
    decreases |cities|
  {
    if |cities| > 0 {
      FoldCitiesSums(AddCity(acc, cities[0]), cities[1..]);
      forall f ensures FoldCities(acc, cities).Get(f) == acc.Get(f) + SumBy(cities, StatOf(f)) {
        assert StatOf(f)(cities[0]) == CityStat(cities[0], f);
      }
    }
  }

  /** `getTotalStats`: each of the five fields is the sum of that same field over all cities. */
  function GetTotalStats(cities: seq<City>): (r: Totals)
    ensures forall f :: r.Get(f) == SumBy(cities, StatOf(f))
  {
    FoldCitiesSums(ZeroTotals, cities);
    FoldCities(ZeroTotals, cities)
  }

  /** No cities, all five totals zero. */
  lemma TotalStatsOfNoCities()
    ensures GetTotalStats([]) == ZeroTotals
    ensures forall f :: GetTotalStats([]).Get(f) == 0.0
  {
  }

  /** Two totals that agree on every field are the same record. */
  lemma TotalsExtensional(a: Totals, b: Totals)
    requires forall f :: a.Get(f) == b.Get(f)
    ensures a == b
  {
    assert a.Get(TotalArea) == b.Get(TotalArea);
    assert a.Get(OtherTotalArea) == b.Get(OtherTotalArea);
    assert a.Get(MonokulturTarget) == b.Get(MonokulturTarget);
    assert a.Get(TumpangSariTarget) == b.Get(TumpangSariTarget);
    assert a.Get(TotalTarget) == b.Get(TotalTarget);
  }

  /** Appending one city adds exactly that city's five figures, field by field. */
  lemma TotalStatsAppend(cities: seq<City>, c: City)
    ensures GetTotalStats(cities + [c]) == AddCity(GetTotalStats(cities), c)
  {
    forall f ensures GetTotalStats(cities + [c]).Get(f) == AddCity(GetTotalStats(cities), c).Get(f) {
      SumBySnoc(cities, c, StatOf(f));
    }
    TotalsExtensional(GetTotalStats(cities + [c]), AddCity(GetTotalStats(cities), c));
  }

  /** One field's total depends on that field of each city and on nothing else. */
  lemma TotalStatsFieldIndependent(a: seq<City>, b: seq<City>, f: StatField)
    requires |a| == |b|
    requires forall i :: 0 <= i < |a| ==> CityStat(a[i], f) == CityStat(b[i], f)
    ensures GetTotalStats(a).Get(f) == GetTotalStats(b).Get(f)
  {
    SumByPointwise(a, b, StatOf(f), StatOf(f));
  }

  /** Reordering the cities changes none of the five totals. */
  lemma TotalStatsPermutation(a: seq<City>, b: seq<City>)
    requires multiset(a) == multiset(b)
    ensures GetTotalStats(a) == GetTotalStats(b)
  {
    forall f ensures GetTotalStats(a).Get(f) == GetTotalStats(b).Get(f) {
      SumByPermutation(a, b, StatOf(f));
    }
    TotalsExtensional(GetTotalStats(a), GetTotalStats(b));
  }

  /** All five figures of a city are non-negative, as the dataset promises. */
  predicate NonNegativeCity(c: City)
  {
    c.totalArea >= 0.0 && c.otherTotalArea >= 0.0 && c.monokulturTarget >= 0.0
    && c.tumpangSariTarget >= 0.0 && c.totalTarget >= 0.0
  }

  /** With non-negative figures every total is non-negative. */
  lemma TotalStatsNonNegative(cities: seq<City>)
    requires forall i :: 0 <= i < |cities| ==> NonNegativeCity(cities[i])
    ensures forall f :: GetTotalStats(cities).Get(f) >= 0.0
  {
    forall f ensures GetTotalStats(cities).Get(f) >= 0.0 {
      assert forall i :: 0 <= i < |cities| ==> StatOf(f)(cities[i]) == CityStat(cities[i], f);
      SumByNonNegative(cities, StatOf(f));
    }
  }

  /** Inserting a city with non-negative figures anywhere in the list never decreases a total. */
  lemma TotalStatsInsertMonotone(cities: seq<City>, i: nat, c: City)
    requires i <= |cities|
    requires NonNegativeCity(c)
    ensures forall f :: GetTotalStats(cities[..i] + [c] + cities[i..]).Get(f) >= GetTotalStats(cities).Get(f)
  {
    var grown := cities[..i] + [c] + cities[i..];
    assert cities == cities[..i] + cities[i..];
    assert multiset(grown) == multiset(cities + [c]);
    TotalStatsPermutation(grown, cities + [c]);
    TotalStatsAppend(cities, c);
  }
}
