/**
  The four summary cards at the top of the page, as numbers (the locale
  formatting that turns them into text is not modelled).
 */
module SummaryCards {
  import opened DashboardTypes
  import opened Sums
  import opened TotalStats
  import opened TotalAchievements

  /** An "achieved of target" card. */
  datatype Progress = Progress(achieved: real, target: real)

  datatype Cards = Cards(
    overallArea: real,      // "Luas Keseluruhan"
    monokultur: Progress,   // "Monokultur"
    tumpangSari: Progress,  // "Tumpang Sari"
    overall: Progress)      // "Total Capaian"

  /** The card values the page derives from the two aggregates. */
  function CardsOf(stats: Totals, ach: Achievements): Cards
  {
    Cards(
      stats.totalArea + stats.otherTotalArea,
      Progress(ach.monokulturAchievement, stats.monokulturTarget),
      Progress(ach.tumpangSariAchievement, stats.tumpangSariTarget),
      Progress(ach.monokulturAchievement + ach.tumpangSariAchievement + ach.csrAchievement,
               stats.monokulturTarget + stats.tumpangSariTarget))
  }

  /** The cards for a list of cities, in terms of per-city sums. */
  function DashboardCards(cities: seq<City>): (r: Cards)
    ensures r.overallArea == SumBy(cities, StatOf(TotalArea)) + SumBy(cities, StatOf(OtherTotalArea))
    ensures r.monokultur == Progress(SumBy(cities, CityValue(Monokultur)), SumBy(cities, StatOf(MonokulturTarget)))
    ensures r.tumpangSari == Progress(SumBy(cities, CityValue(TumpangSari)), SumBy(cities, StatOf(TumpangSariTarget)))
    ensures r.overall.achieved
         == SumBy(cities, CityValue(Monokultur)) + SumBy(cities, CityValue(TumpangSari)) + SumBy(cities, CityValue(Csr))
    ensures r.overall.target == r.monokultur.target + r.tumpangSari.target
  {
    var stats := GetTotalStats(cities);
    var ach := GetTotalAchievements(cities);
    assert stats.Get(TotalArea) == stats.totalArea && stats.Get(OtherTotalArea) == stats.otherTotalArea;
    assert stats.Get(MonokulturTarget) == stats.monokulturTarget && stats.Get(TumpangSariTarget) == stats.tumpangSariTarget;
    assert ach.Get(Monokultur) == ach.monokulturAchievement && ach.Get(TumpangSari) == ach.tumpangSariAchievement;
    assert ach.Get(Csr) == ach.csrAchievement;
    CardsOf(stats, ach)
  }

  /** The overall target is the single-crop plus the intercropped target: no city's `totalTarget` affects any card. */
  lemma CardsIgnoreTotalTarget(a: seq<City>, b: seq<City>)
    requires |a| == |b|
    requires forall i :: 0 <= i < |a| ==> a[i] == b[i].(totalTarget := a[i].totalTarget)
    ensures DashboardCards(a) == DashboardCards(b)
  {
    forall f | f != TotalTarget ensures SumBy(a, StatOf(f)) == SumBy(b, StatOf(f)) {
      SumByPointwise(a, b, StatOf(f), StatOf(f));
    }
    forall cat ensures SumBy(a, CityValue(cat)) == SumBy(b, CityValue(cat)) {
      forall i | 0 <= i < |a| ensures CityValue(cat)(a[i]) == CityValue(cat)(b[i]) {
        assert AllCompanies(a[i]) == AllCompanies(b[i]);
      }
      SumByPointwise(a, b, CityValue(cat), CityValue(cat));
    }
  }

  /** CSR achievements count toward the overall card although no target covers them. */
  lemma OverallAchievementIncludesCsr(cities: seq<City>)
    ensures DashboardCards(cities).overall.achieved
         == DashboardCards(cities).monokultur.achieved + DashboardCards(cities).tumpangSari.achieved
            + GetTotalAchievements(cities).csrAchievement
  {
    assert GetTotalAchievements(cities).Get(Csr) == GetTotalAchievements(cities).csrAchievement;
  }

  /** With non-negative records the overall achievement is at least the two crop achievements together. */
  lemma OverallAchievementAtLeastCrops(cities: seq<City>)
    requires forall i :: 0 <= i < |cities| ==> NonNegativeCompanies(cities[i])
    ensures DashboardCards(cities).overall.achieved
         >= DashboardCards(cities).monokultur.achieved + DashboardCards(cities).tumpangSari.achieved
  {
    OverallAchievementIncludesCsr(cities);
    TotalAchievementsNonNegative(cities);
    assert GetTotalAchievements(cities).Get(Csr) == GetTotalAchievements(cities).csrAchievement;
  }

  /** For a single city the overall target is its single-crop plus intercropped target, while its combined target goes unused. */
  lemma SingleCityOverallTarget(c: City)
    ensures DashboardCards([c]).overall.target == c.monokulturTarget + c.tumpangSariTarget
    ensures GetTotalStats([c]).totalTarget == c.totalTarget
  {
    TotalStatsAppend([], c);
    assert [] + [c] == [c];
  }
}
