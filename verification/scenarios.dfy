/**
  Small worked datasets and the aggregates the model gives them.
 */
module Scenarios {
  import opened DashboardTypes
  import opened TotalStats
  import opened TotalAchievements
  import opened SummaryCards

  function Plain(id: int, companies: seq<Company>, others: Option<seq<Company>>, area: real, mono: real, total: real): City
  {
    City(id, "", area, 0.0, mono, 0.0, total, companies, others)
  }

  function WithMonokultur(id: int, rec: Option<AchievementRecord>): Company
  {
    Company(id, "", rec, None, None)
  }

  /** Two cities of area 50.75 and 20.0 with single-crop targets 10 and 5 total 70.75 and 15. */
  lemma TwoCityTotals()
    ensures GetTotalStats([Plain(1, [], None, 50.75, 10.0, 0.0), Plain(2, [], None, 20.0, 5.0, 0.0)]).totalArea == 70.75
    ensures GetTotalStats([Plain(1, [], None, 50.75, 10.0, 0.0), Plain(2, [], None, 20.0, 5.0, 0.0)]).monokulturTarget == 15.0
  {
    var cities := [Plain(1, [], None, 50.75, 10.0, 0.0), Plain(2, [], None, 20.0, 5.0, 0.0)];
    TotalStatsAppend([cities[0]], cities[1]);
    TotalStatsAppend([], cities[0]);
    assert [cities[0]] + [cities[1]] == cities;
    assert [] + [cities[0]] == [cities[0]];
  }

  /** A company with 8 and an other company with 2 for period "III" give a single-crop achievement of 10. */
  lemma CompanyAndOtherCompanyAchievements()
    ensures GetTotalAchievements([Plain(1, [WithMonokultur(1, Some(map["III" := 8.0]))],
                                        Some([WithMonokultur(2, Some(map["III" := 2.0]))]), 0.0, 0.0, 0.0)]).monokulturAchievement == 10.0
  {
    var c := Plain(1, [WithMonokultur(1, Some(map["III" := 8.0]))], Some([WithMonokultur(2, Some(map["III" := 2.0]))]), 0.0, 0.0, 0.0);
    TotalAchievementsAppend([], c);
    assert [] + [c] == [c];
    assert Period == "III";
    var all := AllCompanies(c);
    assert all[1..][1..] == [];
    assert FoldCompanies(0.0, all, Monokultur) == FoldCompanies(8.0, all[1..], Monokultur) == FoldCompanies(10.0, all[1..][1..], Monokultur);
  }

  /** Values at other periods, absent records and a zero at "III" all add nothing. */
  lemma OnlyPeriodThreeCounts()
    ensures GetTotalAchievements([Plain(1, [WithMonokultur(1, Some(map["I" := 4.0, "II" := 6.0])),
                                            WithMonokultur(2, None),
                                            WithMonokultur(3, Some(map["III" := 0.0]))], None, 0.0, 0.0, 0.0)]).monokulturAchievement == 0.0
  {
    var c := Plain(1, [WithMonokultur(1, Some(map["I" := 4.0, "II" := 6.0])), WithMonokultur(2, None),
                       WithMonokultur(3, Some(map["III" := 0.0]))], None, 0.0, 0.0, 0.0);
    TotalAchievementsAppend([], c);
    assert [] + [c] == [c];
    assert Period == "III" && Period !in map["I" := 4.0, "II" := 6.0];
    var all := AllCompanies(c);
    assert all[1..][1..][1..] == [];
    assert FoldCompanies(0.0, all, Monokultur) == FoldCompanies(0.0, all[1..], Monokultur)
        == FoldCompanies(0.0, all[1..][1..], Monokultur) == FoldCompanies(0.0, all[1..][1..][1..], Monokultur);
  }

  /** A city's combined target plays no part in the overall card: its target is 10 + 0, not 99. */
  lemma OverallTargetIsNotTotalTarget()
    ensures DashboardCards([Plain(1, [], None, 0.0, 10.0, 99.0)]).overall.target == 10.0
    ensures GetTotalStats([Plain(1, [], None, 0.0, 10.0, 99.0)]).totalTarget == 99.0
  {
    SingleCityOverallTarget(Plain(1, [], None, 0.0, 10.0, 99.0));
  }
}
