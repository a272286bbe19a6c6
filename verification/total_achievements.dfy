/**
  The page's `getTotalAchievements`: for every city, the target companies and
  the optional other companies are joined, and for each of the three
  categories the period-"III" values are added up; the per-city results are
  then accumulated over all cities.
 */
module TotalAchievements {
  import opened DashboardTypes
  import opened Sums

  /** The three sums `getTotalAchievements` returns. */
  datatype Achievements = Achievements(
    monokulturAchievement: real,
    tumpangSariAchievement: real,
    csrAchievement: real)
  {
    function Get(cat: Category): real
    {
      match cat
      case Monokultur => monokulturAchievement
      case TumpangSari => tumpangSariAchievement
      case Csr => csrAchievement
    }
  }

  const ZeroAchievements := Achievements(0.0, 0.0, 0.0)

  /** An absent list of other companies reads as the empty list. */
  function OrEmpty(others: Option<seq<Company>>): (r: seq<Company>)
    ensures others.None? ==> r == []
    ensures others.Some? ==> r == others.value
  {
    match others
    case None => []
    case Some(list) => list
  }

  /** All organisations of a city: its target companies first, then its other companies. */
  function AllCompanies(c: City): (r: seq<Company>)
    ensures |r| == |c.companies| + |OrEmpty(c.otherCompanies)|
    ensures r[..|c.companies|] == c.companies
    ensures r[|c.companies|..] == OrEmpty(c.otherCompanies)
  {
    c.companies + OrEmpty(c.otherCompanies)
  }

  /** JavaScript truthiness of a number: zero is falsy (NaN does not arise over the reals). */
  predicate Truthy(v: real)
  {
    v != 0.0
  }

  /** The reducer step `if (rec?.III) sum + rec.III else sum`, as the page writes it. */
  function AddIfTruthy(sum: real, rec: Option<AchievementRecord>): real
  {
    if rec.Some? && Period in rec.value && Truthy(rec.value[Period]) then sum + rec.value[Period]
    else sum
  }

  /** What a record contributes by convention: its period value, zero when the record or the key is absent. */
  function PeriodValue(rec: Option<AchievementRecord>): real
  {
    if rec.Some? && Period in rec.value then rec.value[Period] else 0.0
  }

  /** Skipping a falsy (zero) value is the same as adding it: the step adds exactly the period value. */
  lemma AddIfTruthyAddsPeriodValue(sum: real, rec: Option<AchievementRecord>)
    ensures AddIfTruthy(sum, rec) == sum + PeriodValue(rec)
    ensures (rec.None? || Period !in rec.value) ==> AddIfTruthy(sum, rec) == sum
  {
  }

  /** The contribution of one company to category `cat`. */
  function CompanyValue(cat: Category): Company -> real
  {
    (e: Company) => PeriodValue(e.Achievements(cat))
  }

  /** The inner `allCompanies.reduce(...)` for one category, left to right. */
  function FoldCompanies(sum: real, companies: seq<Company>, cat: Category): real
    decreases |companies|
  {
    if |companies| == 0 then sum
    else FoldCompanies(AddIfTruthy(sum, companies[0].Achievements(cat)), companies[1..], cat)
  }

  /** The inner fold ends at its start value plus the category's sum over the companies. */
  lemma {:induction false} FoldCompaniesSums(sum: real, companies: seq<Company>, cat: Category)
    ensures FoldCompanies(sum, companies, cat) == sum + SumBy(companies, CompanyValue(cat))
    decreases |companies|
  {
    if |companies| > 0 {
      AddIfTruthyAddsPeriodValue(sum, companies[0].Achievements(cat));
      FoldCompaniesSums(AddIfTruthy(sum, companies[0].Achievements(cat)), companies[1..], cat);
      assert CompanyValue(cat)(companies[0]) == PeriodValue(companies[0].Achievements(cat));
    }
  }

  /** One city's achievement in category `cat`: its companies and then its other companies, summed. */
  function CityAchievement(c: City, cat: Category): (r: real)
    ensures r == SumBy(c.companies, CompanyValue(cat)) + SumBy(OrEmpty(c.otherCompanies), CompanyValue(cat))
  {
    FoldCompaniesSums(0.0, AllCompanies(c), cat);
    SumByAppend(c.companies, OrEmpty(c.otherCompanies), CompanyValue(cat));
    FoldCompanies(0.0, AllCompanies(c), cat)
  }

  /** `CityAchievement` for a fixed category, as a function value for `SumBy`. */
  function CityValue(cat: Category): City -> real
  {
    (c: City) => CityAchievement(c, cat)
  }

  /** The outer reducer: adds one city's three category sums to the accumulator. */
  function AddCityAchievements(acc: Achievements, c: City): (r: Achievements)
    ensures forall cat :: r.Get(cat) == acc.Get(cat) + CityAchievement(c, cat)
  {
    Achievements(
      acc.monokulturAchievement + CityAchievement(c, Monokultur),
      acc.tumpangSariAchievement + CityAchievement(c, TumpangSari),
      acc.csrAchievement + CityAchievement(c, Csr))
  }

  /** The outer `riauCity.reduce(...)`, left to right. */
  function FoldCities(acc: Achievements, cities: seq<City>): Achievements
    decreases |cities|
  {
    if |cities| == 0 then acc else FoldCities(AddCityAchievements(acc, cities[0]), cities[1..])
  }

  lemma {:induction false} FoldCitiesSums(acc: Achievements, cities: seq<City>)
    ensures forall cat :: FoldCities(acc, cities).Get(cat) == acc.Get(cat) + SumBy(cities, CityValue(cat))
    decreases |cities|
  {
    if |cities| > 0 {
      FoldCitiesSums(AddCityAchievements(acc, cities[0]), cities[1..]);
      forall cat ensures FoldCities(acc, cities).Get(cat) == acc.Get(cat) + SumBy(cities, CityValue(cat)) {
        assert CityValue(cat)(cities[0]) == CityAchievement(cities[0], cat);
      }
    }
  }

  /** `getTotalAchievements`: each category is the sum over all cities of that city's category sum. */
  function GetTotalAchievements(cities: seq<City>): (r: Achievements)
    ensures forall cat :: r.Get(cat) == SumBy(cities, CityValue(cat))
  {
    FoldCitiesSums(ZeroAchievements, cities);
    FoldCities(ZeroAchievements, cities)
  }

  lemma AchievementsExtensional(a: Achievements, b: Achievements)
    requires forall cat :: a.Get(cat) == b.Get(cat)
    ensures a == b
  {
    assert a.Get(Monokultur) == b.Get(Monokultur);
    assert a.Get(TumpangSari) == b.Get(TumpangSari);
    assert a.Get(Csr) == b.Get(Csr);
  }

  /** No cities, no achievements. */
  lemma TotalAchievementsOfNoCities()
    ensures GetTotalAchievements([]) == ZeroAchievements
  {
  }

  /** A city without other companies counts like one whose other companies are an empty list, namely by its target companies alone. */
  lemma MissingOtherCompaniesIsEmpty(c: City, cat: Category)
    requires c.otherCompanies.None?
    ensures CityAchievement(c, cat) == CityAchievement(c.(otherCompanies := Some([])), cat)
    ensures CityAchievement(c, cat) == SumBy(c.companies, CompanyValue(cat))
  {
  }

  /** Appending one city adds exactly that city's three category sums. */
  lemma TotalAchievementsAppend(cities: seq<City>, c: City)
    ensures GetTotalAchievements(cities + [c]) == AddCityAchievements(GetTotalAchievements(cities), c)
  {
    forall cat ensures GetTotalAchievements(cities + [c]).Get(cat) == AddCityAchievements(GetTotalAchievements(cities), c).Get(cat) {
      SumBySnoc(cities, c, CityValue(cat));
    }
    AchievementsExtensional(GetTotalAchievements(cities + [c]), AddCityAchievements(GetTotalAchievements(cities), c));
  }

  /** Reordering the cities changes none of the three sums. */
  lemma TotalAchievementsPermutation(a: seq<City>, b: seq<City>)
    requires multiset(a) == multiset(b)
    ensures GetTotalAchievements(a) == GetTotalAchievements(b)
  {
    forall cat ensures GetTotalAchievements(a).Get(cat) == GetTotalAchievements(b).Get(cat) {
      SumByPermutation(a, b, CityValue(cat));
    }
    AchievementsExtensional(GetTotalAchievements(a), GetTotalAchievements(b));
  }

  /** Two records that contribute alike: the same value at the period key, an absent record or key counting as zero. */
  predicate SameAtPeriod(r1: Option<AchievementRecord>, r2: Option<AchievementRecord>)
  {
    PeriodValue(r1) == PeriodValue(r2)
  }

  /** Two city lists with the same shape whose companies agree, in category `cat`, at the period key. */
  predicate SameInCategory(a: seq<City>, b: seq<City>, cat: Category)
  {
    |a| == |b|
    && forall i :: 0 <= i < |a| ==>
      && |a[i].companies| == |b[i].companies|
      && |OrEmpty(a[i].otherCompanies)| == |OrEmpty(b[i].otherCompanies)|
      && (forall j :: 0 <= j < |a[i].companies| ==>
            SameAtPeriod(a[i].companies[j].Achievements(cat), b[i].companies[j].Achievements(cat)))
      && (forall j :: 0 <= j < |OrEmpty(a[i].otherCompanies)| ==>
            SameAtPeriod(OrEmpty(a[i].otherCompanies)[j].Achievements(cat), OrEmpty(b[i].otherCompanies)[j].Achievements(cat)))
  }

  /** A category's total reads only that category's records, and only their value at the period key. */
  lemma CategoryDependsOnlyOnPeriod(a: seq<City>, b: seq<City>, cat: Category)
    requires SameInCategory(a, b, cat)
    ensures GetTotalAchievements(a).Get(cat) == GetTotalAchievements(b).Get(cat)
  {
    forall i | 0 <= i < |a|
      ensures CityValue(cat)(a[i]) == CityValue(cat)(b[i])
    {
      SumByPointwise(a[i].companies, b[i].companies, CompanyValue(cat), CompanyValue(cat));
      SumByPointwise(OrEmpty(a[i].otherCompanies), OrEmpty(b[i].otherCompanies), CompanyValue(cat), CompanyValue(cat));
    }
    SumByPointwise(a, b, CityValue(cat), CityValue(cat));
  }

  /** The two lists of a city that the page joins: target companies and other companies. */
  datatype CompanyList = TargetCompanies | OtherCompanies

  /** List `which` of city `c`; an absent list of other companies reads as empty. */
  function ListOf(c: City, which: CompanyList): seq<Company>
  {
    match which
    case TargetCompanies => c.companies
    case OtherCompanies => OrEmpty(c.otherCompanies)
  }

  /** City `c` with list `which` replaced by `list`; the other list and every figure stay as they were. */
  function WithList(c: City, which: CompanyList, list: seq<Company>): (r: City)
    ensures ListOf(r, which) == list
    ensures forall other :: other != which ==> ListOf(r, other) == ListOf(c, other)
    ensures r.(companies := c.companies, otherCompanies := c.otherCompanies) == c
  {
    match which
    case TargetCompanies => c.(companies := list)
    case OtherCompanies => c.(otherCompanies := Some(list))
  }

  /** A city's category sum is the sum over its target companies plus the sum over its other companies. */
  lemma CityAchievementByLists(c: City, cat: Category)
    ensures CityAchievement(c, cat)
         == SumBy(ListOf(c, TargetCompanies), CompanyValue(cat)) + SumBy(ListOf(c, OtherCompanies), CompanyValue(cat))
  {
  }

  /** Replacing one list of city `i` changes each category total by the change in that list's sum. */
  lemma ReplaceListShiftsTotal(cities: seq<City>, i: nat, which: CompanyList, list: seq<Company>, cat: Category)
    requires i < |cities|
    ensures GetTotalAchievements(cities[i := WithList(cities[i], which, list)]).Get(cat)
         == GetTotalAchievements(cities).Get(cat)
            - SumBy(ListOf(cities[i], which), CompanyValue(cat)) + SumBy(list, CompanyValue(cat))
  {
    var c := cities[i];
    var c' := WithList(c, which, list);
    CityAchievementByLists(c, cat);
    CityAchievementByLists(c', cat);
    assert which == TargetCompanies || which == OtherCompanies;
    assert CityValue(cat)(c') == CityValue(cat)(c) - SumBy(ListOf(c, which), CompanyValue(cat)) + SumBy(list, CompanyValue(cat));
    SumByUpdate(cities, i, c', CityValue(cat));
  }

  /** Replacing the category-`cat` record of company `j` in list `which` of city `i`. */
  function SetCompanyRecord(cities: seq<City>, i: nat, which: CompanyList, j: nat, cat: Category, rec: Option<AchievementRecord>): (r: seq<City>)
    requires i < |cities| && j < |ListOf(cities[i], which)|
    ensures |r| == |cities| && |ListOf(r[i], which)| == |ListOf(cities[i], which)|
    ensures ListOf(r[i], which)[j].Achievements(cat) == rec
  {
    var list := ListOf(cities[i], which);
    cities[i := WithList(cities[i], which, list[j := list[j].WithAchievements(cat, rec)])]
  }

  /** Changing one company's record in one category, in either list, leaves the other two category totals unchanged. */
  lemma RecordChangeKeepsOtherCategories(cities: seq<City>, i: nat, which: CompanyList, j: nat, cat: Category, rec: Option<AchievementRecord>, other: Category)
    requires i < |cities| && j < |ListOf(cities[i], which)|
    requires other != cat
    ensures GetTotalAchievements(SetCompanyRecord(cities, i, which, j, cat, rec)).Get(other)
         == GetTotalAchievements(cities).Get(other)
  {
    var list := ListOf(cities[i], which);
    var list' := list[j := list[j].WithAchievements(cat, rec)];
    ReplaceListShiftsTotal(cities, i, which, list', other);
    SumByPointwise(list', list, CompanyValue(other), CompanyValue(other));
  }

  /** Changing one company's record, in either list, changes its own category total by exactly the change in its period value. */
  lemma RecordChangeShiftsOwnCategory(cities: seq<City>, i: nat, which: CompanyList, j: nat, cat: Category, rec: Option<AchievementRecord>)
    requires i < |cities| && j < |ListOf(cities[i], which)|
    ensures GetTotalAchievements(SetCompanyRecord(cities, i, which, j, cat, rec)).Get(cat)
         == GetTotalAchievements(cities).Get(cat) - PeriodValue(ListOf(cities[i], which)[j].Achievements(cat)) + PeriodValue(rec)
  {
    var list := ListOf(cities[i], which);
    var e := list[j];
    var e' := e.WithAchievements(cat, rec);
    ReplaceListShiftsTotal(cities, i, which, list[j := e'], cat);
    SumByUpdate(list, j, e', CompanyValue(cat));
    assert CompanyValue(cat)(e) == PeriodValue(e.Achievements(cat));
    assert CompanyValue(cat)(e') == PeriodValue(rec);
  }

  /** Company `e` is appended to list `which` of city `i`; an absent list of other companies becomes `[e]`. */
  function AddCompany(cities: seq<City>, i: nat, which: CompanyList, e: Company): (r: seq<City>)
    requires i < |cities|
    ensures |r| == |cities|
    ensures ListOf(r[i], which) == ListOf(cities[i], which) + [e]
  {
    cities[i := WithList(cities[i], which, ListOf(cities[i], which) + [e])]
  }

  /** Adding a company to either list raises each category total by exactly its period value, so one without a record or a period key adds nothing. */
  lemma AddCompanyAddsPeriodValue(cities: seq<City>, i: nat, which: CompanyList, e: Company, cat: Category)
    requires i < |cities|
    ensures GetTotalAchievements(AddCompany(cities, i, which, e)).Get(cat)
         == GetTotalAchievements(cities).Get(cat) + PeriodValue(e.Achievements(cat))
    ensures e.Achievements(cat).None? || Period !in e.Achievements(cat).value ==>
      GetTotalAchievements(AddCompany(cities, i, which, e)).Get(cat) == GetTotalAchievements(cities).Get(cat)
  {
    var list := ListOf(cities[i], which);
    ReplaceListShiftsTotal(cities, i, which, list + [e], cat);
    SumBySnoc(list, e, CompanyValue(cat));
    assert CompanyValue(cat)(e) == PeriodValue(e.Achievements(cat));
  }

  /** Every record's period value is non-negative, as the dataset promises. */
  predicate NonNegativeCompany(e: Company)
  {
    forall cat :: PeriodValue(e.Achievements(cat)) >= 0.0
  }

  predicate NonNegativeCompanies(c: City)
  {
    forall j :: 0 <= j < |AllCompanies(c)| ==> NonNegativeCompany(AllCompanies(c)[j])
  }

  /** With non-negative records every achievement total is non-negative. */
  lemma TotalAchievementsNonNegative(cities: seq<City>)
    requires forall i :: 0 <= i < |cities| ==> NonNegativeCompanies(cities[i])
    ensures forall cat :: GetTotalAchievements(cities).Get(cat) >= 0.0
  {
    forall cat ensures GetTotalAchievements(cities).Get(cat) >= 0.0 {
      forall i | 0 <= i < |cities| ensures CityValue(cat)(cities[i]) >= 0.0 {
        var all := AllCompanies(cities[i]);
        assert forall j :: 0 <= j < |all| ==> CompanyValue(cat)(all[j]) == PeriodValue(all[j].Achievements(cat));
        SumByNonNegative(all, CompanyValue(cat));
        SumByAppend(cities[i].companies, OrEmpty(cities[i].otherCompanies), CompanyValue(cat));
      }
      SumByNonNegative(cities, CityValue(cat));
    }
  }

  /** Adding a city whose records are non-negative never decreases an achievement total. */
  lemma TotalAchievementsAppendMonotone(cities: seq<City>, c: City)
    requires NonNegativeCompanies(c)
    ensures forall cat :: GetTotalAchievements(cities + [c]).Get(cat) >= GetTotalAchievements(cities).Get(cat)
  {
    TotalAchievementsAppend(cities, c);
    TotalAchievementsNonNegative([c]);
    forall cat ensures CityAchievement(c, cat) >= 0.0 {
      assert GetTotalAchievements([c]).Get(cat) == SumBy([c], CityValue(cat)) == CityValue(cat)(c) + SumBy([c][1..], CityValue(cat));
    }
  }

  /** Adding a company whose records are non-negative, to either list, never decreases an achievement total. */
  lemma AddCompanyMonotone(cities: seq<City>, i: nat, which: CompanyList, e: Company)
    requires i < |cities|
    requires NonNegativeCompany(e)
    ensures forall cat :: GetTotalAchievements(AddCompany(cities, i, which, e)).Get(cat) >= GetTotalAchievements(cities).Get(cat)
  {
    forall cat ensures GetTotalAchievements(AddCompany(cities, i, which, e)).Get(cat) >= GetTotalAchievements(cities).Get(cat) {
      AddCompanyAddsPeriodValue(cities, i, which, e, cat);
    }
  }
}
