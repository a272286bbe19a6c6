# Riau food-security dashboard: aggregation and selection core

A Dafny model of the logic in the dashboard page of the Polda Riau food-security
dashboard. The page shows a map of the police-resort areas ("cities", each a
`City` record), four summary cards, and tables of the companies in the city
picked on the map. Two parts of the page hold logic, and both are modelled here:

- **The aggregation folds.** `getTotalStats` adds up five figures of every city:
  area, other area, single-crop (monokultur) target, intercropped (tumpang sari)
  target and combined target. `getTotalAchievements` joins each city's target
  companies with its optional other companies. For each of three categories
  (monokultur, tumpang sari, CSR) it then adds up the value each company's
  optional achievement record holds for reporting period `"III"`. The summary
  cards combine the two results.
- **The selection state.** The page keeps four values: the selected city, the
  selected target company, the selected other company, and whether the detail
  modal is open. Three handlers and the map's city click change them.

Numbers are Dafny `real`s. Each JavaScript `reduce` is modelled as written, as a
left fold. It is then proved equal to a reference sum, `Sums.SumBy`, which adds
one value per element. Every property of the folds follows from that sum.

Files:

- `sums.dfy` (`Sums`): the reference sum and its laws: append, permutation, pointwise equality, non-negativity, point update.
- `dashboard_types.dfy` (`DashboardTypes`): `City`, `Company`, the optional achievement records and the period key.
- `total_stats.dfy` (`TotalStats`): `getTotalStats`.
- `total_achievements.dfy` (`TotalAchievements`): `getTotalAchievements`.
- `summary_cards.dfy` (`SummaryCards`): the numbers shown on the four cards.
- `selection.dfy` (`Selection`): the selection state and its transitions.
- `scenarios.dfy` (`Scenarios`): small worked datasets.

Design decisions:

- The page tests `if (company.monokulturAchievements?.III)`. That is JavaScript
  truthiness, so a stored value of `0` is skipped rather than added. The model
  keeps that test (`TotalAchievements.AddIfTruthy`) and proves that it adds
  exactly "the period value, or zero when the record or key is absent".
- The map's `onCityClick` is bound directly to `setSelectedCity`. A city click
  therefore changes only the city: it does not clear a selected company or
  close the modal (`Selection.CityClickKeepsCompany`).
- Selecting a company while no city is selected is accepted. The handlers never
  look at the city, so the model's transitions are total.

## Model

| member | source | states |
|---|---|---|
| `TotalStats.FoldCitiesSums` | app/page.tsx:78-85 | the left-to-right reduce ends, field by field, at the start value plus the sum of that field over the cities |
| `TotalStats.GetTotalStats` | app/page.tsx:77-94 | every field of the result is the sum of that same field over all cities |
| `TotalStats.TotalStatsOfNoCities` | app/page.tsx:86-92 | with no cities all five totals are zero |
| `TotalStats.TotalStatsAppend` | app/page.tsx:79-85 | appending a city adds exactly that city's five figures |
| `TotalStats.TotalStatsFieldIndependent` | app/page.tsx:79-85 | a field's total depends only on that field of each city |
| `TotalStats.TotalStatsPermutation` | app/page.tsx:77-94 | reordering the cities changes no total |
| `TotalStats.TotalStatsNonNegative` | app/page.tsx:77-94 | with non-negative city figures every total is non-negative |
| `TotalStats.TotalStatsInsertMonotone` | app/page.tsx:77-94 | inserting a non-negative city at any position never decreases a total |
| `TotalAchievements.AllCompanies` | app/page.tsx:99-102 | the joined list is the target companies followed by the other companies, in order |
| `TotalAchievements.AddIfTruthyAddsPeriodValue` | app/page.tsx:105-108 | the truthiness-guarded step adds exactly the period-"III" value, and nothing when the record or key is absent |
| `TotalAchievements.FoldCompaniesSums` | app/page.tsx:104-109 | the inner reduce over a city's companies ends at its start value plus the sum of their period values |
| `TotalAchievements.CityAchievement` | app/page.tsx:99-123 | a city's category sum is the sum over its target companies plus the sum over its other companies |
| `TotalAchievements.FoldCitiesSums` | app/page.tsx:97-137 | the outer reduce ends, per category, at the start value plus the sum of the per-city sums |
| `TotalAchievements.GetTotalAchievements` | app/page.tsx:96-138 | each category total is the sum over all cities of that city's category sum |
| `TotalAchievements.TotalAchievementsOfNoCities` | app/page.tsx:132-136 | with no cities all three totals are zero |
| `TotalAchievements.MissingOtherCompaniesIsEmpty` | app/page.tsx:99-102 | a city without other companies counts like one with an empty list, by its target companies alone |
| `TotalAchievements.TotalAchievementsAppend` | app/page.tsx:125-130 | appending a city adds exactly its three category sums |
| `TotalAchievements.TotalAchievementsPermutation` | app/page.tsx:96-138 | reordering the cities changes no achievement total |
| `TotalAchievements.CategoryDependsOnlyOnPeriod` | app/page.tsx:104-123 | a category total reads only that category's records, and only their value at key "III" (an absent record and a 0 at "III" count alike) |
| `TotalAchievements.RecordChangeKeepsOtherCategories` | app/page.tsx:99-130 | changing a record in one category, of a target or an other company, leaves the other two totals unchanged |
| `TotalAchievements.ReplaceListShiftsTotal` | app/page.tsx:99-123 | replacing a city's target or other list changes each category total by exactly the change in that list's sum |
| `TotalAchievements.RecordChangeShiftsOwnCategory` | app/page.tsx:99-130 | changing a record of a target or an other company shifts its own category total by exactly the change in its period value |
| `TotalAchievements.AddCompanyAddsPeriodValue` | app/page.tsx:99-123 | adding a company to the target list or to the (possibly absent) other list raises each category total by its period value, and by nothing when its record or key is absent |
| `TotalAchievements.TotalAchievementsNonNegative` | app/page.tsx:96-138 | with non-negative period values every achievement total is non-negative |
| `TotalAchievements.TotalAchievementsAppendMonotone` | app/page.tsx:125-130 | adding a city with non-negative records never decreases a total |
| `TotalAchievements.AddCompanyMonotone` | app/page.tsx:99-123 | adding a company with non-negative records to either list never decreases a total |
| `SummaryCards.DashboardCards` | app/page.tsx:201-257 | overall area is area plus other area; each crop card pairs its achievement sum with its target sum; overall achievement adds all three categories, CSR included, against the single-crop plus intercropped target |
| `SummaryCards.CardsIgnoreTotalTarget` | app/page.tsx:243-253 | cities that differ only in their combined target give identical cards |
| `SummaryCards.OverallAchievementIncludesCsr` | app/page.tsx:243-247 | the overall achievement is the two crop achievements plus exactly the CSR total |
| `SummaryCards.OverallAchievementAtLeastCrops` | app/page.tsx:243-247 | with non-negative records the overall achievement is at least the two crop achievements together |
| `SummaryCards.SingleCityOverallTarget` | app/page.tsx:249-253 | for one city the overall target is its single-crop plus intercropped target, not its combined target |
| `Selection.HandleCompanyClick` | app/page.tsx:140-143 | selects the company and opens the modal; city and other company unchanged |
| `Selection.HandleOtherCompanyClick` | app/page.tsx:145-148 | selects the other company and opens the modal; city and target company unchanged |
| `Selection.HandleCloseModal` | app/page.tsx:150-154 | closes the modal and clears both company selections; city kept |
| `Selection.CityClick` | app/page.tsx:298-301 | changes only the selected city; company selections and the modal flag are kept |
| `Selection.ApplyKeepsConsistent` | app/page.tsx:140-154 | every handler keeps "modal open exactly when a company is selected" |
| `Selection.RunKeepsConsistent` | app/page.tsx:34-38 | from a consistent state, any event sequence keeps the modal flag in step with the company selections |
| `Selection.ReachableModalsAreOpen` | app/page.tsx:559-571 | in every reachable state, a mounted detail modal (its company selected) is open |
| `Selection.CloseForgetsCompanyClicks` | app/page.tsx:140-154 | closing after a company click equals closing without it, and closing twice equals closing once |
| `Selection.CityClickCommutes` | app/page.tsx:140-148 | a city click and a company click commute |
| `Selection.CityClickKeepsCompany` | app/page.tsx:300 | city, company, city leaves the company selected and the modal open in the second city |
| `Selection.CityClicksChangeOnlyCity` | app/page.tsx:300 | a run of map clicks changes only the city, ending at the last city clicked |
| `Selection.CloseThenCityClicksSelectNothing` | app/page.tsx:150-154 | after a close, map clicks alone never bring back a company selection or reopen the modal |
| `Scenarios.TwoCityTotals` | app/page.tsx:77-94 | areas 50.75 and 20.0 with targets 10 and 5 total 70.75 and 15 |
| `Scenarios.CompanyAndOtherCompanyAchievements` | app/page.tsx:96-138 | a company with 8 and an other company with 2 at "III" give 10 |
| `Scenarios.OnlyPeriodThreeCounts` | app/page.tsx:104-109 | values at other periods, an absent record and a zero at "III" contribute nothing |
| `Scenarios.OverallTargetIsNotTotalTarget` | app/page.tsx:249-253 | a city with targets 10, 0 and combined 99 shows an overall target of 10 |

## Left out

- JSX rendering, the framer-motion variants, and the card and table layout (app/page.tsx:40-75, 159-575): presentation only. This includes the three city panels, which read the selected city's lists directly.
- `toLocaleString("id-ID", …)` formatting of the card values: locale and number formatting by the runtime. The cards are modelled as numbers.
- IEEE floating point: sums are over `real`, so rounding and the order-dependence of float addition are not modelled. NaN cannot arise, so the truthiness test reduces to "non-zero".
- `MapMarker`, `NewRangking`, `CompanyDetailsModal` and `OtherCompanyDetailsModal` are not part of this model. Their source is not available. The map's click is modelled as the `setSelectedCity` it is bound to.
- The static dataset (`@/data/RiauCity`, data/polsek/inhil-polsek.tsx) and the `@/types` declarations are not part of this model. `City` and `Company` keep only the fields the page reads in its folds and handlers. Coordinates, police stations and villages are dropped.
- `Selection.CityClick` takes a city, never `null`: `setSelectedCity` would also accept `null`, but the map component's source is not available, so the map is assumed always to pass a city.
- React state batching and re-rendering: each handler is modelled as one atomic transition of the four state values.
