# Sentinel-Zero simulation tools, modelled in Dafny

Sentinel-Zero's "what-if" simulation agent answers questions such as "what if a
50% tariff hits Taiwan semiconductors?" by calling four deterministic tools in
`agent/simulation_agent.py`. This project models those four tools and proves
what they promise:

- **Route lookup** (`get_affected_routes`, module `RouteLookup`). It scans a route table keyed by region. A key is kept when it contains the region name, compared case-insensitively. Within a kept key, a route is kept when it passes the product filter. The routes come out in table order, with their count.
- **Disruption score** (`calculate_disruption_score`, module `DisruptionScore`). It looks up a route's base score, with base 30 for an unknown route. It adds a tariff term and a disaster term and caps the sum at 100. It then sorts the result into one of four risk levels.
- **Alternative suppliers** (`find_alternative_suppliers`, module `SupplierRanking`). It keeps the suppliers of a product outside the excluded regions and gives each a weighted score. It sorts them stably by descending score, numbers them 1..n and reports the first five with the full count.
- **Simulation summary** (`generate_simulation_summary`, module `SimulationSummary`). It lists at most three routes and three alternatives. It averages the risk changes (0 when there are none) and picks one of three recommendations by threshold.

Module `Text` holds the two string operations the tools share: Python's
`str.lower()` and the substring test `needle in hay`.

The tables the tools hard-code are parameters of the model. Their literal
contents are the constants `SimulatedRoutes`, `SimulatedBaseScores` and
`SimulatedSuppliers`, so the properties hold for any table and also for these
three. A Python dict's insertion order is kept as sequence order.

Where the code works step by step, the model does too. The route scan is two
nested loops that append. The ranker writes scores into an array, sorts that
array in place with a stable insertion sort, and writes ranks in a second loop.
The summary appends its parts one by one. Each of these methods is proved
against a specification function, and the lemmas state the properties of those
functions.

The geospatial helpers elsewhere in the repository (haversine distances and
impact radii) are outside this model; these four tools do not call them.

## Model

| member | source | states |
|---|---|---|
| `Text.Lower` | sentinel-zero/backend/python-services/agent/simulation_agent.py:86 | lower-casing keeps the length, maps each character on its own, and leaves no upper-case ASCII letter |
| `Text.Contains` | sentinel-zero/backend/python-services/agent/simulation_agent.py:90-92 | the left-to-right scan returns true exactly when the needle occurs at some position of the string |
| `Text.EmptyOccursEverywhere` | sentinel-zero/backend/python-services/agent/simulation_agent.py:90 | the empty string is contained in every string, so an empty region name or exclusion matches everything |
| `RouteLookup.GetAffectedRoutes` | sentinel-zero/backend/python-services/agent/simulation_agent.py:59-100 | the nested loops produce exactly the key-by-key filtered routes; every returned route passes the product filter; `count` is the number of routes returned; region and filter are echoed; the filter defaults to "all" |
| `RouteLookup.KeepProductMembers` | sentinel-zero/backend/python-services/agent/simulation_agent.py:91-93 | a route is kept from a key exactly when the key lists it and it passes the product filter |
| `RouteLookup.AffectedMembers` | sentinel-zero/backend/python-services/agent/simulation_agent.py:89-93 | a route is reported iff it passes the product filter and some key containing the lower-cased region lists it |
| `RouteLookup.AffectedSound` | sentinel-zero/backend/python-services/agent/simulation_agent.py:89-93 | a reported route passes the product filter and is listed under a key containing the region |
| `RouteLookup.AffectedComplete` | sentinel-zero/backend/python-services/agent/simulation_agent.py:89-93 | a route that passes the product filter and is listed under a key containing the region is reported |
| `RouteLookup.AffectedPassProductFilter` | sentinel-zero/backend/python-services/agent/simulation_agent.py:92-93 | every reported route is under filter "all" or has the lower-cased filter inside its lower-cased product |
| `RouteLookup.AffectedAppend` | sentinel-zero/backend/python-services/agent/simulation_agent.py:89 | splitting the table splits the result: the keys are visited in insertion order |
| `RouteLookup.KeepProductInOrder` | sentinel-zero/backend/python-services/agent/simulation_agent.py:91-93 | the routes kept from one key are a subsequence of that key's routes, in their original order |
| `RouteLookup.AffectedInTableOrder` | sentinel-zero/backend/python-services/agent/simulation_agent.py:87-93 | the reported routes are a subsequence of all routes of the table, key after key, in order |
| `RouteLookup.KeepAllProducts` | sentinel-zero/backend/python-services/agent/simulation_agent.py:92 | the filter "all" keeps every route of a key |
| `RouteLookup.EmptyRegionReportsAll` | sentinel-zero/backend/python-services/agent/simulation_agent.py:86-93 | an empty region with filter "all" reports the whole table in order |
| `RouteLookup.SimulatedRoutesUnfiltered` | sentinel-zero/backend/python-services/agent/simulation_agent.py:71-84 | the hard-coded table yields six routes when nothing is filtered out |
| `DisruptionScore.RiskLevelOf` | sentinel-zero/backend/python-services/agent/simulation_agent.py:142 | critical iff score is at least 70, high iff in [50, 70), medium iff in [30, 50), low iff below 30 (total: exactly one level holds) |
| `DisruptionScore.RiskLevelMonotone` | sentinel-zero/backend/python-services/agent/simulation_agent.py:142 | a higher score never gets a lower risk level |
| `DisruptionScore.CalculateDisruptionScore` | sentinel-zero/backend/python-services/agent/simulation_agent.py:104-142 | tariff change and severity default to 0; original score is the table's base or 30 for an unknown route; new score is at most 100 and at most the uncapped sum, and equals 100 or the uncapped sum; change is new minus original; the level is that of the unrounded new score; with non-negative tariff and severity and bases within 100, the new score is at least the base |
| `DisruptionScore.ScenarioMonotone` | sentinel-zero/backend/python-services/agent/simulation_agent.py:128-142 | a larger tariff change and severity never lower the new score or the risk level |
| `DisruptionScore.SimulatedBasesWithinCap` | sentinel-zero/backend/python-services/agent/simulation_agent.py:117-122 | every base in the hard-coded table is at most 100 |
| `DisruptionScore.SimulatedScoreExamples` | sentinel-zero/backend/python-services/agent/simulation_agent.py:117-142 | with no scenario change the TSMC route is critical and an unknown route is medium; a large scenario caps the Shanghai-LA route at 100 |
| `SupplierRanking.CompositeScoreScaled` | sentinel-zero/backend/python-services/agent/simulation_agent.py:185 | the integer composite score is exactly ten times the tool's weighted sum `0.4*(100-risk) + 0.3*(100-cost) + 0.3*capacity` |
| `SupplierRanking.LowerAll` | sentinel-zero/backend/python-services/agent/simulation_agent.py:174 | each excluded region is lower-cased, in order |
| `SupplierRanking.FilterMembers` | sentinel-zero/backend/python-services/agent/simulation_agent.py:177-181 | a supplier is a candidate iff it is in the table, its lower-cased product contains the lower-cased product, and no lower-cased exclusion occurs in its lower-cased region |
| `SupplierRanking.FilterInTableOrder` | sentinel-zero/backend/python-services/agent/simulation_agent.py:177-181 | the candidates are a subsequence of the supplier table, in table order |
| `SupplierRanking.NoExclusionsFiltersOnProduct` | sentinel-zero/backend/python-services/agent/simulation_agent.py:174-181 | with an empty exclude list only the product filter applies |
| `SupplierRanking.Scored` | sentinel-zero/backend/python-services/agent/simulation_agent.py:184-185 | each candidate carries its composite score `4*(100-risk) + 3*(100-cost) + 3*capacity`, ten times the tool's |
| `SupplierRanking.ScoreAll` | sentinel-zero/backend/python-services/agent/simulation_agent.py:184-185 | the scoring loop fills a fresh array with each candidate and its composite score, in order |
| `SupplierRanking.InsertPermutes` | sentinel-zero/backend/python-services/agent/simulation_agent.py:187 | one insertion step adds exactly the inserted candidate |
| `SupplierRanking.InsertSorted` | sentinel-zero/backend/python-services/agent/simulation_agent.py:187 | one insertion step keeps the scores non-increasing |
| `SupplierRanking.SortDescPermutes` | sentinel-zero/backend/python-services/agent/simulation_agent.py:187 | the sort returns a permutation of its input |
| `SupplierRanking.SortDescSorted` | sentinel-zero/backend/python-services/agent/simulation_agent.py:187 | the sort returns non-increasing scores |
| `SupplierRanking.SortDescStable` | sentinel-zero/backend/python-services/agent/simulation_agent.py:187 | the sort is stable: for every score, the candidates with that score appear in input order |
| `SupplierRanking.InsertIntoPrefix` | sentinel-zero/backend/python-services/agent/simulation_agent.py:187 | shifting in place inserts `a[i]` into the sorted prefix after every element that scores at least as much; the rest of the array is unchanged |
| `SupplierRanking.SortByScore` | sentinel-zero/backend/python-services/agent/simulation_agent.py:187 | the in-place sort leaves the array equal to the stable descending sort of its old contents |
| `SupplierRanking.Ranked` | sentinel-zero/backend/python-services/agent/simulation_agent.py:190-191 | the candidate at position i gets rank i+1, nothing else changes |
| `SupplierRanking.RankInPlace` | sentinel-zero/backend/python-services/agent/simulation_agent.py:190-191 | the ranking loop leaves the array equal to its old contents numbered 1..n |
| `SupplierRanking.Top` | sentinel-zero/backend/python-services/agent/simulation_agent.py:196 | the report is a prefix of the ranking, of length min(5, n) |
| `SupplierRanking.FindAlternativeSuppliers` | sentinel-zero/backend/python-services/agent/simulation_agent.py:147-198 | count is the untruncated number of candidates; alternatives are the first min(5, count) ranked candidates; each is in the table, matches the product and lies outside the excluded regions, with its composite score; scores are non-increasing; position i has rank i+1; product and exclusions are echoed |
| `SupplierRanking.RankedProperties` | sentinel-zero/backend/python-services/agent/simulation_agent.py:184-191 | the ranking holds every filtered supplier exactly once (equal multisets), each with its score, best first, numbered 1..n |
| `SupplierRanking.RankedSuppliers` | sentinel-zero/backend/python-services/agent/simulation_agent.py:184-191 | scoring, sorting and ranking keep exactly the multiset of filtered suppliers |
| `SupplierRanking.RankedTiesKeepTableOrder` | sentinel-zero/backend/python-services/agent/simulation_agent.py:184-191 | candidates with equal scores keep table order in the ranking |
| `SupplierRanking.SimulatedScores` | sentinel-zero/backend/python-services/agent/simulation_agent.py:159-172 | the hard-coded suppliers score 839, 796, 817, 675, 810 and 830: all different |
| `SimulationSummary.ChangeFor` | sentinel-zero/backend/python-services/agent/simulation_agent.py:225 | the change of a route is the one recorded for it (the first item with its id), or 0 when none is recorded |
| `SimulationSummary.AverageIncrease` | sentinel-zero/backend/python-services/agent/simulation_agent.py:237 | 0 with no changes, otherwise average times count equals the sum of the changes |
| `SimulationSummary.RecommendationFor` | sentinel-zero/backend/python-services/agent/simulation_agent.py:240-245 | immediate action iff average > 20, monitor iff 10 < average <= 20, maintain iff average <= 10 |
| `SimulationSummary.RouteLineFor` | sentinel-zero/backend/python-services/agent/simulation_agent.py:225-227 | "increased" iff the change is positive; the amount is the change's absolute value |
| `SimulationSummary.RouteSection` | sentinel-zero/backend/python-services/agent/simulation_agent.py:222-227 | no block without affected routes; otherwise a header with the full route count and lines for the first min(3, n) routes |
| `SimulationSummary.AlternativeSection` | sentinel-zero/backend/python-services/agent/simulation_agent.py:229-235 | no block without alternatives; otherwise a header and lines for the first min(3, n) alternatives |
| `SimulationSummary.AppendRouteBlock` | sentinel-zero/backend/python-services/agent/simulation_agent.py:222-227 | appending the route block adds exactly the affected-routes section after the parts so far |
| `SimulationSummary.AppendAlternativeBlock` | sentinel-zero/backend/python-services/agent/simulation_agent.py:229-235 | appending the alternatives block adds exactly the alternatives section after the parts so far |
| `SimulationSummary.GenerateSimulationSummary` | sentinel-zero/backend/python-services/agent/simulation_agent.py:201-247 | the appended parts are title, route block, alternatives block, average and recommendation, in that order; at most 11 parts |
| `SimulationSummary.SumBounds` | sentinel-zero/backend/python-services/agent/simulation_agent.py:237 | changes between lo and hi give a sum between n*lo and n*hi |
| `SimulationSummary.AverageBounds` | sentinel-zero/backend/python-services/agent/simulation_agent.py:237 | the average of the changes lies between any lower and upper bound of them |
| `SimulationSummary.UniformRiseMeansImmediateAction` | sentinel-zero/backend/python-services/agent/simulation_agent.py:237-241 | if every change exceeds 20 the recommendation is immediate action |
| `SimulationSummary.SmallChangesMeanMaintain` | sentinel-zero/backend/python-services/agent/simulation_agent.py:237-245 | if no change exceeds 10 the recommendation is to maintain monitoring; this includes no changes at all, whose average is 0 |

## Left out

- `sentinel-zero/backend/python-services/main.py` is not part of this model. It is application setup, middleware and endpoints.
- `create_simulation_agent` and `run_simulation` are not modelled. They build and run the language-model agent, await it asynchronously and stamp the current time.
- The HTTP router and its endpoints are not modelled, and neither are the request and response schemas or the `SimulationState` record. They declare schemas and hold no logic. The `@tool` decorator wraps a foreign library.
- The `round(..., 1)` fields of the disruption result are not modelled. The `:.1f` formatting, the markdown text and the final `"\n".join` of the summary are not modelled either. The model keeps the unrounded values and the summary parts as structured values.
- Python floats are modelled as exact reals. Float rounding, NaN and infinities are not modelled. The summary's `sum` is exact, so its left-to-right float accumulation is not modelled.
- SupplierRanking.CompositeScore: the tool computes `0.4*(100-risk) + 0.3*(100-cost) + 0.3*capacity` in floating point. The model uses ten times that value as an exact integer (`CompositeScoreScaled` states the factor). Over exact reals this keeps the order, but float rounding could make two exactly equal scores differ, and that would change which one the stable sort puts first. The hard-coded suppliers all have different scores, so their ranking is unaffected.
- Text.Lower: lower-cases ASCII letters only. Python's `str.lower()` also maps non-ASCII letters.
- The `sentiment` and `tariff` columns of the base-score table, and the suppliers' `lead_time`, are kept in the records but do not enter any computation, as in the tool.
- SimulationSummary.ChangeFor: the `risk_changes` dictionary is modelled as the sequence of its items in insertion order. A dictionary cannot repeat a key, so looking up the first matching item is the dictionary lookup.
- The tool writes `score` and `rank` into the dictionaries of its own local supplier table, which is rebuilt on every call. The model writes them into candidate values held in a fresh array, so no state survives between calls in either case.
- SimulationSummary.RouteLineFor reports a change of exactly 0 (also for a route with no recorded change) as "decreased", as the tool does.
