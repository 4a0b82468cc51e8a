# Carbon-emission record store and per-business figures

A Dafny model of the computational core of the GreenpulseNG backend
(`backend.py`). The backend stores one table of emission records, each
carrying a business, its sector (`business_type`), a date, a source
category, an activity, an amount with its emission factor, the derived
emissions in kgCO2e, a scope and the identity of the caller that stored it.
On top of that table it offers:

- **Ingestion.** A manual entry appends one record, with its emissions
  computed as amount × factor and the caller stamped on it. A bulk upload
  checks nine required columns and then replaces the whole table, for every
  caller, with the uploaded rows.
- **Dashboard.** Filters the caller's records of a business. It reports the
  total, a monthly average that is always a twelfth of the total, and sums
  grouped by source category and by scope.
- **Insights.** A green score in [0, 100] compares the caller's total with
  the average business total of the sector. That average is taken over every
  stored record of the sector, whoever stored it. The recommendation comes
  from a static table, keyed by the category of the top activity.
- **Forecast input.** Applies a scenario's percentage reductions to a copy of
  the caller's records. Waste, electricity (through the solar share),
  transport and commute each have their own reduction. An optional
  single-category filter follows, then per-date sums, and the series must
  have at least two distinct dates.
- **Report figures.** Total, monthly average, contributors by category, and
  the tip for the largest contributor.

Layout, one module per component:

| file | module | content |
|---|---|---|
| `records.dfy` | `Records` | record and entry datatypes, `Result`, the derived-value stamp, filtering, totals |
| `grouping.dfy` | `Grouping` | group-by with sums, distinct keys, `idxmax`, first record of a key |
| `recommendations.dfy` | `Recommendations` | the recommendation lookup table |
| `store.dfy` | `Store` | the `EmissionStore` class: manual entry appends, upload replaces |
| `aggregator.dfy` | `Aggregator` | dashboard, sector average, green score, insights |
| `simulator.dfy` | `Simulator` | scenario reductions (in place on a copied array) and forecast series |
| `report.dfy` | `Report` | the figures the PDF report prints |
| `ingestion_effects.dfy` | `IngestionEffects` | how each ingestion path changes what callers read back |

The store is a class whose `rows` field the two ingestion methods reassign.
Its `Valid()` invariant says every stored row has emissions equal to
amount × factor, and both methods keep it. The read endpoints are functions
of the table's rows. The scenario step copies the selection into an array.
It then runs four in-place passes, one per category, and is proved equal to
the functional specification `Simulator.Adjusted`. Amounts and emissions are
Dafny `real`s. User ids are strings and are passed in as parameters.

## Model

| member | source | states |
|---|---|---|
| `Records.Stamp` | backend.py:150-158 | the stored row's emissions equal amount × emission factor, its user id is the caller's, and its nine entry fields are exactly the entry's |
| `Records.Where` | backend.py:260 | a row is kept iff it is in the input and its column equals the key; every matching row is kept as many times as it occurs and every other row is dropped; the result is no longer than the input |
| `Records.WhereAppend` | backend.py:260 | filtering a concatenation is filtering each part and concatenating, so, with the counts above, the kept rows stay in table order |
| `Records.Select` | backend.py:197 | a row is selected iff it is stored and matches both the business id and the caller's id; each such row is selected as many times as it is stored, every other row never |
| `Records.TotalAppend` | backend.py:201 | the sum over two tables put together is the sum of their sums |
| `Records.TotalPermutation` | backend.py:201 | the sum does not depend on the order of the rows: tables holding the same rows, copies included, have the same total |
| `Records.TotalNonNegative` | backend.py:201 | a sum of non-negative emissions is non-negative |
| `Records.TotalOfDerived` | backend.py:201 | when every row's emissions equal its amount × factor, the emissions total equals the sum of amount × factor |
| `Grouping.GroupBy` | backend.py:204-205 | group keys are distinct; they are exactly the values the column takes; each group's sum is the total over the rows with that key; there is one group per distinct value; the group sums add up to the total |
| `Grouping.GroupTotalIsTotal` | backend.py:201-205 | for any repetition-free key list covering every row, the per-key sums add up to the total |
| `Grouping.ArgMax` | backend.py:233 | the index is in range, no group has a larger sum, and every earlier group's sum is strictly smaller (first maximum) |
| `Grouping.TopKey` | backend.py:290 | the key is that of a group whose sum no other group exceeds |
| `Grouping.FirstWhere` | backend.py:234 | the index holds a row with the key and no earlier row has it |
| `Recommendations.Recommendation` | backend.py:134-141 | electricity, transport and waste get their fixed tips; every other category gets the default tip; the tip is always one of the table's values |
| `Recommendations.RecommendationIgnoresActivity` | backend.py:134-141 | the activity argument never changes the tip, and commute gets the default tip |
| `Store.AllPresent` | backend.py:175 | true iff every required name is present |
| `Store.HasRequiredColumns` | backend.py:167-170 | true iff all nine required column names are among the upload's columns |
| `Store.StampAll` | backend.py:178-179 | one row per uploaded entry, in order; each has emissions = amount × factor, the caller's user id and that entry's fields |
| `Store.EmissionStore.constructor` | backend.py:68-86 | the store starts empty and valid |
| `Store.EmissionStore.ManualEntry` | backend.py:148-163 | returns amount × factor; the new table is the old one with the stamped row appended, that is one row carrying the entry, the caller and that value; leaves every earlier row unchanged; keeps the derived-value invariant |
| `Store.EmissionStore.Upload` | backend.py:165-191 | a missing required column fails and leaves the store unchanged; otherwise the store becomes exactly the stamped upload, every remaining row belongs to the caller, the result is the row count, and the invariant is kept |
| `Aggregator.Dashboard` | backend.py:193-214 | fails with not-found iff the caller has no record of the business; otherwise the total is the sum over exactly those records; the monthly average times 12 is the total; the category and scope breakdowns each sum to the total |
| `Aggregator.SectorAverage` | backend.py:227-228 | for a non-empty sector, the sector's total over every caller divided by its number of distinct businesses; 0 for an empty sector |
| `Aggregator.SectorAverageIgnoresUserId` | backend.py:227-228 | two tables that differ only in who stored each record give the same sector average |
| `Aggregator.Clamp` | backend.py:231 | the result is in [0, 100], equals the input inside that range, and is 0 below it and 100 above it |
| `Aggregator.GreenScore` | backend.py:230-231 | always in [0, 100]; 100 when the sector average is not positive or the total is not positive; 0 when the total reaches the average; in between, the percentage by which the total is below the average |
| `Aggregator.GreenScoreAntitone` | backend.py:230-231 | a larger total never gives a higher score |
| `Aggregator.TopActivityTip` | backend.py:233-236 | the tip is the lookup for the category of the first record of an activity whose summed emissions no other activity exceeds |
| `Aggregator.Insights` | backend.py:216-244 | fails with not-found iff the caller has no record of the business; otherwise the score is in [0, 100] and compares the caller's total with the sector average of the first record's business type; the tip is the top activity's |
| `Simulator.ValidScenarioBoundsEveryKnob` | backend.py:124-127 | a scenario passes the request validation exactly when every knob a category can be scaled by lies in [0, 100] |
| `Simulator.DefaultScenarioKeepsRecords` | backend.py:123-128 | a request that omits every field is valid, and with it the simulated, filtered table is the caller's records unchanged |
| `Simulator.AdjustRow` | backend.py:255-258 | only emissions can change; waste, electricity, transport and commute rows are multiplied by 1 − pct/100 with the waste, solar, transport and commute knob respectively; rows of any other category are unchanged |
| `Simulator.Adjusted` | backend.py:254-258 | same length, and each row adjusted in place and in order |
| `Simulator.ZeroScenarioIsIdentity` | backend.py:255-258 | with all four knobs at 0 the simulated table equals the original |
| `Simulator.AdjustedWhereCategory` | backend.py:255-260 | filtering by category before or after the adjustment gives the same rows |
| `Simulator.FullReductionZeroesCategory` | backend.py:255-258 | a knob at 100 makes the total of its category's simulated rows 0 |
| `Simulator.ScenarioNeverIncreases` | backend.py:124-127 | with knobs in [0, 100] and non-negative emissions, the simulated total is between 0 and the original total |
| `Simulator.ReduceCategory` | backend.py:255 | after the pass, each row of the category is scaled by 1 − pct/100 and every other row is unchanged |
| `Simulator.FourPasses` | backend.py:255-258 | the four category passes, applied in the source's order, scale each row at most once and together equal the scenario adjustment |
| `Simulator.Simulate` | backend.py:250-258 | fails with insufficient-data iff the caller has no record of the business; otherwise the four in-place passes yield exactly the adjusted selection |
| `Simulator.AdjustRowBetween` | backend.py:255-258 | with knobs in [0, 100] a row's non-negative emissions end between 0 and their original value |
| `Simulator.Kept` | backend.py:260 | "all" keeps the simulated rows; any other category keeps exactly the rows of that category, each as many times as it occurs |
| `Simulator.PrepareForecast` | backend.py:246-264 | an out-of-range knob is refused; no caller record for the business, or fewer than two distinct dates after the filter, is insufficient data; otherwise the series is the per-date sums of the filtered simulated rows, with at least two points |
| `Simulator.SingleDateExample` | backend.py:255-264 | electricity 100 kg with solar 50 % becomes 50 kg; waste 50 kg with waste reduction 100 % becomes 0 kg; a single date leaves fewer than two points |
| `Report.Report` | backend.py:281-291 | fails with not-found iff the caller has no record of the business; otherwise it reports the first record's business type, the total, the twelfth-of-total average, and contributors summing to the total; the top category is a largest contributor present in the records, and the tip is its lookup with an empty activity |
| `Report.ReportAgreesWithDashboard` | backend.py:286-289 | the report fails exactly when the dashboard does and prints the dashboard's total, average and contributors |
| `IngestionEffects.SelectAfterAppend` | backend.py:153-158 | appending a row extends a selection by that row exactly when the row matches the selected business and caller |
| `IngestionEffects.ManualEntryAddsToDashboard` | backend.py:150-163 | after a manual entry the caller's dashboard for that business exists and its total grows by exactly amount × factor; other businesses and callers read the same records |
| `IngestionEffects.UploadHidesOtherCallers` | backend.py:179-187 | after an upload, any other caller's dashboard fails with not-found for every business |
| `IngestionEffects.StoredDashboardTotal` | backend.py:197-201 | in a store satisfying its invariant, every row a caller selects has emissions equal to amount × factor, so the dashboard total is the sum of amount × factor over those rows |

## Left out

- HTTP routing, CORS and status codes. Failures are `Result` errors: `MissingColumns` (400), `NotFound` (404), `InsufficientData` (400) and `InvalidScenario` (request validation of the scenario body).
- Authentication is mocked in the source and always yields user 1. The caller's id is a parameter here.
- The JWT and password-hashing setup, and the `users` and `shares` tables. No modelled path uses them.
- sqlite connections and the schema. The integer `id` column is not modelled, and neither is the schema that `to_sql(..., if_exists='replace')` puts in its place.
- CSV byte decoding and parsing. An upload is a set of column names plus one entry per row. Empty cells (pandas NaN) are not modelled. Neither are text values in numeric columns, nor extra columns beyond the nine (they are dropped in the source).
- Prophet fitting and prediction. The model stops at the series handed to the fit, and its at-least-two-dates precondition.
- PDF rendering. Only the figures the report prints are modelled, not the canvas or the pie chart.
- Report.Report: `Ok` stands for the figures the source computes and draws into the PDF. The source never returns them: backend.py:321 calls `Response`, which none of the imports at backend.py:2-21 provides, so every report request that passes the not-found check fails there after drawing.
- The `convert_naira_to_kwh` stub, and the fixed explanation sentence of the insights response.
- IEEE floating-point rounding. All amounts are real numbers.
- Grouping.GroupBy: groups come out in the order of each key's last occurrence in the table. pandas sorts group keys, so only the set of groups and their sums match the source, not their order. The same holds for Simulator.PrepareForecast: its per-date series is in last-occurrence order of the dates, not the date-sorted order the source hands to the fit.
- Grouping.ArgMax: ties go to the first maximal group in the model's group order, that is the tied group whose key's last occurrence comes earliest in the table. pandas picks the first in sorted key order, so with ties the chosen group may differ. The same holds for Grouping.TopKey, Aggregator.TopActivityTip and Report.Report.
- Aggregator.SectorAverage: pandas gives NaN as the mean of an empty sector; the model gives 0. Both lead to a score of 100. Insights never meets an empty sector, because the caller's own first record belongs to it.
