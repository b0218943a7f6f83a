# Scope 3 decision engine — a Dafny model of its calculation core

The Scope 3 Emission Decision Dashboard takes a small supplier table
(distance, quantity, emission factor and cost per tonne for each supplier) and
does the following:

- it derives each supplier's transport emissions in kg CO2;
- it splits the suppliers into three clusters by emissions and labels each
  cluster High, Medium or Low risk from the cluster means;
- it prices the emissions at a carbon price chosen on a slider;
- it ranks the suppliers by priority score (emissions per unit of cost),
  recommends the top three, and shows four key metrics.

This project models that calculation as pure functions over a sequence of
immutable records and proves what the code promises about it.

- `records.dfy` (module `Records`): the supplier record, the derived row, the
  risk labels, and a `Score` type for the priority quotient. `Score` is a real
  number or one of the IEEE values +inf, -inf and NaN. It also holds
  `Option` and `Result`.
- `metrics.dfy` (module `Metrics`): the formulas for emissions, carbon cost
  and priority score.
- `tiering.dfy` (module `Tiering`): the per-cluster means, the first cluster
  id with the largest mean and the first with the smallest, and the
  dictionary lookup with its `Medium` default.
- `ranking.dfy` (module `Ranking`): the descending order on scores (NaN
  last), the sort by priority, and the top-three recommendations.
- `kpis.dfy` (module `Kpis`): supplier count, total emissions, High-risk
  count and total carbon cost.
- `pipeline.dfy` (module `Pipeline`): one full recomputation (`Analyse`) for
  a cluster assignment and a carbon price, and the lemmas showing that the
  price changes only the carbon costs.
- `example.dfy` (module `Example`): the six built-in suppliers worked
  through the formulas and the tiering.
- `sample_report.dfy` (module `SampleReport`): the key metrics of the
  built-in suppliers after one full recomputation.

Numbers are Dafny `real`, which is exact. It is an idealisation of the
double-precision columns of app.py. The k-means partitioner is not
modelled. Its output is an input to the model: a sequence `c` of cluster ids
in 0..2, one per row. Every tiering property is proved for any such
assignment.

### Behaviour of app.py that the model keeps

- app.py does not validate its inputs. A negative distance, quantity or
  emission factor gives negative emissions, so the non-negativity results are
  stated under the hypothesis that those inputs are non-negative.
- A zero `Cost_per_ton` makes the priority division give +inf, -inf or NaN
  according to the sign of the emissions. The model does the same through
  `Score`, and its sort places NaN last, as `sort_values` does.
- With fewer than three suppliers, `KMeans(n_clusters=3)` raises. The model
  returns `Err(TooFewSamples)`.
- The label map is the dict literal `{high: "High", low: "Low"}`. When the
  first id with the largest mean is also the first id with the smallest
  mean, the later `Low` entry replaces the `High` one and no row is High.
  This happens exactly when all occurring cluster means are equal
  (`Tiering.NoHighIffTied`).
- `sort_values` fixes no order among rows with equal priority. The model
  claims only that the ranking is a permutation with non-increasing scores.

## Model

| member | source | states |
|---|---|---|
| `Metrics.Emissions` | app.py:28 | Emissions are non-negative when distance, quantity and emission factor all are, and zero when any of them is zero |
| `Metrics.CarbonCost` | app.py:40 | Carbon cost is the emissions converted to tonnes times the price per tonne, and is non-negative for non-negative emissions and price |
| `Metrics.CarbonCostMonotone` | app.py:40 | For non-negative emissions, a higher carbon price never gives a lower carbon cost |
| `Metrics.PriorityScore` | app.py:41 | The score is finite exactly when the cost is non-zero, and then it times the cost gives back the emissions; a zero cost gives +inf, -inf or NaN according to the sign of the emissions |
| `Tiering.CountIn` | app.py:33 | A cluster's row count is at most the table size, and it is positive exactly when the id occurs, so the grouping has one group per occurring id |
| `Tiering.Mean` | app.py:33 | A cluster's mean exists exactly when the id occurs, and the mean times the cluster's row count is the cluster's total emissions |
| `Tiering.Means` | app.py:33 | The grouped means hold one entry per cluster id 0..2; an entry is present exactly when that id occurs, and then it times the id's row count is the id's total emissions |
| `Tiering.IdxMax` | app.py:34 | The result is absent exactly when no cluster occurs; otherwise it is an occurring id whose mean is at least every other mean and strictly above the mean of every smaller occurring id |
| `Tiering.IdxMin` | app.py:35 | The mirror of `IdxMax`: the first occurring id with the smallest mean |
| `Tiering.LabelRule` | app.py:37 | The lookup gives Low exactly for the low id, High exactly for the high id when it differs from the low id, and Medium for every other id |
| `Tiering.LabelRows` | app.py:37 | Each row is labelled Low exactly when its id is the low id, High exactly when its id is the high id and that differs from the low id, and Medium when its id is neither |
| `Tiering.Tier` | app.py:33-37 | The labelling is absent only for an empty table. Otherwise: a row is Low iff its cluster is the first with the least mean; High iff its cluster is the first with the greatest mean and not the Low one; Medium iff neither |
| `Tiering.HighLowUnique` | app.py:33-35 | The first-max and first-min indices of the means are exactly the clusters the tiering rule calls high and low |
| `Tiering.LabelsFollowMeans` | app.py:37 | Rows labelled through the table built from the first-max and first-min ids satisfy the tiering rule |
| `Tiering.NoHighIffTied` | app.py:34-37 | No row is High exactly when all occurring cluster means are equal, and some row is always Low |
| `Ranking.AtLeastTotal` | app.py:76 | Any two priority scores are comparable in the descending order |
| `Ranking.AtLeastTransitive` | app.py:76 | The descending order on scores is transitive |
| `Ranking.Insert` | app.py:76 | Inserting a row into a ranked table keeps it ranked, and the result has exactly the old rows plus the new one |
| `Ranking.SortByPriority` | app.py:76 | The sorted table is a permutation of the rows, and its priority scores never increase, with NaN last |
| `Ranking.PrefixOutranksSuffix` | app.py:83 | In a ranked table, every row of a prefix scores at least as high as every row after it |
| `Ranking.Recommend` | app.py:83 | The recommendations are min(3, n) of the table's rows, ranked, and each scores at least as high as every row not recommended |
| `Kpis.HighRows` | app.py:50 | The filter keeps every High row as often as it occurs in the table, and keeps no other rows |
| `Kpis.HighRowsCount` | app.py:50 | The number of rows the High filter keeps is the number of High labels in the risk column |
| `Kpis.Summarise` | app.py:48-51 | The supplier count is the table size; the High-risk count is the number of High labels, is at most the table size, and is zero iff no row is High |
| `Kpis.TotalEmissionsNonNegative` | app.py:49 | Total emissions are non-negative when every row's emissions are |
| `Kpis.TotalCarbonCostIsCostOfTotal` | app.py:51 | When each row is priced at the same carbon price, the summed carbon cost equals the carbon cost of the summed emissions |
| `Pipeline.EmissionsColumn` | app.py:28 | The emissions column has one entry per supplier, and every entry is non-negative when every supplier's distance, quantity and emission factor are |
| `Pipeline.RepriceRow` | app.py:40 | A repriced row has the carbon cost of its own emissions at the new price and is otherwise unchanged |
| `Pipeline.Reprice` | app.py:40 | Repricing a table reprices each row in place |
| `Pipeline.Analyse` | app.py:28-83 | The analysis fails, with the supplier count, exactly when there are fewer than three suppliers. Otherwise the table and the ranking have one row per supplier and there are three recommendations |
| `Pipeline.AnalyseRows` | app.py:28-41 | Each table row keeps its supplier and carries that supplier's emissions, its cluster id, the carbon cost of its emissions at the price, and its priority score |
| `Pipeline.AnalyseTiers` | app.py:33-37 | A row is Low iff its cluster is the first with the least mean; High iff its cluster is the first with the greatest mean and not the Low one; Medium iff neither |
| `Pipeline.AnalyseRanking` | app.py:76-83 | The ranking is a permutation of the table with non-increasing scores; the recommendations are its first three rows and each scores at least as high as every row left out |
| `Pipeline.AnalyseMetrics` | app.py:48-50 | The metrics give the supplier count, the total emissions of the table, and a High-risk count equal to the number of High labels, zero iff no row is High |
| `Pipeline.AnalyseCarbonCost` | app.py:51 | The total carbon cost equals the carbon cost of the total emissions at the same price |
| `Pipeline.TableCarbonCost` | app.py:40-51 | Summed over the decision table, the row carbon costs equal the carbon cost of the summed emissions |
| `Pipeline.NoHighRiskIffTied` | app.py:33-50 | The High-risk count is zero exactly when all occurring cluster means are equal |
| `Pipeline.PriceOnlyReprices` | app.py:39-41 | The table at another carbon price is the same table repriced |
| `Pipeline.InsertReprice` | app.py:76 | Insertion into the ranking commutes with repricing, so the price never moves a row |
| `Pipeline.SortReprice` | app.py:76 | Sorting by priority commutes with repricing |
| `Pipeline.RankedIsSortedTable` | app.py:76 | The report's ranking is the table sorted by priority |
| `Pipeline.MetricsSummariseTable` | app.py:48-51 | The report's key metrics are those of its table |
| `Pipeline.PriceKeepsTiers` | app.py:30-40 | Two carbon prices give every row the same cluster id and the same risk label |
| `Pipeline.PriceKeepsRanking` | app.py:39-83 | Two carbon prices rank the rows in the same order and recommend the same rows, up to their carbon costs |
| `Pipeline.RepricePrefix` | app.py:83 | Repricing commutes with taking the first rows |
| `Pipeline.HigherPriceNoCheaper` | app.py:40 | At a higher carbon price no row with non-negative emissions has a lower carbon cost |
| `Pipeline.TotalEmissionsNonNegativeReport` | app.py:28-49 | The total emissions metric is non-negative when every supplier's distance, quantity and emission factor are |
| `Pipeline.RepriceKeepsOrder` | app.py:76 | Repricing a ranked table leaves it ranked, because the price does not enter the priority score |
| `Example.AlphaFigures` | app.py:16-22 | Alpha emits 500 x 120 x 0.12 = 7200 kg CO2. That costs 28800 at the default price of 4000, and its priority score is 0.08 |
| `Example.DatasetEmissions` | app.py:15-28 | The built-in table emits 7200, 44000, 19200, 6480, 75000 and 54000 kg CO2 |
| `Example.SampleMeans` | app.py:33 | Under the sample split, the cluster means are 10960, 49000 and 75000 |
| `Example.SampleHighLow` | app.py:34-35 | Under the sample split, cluster 2 has the largest mean and cluster 0 the smallest |
| `Example.SampleTable` | app.py:37 | The sample labelling looks rows up in the table with cluster 2 as High and cluster 0 as Low |
| `Example.SampleLabels` | app.py:37 | The lookup labels the sample ids Low, Medium, Low, Low, High, Medium |
| `Example.SampleTiers` | app.py:33-37 | The built-in suppliers under the sample split are labelled Low, Medium, Low, Low, High, Medium |
| `Example.DatasetTotal` | app.py:49 | Six rows carrying the built-in emissions total 205880 kg CO2 |
| `Example.SampleHighCount` | app.py:50 | Six rows carrying the sample risk column contain one High row |
| `Example.SampleRows` | app.py:15-37 | At the default price the decision table has six rows carrying the built-in emissions and the risk column Low, Medium, Low, Low, High, Medium |
| `Example.SampleSummary` | app.py:48-51 | Six rows carrying those emissions and risks, priced at the default price, summarise to 6 suppliers, 205880 kg CO2, 1 High-risk supplier and a carbon cost of 823520 |
| `SampleReport.SampleTableMetrics` | app.py:48-51 | The decision table of the built-in suppliers at the default price summarises to those four figures |
| `SampleReport.SampleMetrics` | app.py:48-51 | The full recomputation at the default price succeeds and shows 6 suppliers, 205880 kg CO2, 1 High-risk supplier and a carbon cost of 823520 |

## Left out

- Streamlit is left out: page setup, title, slider widget, metric cards, charts, the table display and the success messages. These are presentation. The slider's value is the `price` parameter, and no bounds are required of it, because the formulas do not depend on them.
- The k-means internals and their seeding are left out, because k-means is a foreign library. The cluster ids are an input. The model only uses k-means' refusal of fewer samples than clusters (`TooFewSamples`).
- `Example.SampleClusters` is an illustrative assignment. It is not a claim about what k-means with `random_state=42` returns on this table.
- Floating-point rounding is left out: numbers are exact reals.
- The `int(...)` truncation and the thousands-separator formatting of the displayed totals and of the emissions in the recommendation text are left out. They are display formatting.
- The recommendation rationale text is left out, because it is presentation.
- The projection to six columns before the displayed sort is left out. The model sorts whole rows, which gives the same order.
- `Ranking.SortByPriority` is an insertion sort, which fixes one order among rows with equal scores. The pandas sort is not stable. So only the permutation and the non-increasing scores are claimed, not a tie order.
- The pandas DataFrame and groupby machinery is replaced by sequences and recursive sums.
